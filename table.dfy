/**
 * The table-listing portal protocol run for each account by the two classes
 * of eracuni/edb.py (`Domacinstva`, `MernaGrupa`) and by `main()` in main.py:
 * load the page, sign in, open the invoice list, read the period of the
 * newest invoice, and when it differs from the account's watermark announce
 * it, download it, archive it and only then advance the watermark; finally
 * sign out.
 *
 * The two revisions differ only in where the watermark lives, the infix of
 * the archived names and how a new bill is announced (`Revision`).
 */
module Table {
  import opened Base
  import opened Text
  import opened Data
  import opened Driver

  /** The two portal sections of eracuni/edb.py. */
  datatype Flow = Domacinstva | MernaGrupa

  /** `edb_dom_{alias}` and `edb_mg_{alias}`: the watermark scope of an account in each section. */
  function ScopeKey(flow: Flow, alias: string): (r: string)
    ensures |r| > |alias| && r[|r| - |alias|..] == alias
  {
    match flow
    case Domacinstva => "edb_dom_" + alias
    case MernaGrupa => "edb_mg_" + alias
  }

  /** The line announcing a new bill: `EDB Domaćinstva ({alias}) za {period.lower()}`, or `EDB Merna grupa ...`. */
  function Notice(flow: Flow, alias: string, period: string): (r: string)
    ensures |r| > |alias| + |period| && r[|r| - |period|..] == Lower(period)
  {
    var title := match flow
      case Domacinstva => "EDB Domaćinstva"
      case MernaGrupa => "EDB Merna grupa";
    title + " (" + alias + ") za " + Lower(period)
  }

  /** The two sections never share a watermark, whatever the aliases. */
  lemma {:induction false} ScopeKeysDisjoint(a: string, b: string)
    ensures ScopeKey(Domacinstva, a) != ScopeKey(MernaGrupa, b)
  {
    assert ScopeKey(Domacinstva, a)[4] == 'd';
    assert ScopeKey(MernaGrupa, b)[4] == 'm';
  }

  /** Where a run of the protocol comes from: eracuni/edb.py for one section, or main.py. */
  datatype Revision = Package(flow: Flow) | Script

  /** The watermark file of an account: `var/storage_{scope}.yaml`, or `data/storage_{alias}.yaml` in main.py. */
  function WatermarkPath(rev: Revision, alias: string): string {
    match rev
    case Package(flow) => StoragePath(ScopeKey(flow, alias))
    case Script => "data/storage_" + alias + ".yaml"
  }

  /** The infix of the archived names: the scope key, or the bare alias in main.py. */
  function Infix(rev: Revision, alias: string): string {
    match rev
    case Package(flow) => ScopeKey(flow, alias)
    case Script => alias
  }

  /** No two sections, and neither section and main.py, share a watermark file. */
  lemma {:induction false} WatermarkPathsDisjoint(a: string, b: string)
    ensures WatermarkPath(Package(Domacinstva), a) != WatermarkPath(Package(MernaGrupa), b)
    ensures WatermarkPath(Package(Domacinstva), a) != WatermarkPath(Script, b)
    ensures WatermarkPath(Package(MernaGrupa), a) != WatermarkPath(Script, b)
  {
    var pre := |"var/storage_"|;
    assert WatermarkPath(Package(Domacinstva), a)[pre + 4] == 'd';
    assert WatermarkPath(Package(MernaGrupa), b)[pre + 4] == 'm';
    assert WatermarkPath(Package(Domacinstva), a)[0] == 'v';
    assert WatermarkPath(Package(MernaGrupa), a)[0] == 'v';
    assert WatermarkPath(Script, b)[0] == 'd';
  }

  /** One row of the invoice table: the texts of its cells, and the PDF its last cell downloads. */
  datatype Row = Row(cells: seq<string>, pdf: string)

  /**
   * What the portal does for one account: whether the page loads, whether the
   * login form and the invoice menu entry are found, the rows of the invoice
   * table (header first) and whether the logout control is found.
   */
  datatype Page = Page(loads: bool, login: Step, menu: Step, rows: seq<Row>, logout: Step)

  /**
   * The bill detector: the newest period is the stripped text of the second
   * cell of row 1, row 0 being the header. A table with at most one row is
   * fatal. A row 1 without a second cell fails the lookup made inside that
   * row, which crashes instead of quitting (`Missed` in an element).
   */
  function DetectPeriod(rows: seq<Row>): (r: Result<string, Failure>)
    ensures r.Ok? <==> |rows| > 1 && |rows[1].cells| > 1
    ensures |rows| <= 1 ==> r == Err(NoInvoiceTable)
    ensures |rows| > 1 && |rows[1].cells| <= 1 ==> r == Err(LookupCrash(PeriodCell))
    ensures r.Ok? ==> r.value == Strip(rows[1].cells[1])
  {
    if |rows| <= 1 then Err(NoInvoiceTable)
    else if |rows[1].cells| <= 1 then Err(LookupCrash(PeriodCell))
    else Ok(Strip(rows[1].cells[1]))
  }

  /**
   * The detected period is the text of the period cell with its surrounding
   * whitespace removed, and only that: it has none left at either end, and
   * what was removed is whitespace.
   */
  lemma DetectPeriodStripped(rows: seq<Row>)
    requires DetectPeriod(rows).Ok?
    ensures var period := DetectPeriod(rows).value;
      Trimmed(period) && exists k :: PaddedInfix(rows[1].cells[1], period, k)
  {
    StripTrimmed(rows[1].cells[1]);
    StripPadded(rows[1].cells[1]);
  }

  /** The announcement of a new bill: a notification line, or a line on standard output in main.py. */
  function Announce(rev: Revision, alias: string, period: string, w: World): (r: World)
    ensures |r.lines| + |r.machine.stdout| == |w.lines| + |w.machine.stdout| + 1
    ensures r.actions == w.actions && r.machine.(stdout := w.machine.stdout) == w.machine
  {
    match rev
    case Package(flow) => w.(lines := w.lines + [Notice(flow, alias, period)])
    case Script => Printed(w, alias + " - " + period)
  }

  /**
   * A new bill: announce it, click the download cell of `row`, archive every
   * download, and only then write the watermark. A failed move raises past
   * the watermark write.
   */
  function Fetch(rev: Revision, alias: string, period: string, row: Row, yearMonth: string, w: World): (o: Outcome)
    ensures o.halt.None? || o.halt == Some(MoveError)
    ensures o.world.actions == w.actions + [Download]
    ensures o.halt.Some? ==> o.world.machine.state == w.machine.state && o.world.machine.pdfs == w.machine.pdfs
    ensures o.halt.None? ==>
      o.world.machine.downloads == [] && o.world.machine.state == Save(w.machine.state, WatermarkPath(rev, alias), period)
  {
    var w1 := Downloaded(Announce(rev, alias, period, w), row.pdf);
    match MovePdfs(w1.machine, Infix(rev, alias), yearMonth)
    case None => Outcome(w1, Some(MoveError))
    case Some(m) =>
      var path := WatermarkPath(rev, alias);
      Outcome(w1.(machine := m.(state := Save(m.state, path, period))), None)
  }

  /** Loading the page, signing in and opening the invoice list. */
  function Enter(page: Page, w: World): (o: Outcome)
    ensures o.halt.None? <==> page.loads && page.login.Found? && page.menu.Found?
    ensures o.halt.None? ==> o.world.actions == w.actions + [SignIn, OpenInvoices]
    ensures o.halt.Some? ==> LastAction(o.world, Quit)
    ensures o.world.machine == w.machine && o.world.lines == w.lines
  {
    if !page.loads then Fail(w, PageLoadError)
    else if page.login.Missing? then Fail(w, ElementMissing(LoginForm))
    else if page.menu.Missing? then Fail(Act(w, SignIn), ElementMissing(InvoiceMenu))
    else Outcome(Act(Act(w, SignIn), OpenInvoices), None)
  }

  /** The comparison with the watermark `saved`: a seen period changes nothing, a new one is fetched. */
  function Process(rev: Revision, alias: string, period: string, saved: string, row: Row, yearMonth: string, w: World): (o: Outcome)
    ensures period == saved ==> o.world == w && o.halt.None?
    ensures period != saved ==> o.world.actions == w.actions + [Download] && (o.halt.None? || o.halt == Some(MoveError))
  {
    if period == saved then Outcome(w, None) else Fetch(rev, alias, period, row, yearMonth, w)
  }

  /** Signing out. */
  function Leave(logout: Step, w: World): (o: Outcome)
    ensures o.halt.None? <==> logout.Found?
    ensures LastAction(o.world, if logout.Found? then SignOut else Quit)
    ensures o.world.machine == w.machine && o.world.lines == w.lines
  {
    if logout.Missing? then Fail(w, ElementMissing(LogoutControl)) else Outcome(Act(w, SignOut), None)
  }

  /** One iteration of the account loop, from the world `w` in which the account's watermark is read. */
  function TableAccount(rev: Revision, account: Account, page: Page, yearMonth: string, w: World): (o: Outcome)
    ensures o.halt.None? ==> Detected(page) && page.logout.Found? && LastAction(o.world, SignOut)
  {
    var saved := Load(w.machine.state, WatermarkPath(rev, account.alias));
    var e := Enter(page, w);
    if e.halt.Some? then e
    else
      match DetectPeriod(page.rows)
      case Err(NoInvoiceTable) => Fail(e.world, NoInvoiceTable)
      case Err(_) => Missed(e.world, InElement, PeriodCell)
      case Ok(period) =>
        var o := Process(rev, account.alias, period, saved, page.rows[1], yearMonth, e.world);
        if o.halt.Some? then o else Leave(page.logout, o.world)
  }

  /** The account loop: accounts in order, each with its page, stopping at the first failure. */
  function TableRun(rev: Revision, accounts: seq<Account>, pages: seq<Page>, yearMonth: string, w: World): (o: Outcome)
    requires |pages| == |accounts|
    ensures o.halt.None? && accounts != [] ==> LastAction(o.world, SignOut)
  {
    if accounts == [] then Outcome(w, None)
    else
      var o := TableAccount(rev, accounts[0], pages[0], yearMonth, w);
      if o.halt.Some? then o else TableRun(rev, accounts[1..], pages[1..], yearMonth, o.world)
  }

  /** One turn of the account loop: the first account's step, then the rest of the run unless it failed. */
  lemma RunStep(rev: Revision, accounts: seq<Account>, pages: seq<Page>, yearMonth: string, w: World)
    requires |pages| == |accounts| && accounts != []
    ensures var o := TableAccount(rev, accounts[0], pages[0], yearMonth, w);
      TableRun(rev, accounts, pages, yearMonth, w)
      == if o.halt.Some? then o else TableRun(rev, accounts[1..], pages[1..], yearMonth, o.world)
  {
  }

  /** The page gets as far as reading a period. */
  predicate Detected(page: Page) {
    page.loads && page.login.Found? && page.menu.Found? && DetectPeriod(page.rows).Ok?
  }

  /** The period the page shows, once detected. */
  function PeriodOf(page: Page): string
    requires Detected(page)
  {
    DetectPeriod(page.rows).value
  }

  /**
   * A table with at most its header row is fatal: the browser is quit, the
   * process exits with status 1, and the watermarks, the downloads, the
   * archive and the notifications are all untouched.
   */
  lemma MalformedTableIsFatal(rev: Revision, account: Account, page: Page, yearMonth: string, w: World)
    requires page.loads && page.login.Found? && page.menu.Found? && |page.rows| <= 1
    ensures var o := TableAccount(rev, account, page, yearMonth, w);
      && o.halt == Some(NoInvoiceTable)
      && o.world.machine == w.machine && o.world.lines == w.lines
      && o.world.actions == w.actions + [SignIn, OpenInvoices, Quit]
  {
  }

  /**
   * Any failure before a period is read leaves the machine and the
   * notifications as they were. It has quit the browser, except when the
   * period cell is missing: that lookup crashes after the menu click.
   */
  lemma NoPeriodNoChange(rev: Revision, account: Account, page: Page, yearMonth: string, w: World)
    requires !Detected(page)
    ensures var o := TableAccount(rev, account, page, yearMonth, w);
      && o.halt.Some? && o.halt != Some(MoveError)
      && o.world.machine == w.machine && o.world.lines == w.lines
      && (o.halt.value.LookupCrash? ==> o.world.actions == w.actions + [SignIn, OpenInvoices])
      && (!o.halt.value.LookupCrash? ==> LastAction(o.world, Quit))
  {
  }

  /**
   * A row 1 without a second cell: the lookup inside the row finds nothing,
   * the wrapper's `quit()` on the row raises, and the run ends with nothing
   * changed and the browser left open, signed in.
   */
  lemma MissingPeriodCellCrashes(rev: Revision, account: Account, page: Page, yearMonth: string, w: World)
    requires page.loads && page.login.Found? && page.menu.Found?
    requires |page.rows| > 1 && |page.rows[1].cells| <= 1
    ensures var o := TableAccount(rev, account, page, yearMonth, w);
      && o.halt == Some(LookupCrash(PeriodCell)) && LeavesBrowserOpen(o.halt.value)
      && o.world == Act(Act(w, SignIn), OpenInvoices)
  {
  }

  /**
   * A period equal to the watermark: no announcement, no download, no
   * archive and no watermark write; only the sign-in, the menu and the
   * sign-out (or the fatal logout lookup).
   */
  lemma SeenPeriodIsNoop(rev: Revision, account: Account, page: Page, yearMonth: string, w: World)
    requires Detected(page)
    requires PeriodOf(page) == Load(w.machine.state, WatermarkPath(rev, account.alias))
    ensures var o := TableAccount(rev, account, page, yearMonth, w);
      && o.world.machine == w.machine && o.world.lines == w.lines
      && o.world.actions == w.actions + [SignIn, OpenInvoices, if page.logout.Found? then SignOut else Quit]
      && (o.halt.None? <==> page.logout.Found?)
  {
  }

  /**
   * A period different from the watermark: the announcement, the download
   * click, the archive of every download and the watermark write, in that
   * order, then the sign-out.
   */
  lemma NewPeriodIsFetched(rev: Revision, account: Account, page: Page, yearMonth: string, w: World)
    requires Detected(page) && page.logout.Found?
    requires PeriodOf(page) != Load(w.machine.state, WatermarkPath(rev, account.alias))
    requires w.machine.pdfDir
    ensures var o := TableAccount(rev, account, page, yearMonth, w);
      var period, path, infix := PeriodOf(page), WatermarkPath(rev, account.alias), Infix(rev, account.alias);
      && o.halt.None?
      && o.world.actions == w.actions + [SignIn, OpenInvoices, Download, SignOut]
      && (rev.Package? ==> o.world.lines == w.lines + [Notice(rev.flow, account.alias, period)]
                           && o.world.machine.stdout == w.machine.stdout)
      && (rev.Script? ==> o.world.lines == w.lines
                          && o.world.machine.stdout == w.machine.stdout + [account.alias + " - " + period])
      && o.world.machine.downloads == []
      && o.world.machine.pdfs == w.machine.pdfs + ArchiveNames(infix, yearMonth, w.machine.downloads + [page.rows[1].pdf])
      && o.world.machine.state == Save(w.machine.state, path, period)
  {
  }

  /**
   * A new bill with no pdf folder to move it to: the move raises, nothing
   * catches it, and the run stops with the bill announced and downloaded
   * but not archived, the watermark unchanged and the browser left open.
   */
  lemma MoveFailureKeepsWatermark(rev: Revision, account: Account, page: Page, yearMonth: string, w: World)
    requires Detected(page) && !w.machine.pdfDir
    requires PeriodOf(page) != Load(w.machine.state, WatermarkPath(rev, account.alias))
    ensures var o := TableAccount(rev, account, page, yearMonth, w);
      && o.halt == Some(MoveError)
      && o.world.actions == w.actions + [SignIn, OpenInvoices, Download]
      && (rev.Package? ==> o.world.lines == w.lines + [Notice(rev.flow, account.alias, PeriodOf(page))]
                           && o.world.machine.stdout == w.machine.stdout)
      && (rev.Script? ==> o.world.lines == w.lines
                          && o.world.machine.stdout == w.machine.stdout + [account.alias + " - " + PeriodOf(page)])
      && o.world.machine.downloads == w.machine.downloads + [page.rows[1].pdf]
      && o.world.machine.state == w.machine.state && o.world.machine.pdfs == w.machine.pdfs
  {
  }

  /**
   * The watermark moves only after the archive: whenever a step changes the
   * watermark files, every download (the new bill's included) has been
   * archived; and when the move fails the watermark is not written.
   */
  lemma {:induction false} WatermarkAfterArchive(rev: Revision, account: Account, page: Page, yearMonth: string, w: World)
    ensures var o := TableAccount(rev, account, page, yearMonth, w);
      o.world.machine.state != w.machine.state ==>
        && Detected(page)
        && o.world.machine.downloads == []
        && ArchiveNames(Infix(rev, account.alias), yearMonth, w.machine.downloads) <= o.world.machine.pdfs
        && ArchiveName(Infix(rev, account.alias), yearMonth, page.rows[1].pdf) in o.world.machine.pdfs
    ensures var o := TableAccount(rev, account, page, yearMonth, w);
      o.halt == Some(MoveError) ==> o.world.machine.state == w.machine.state && o.world.machine.pdfs == w.machine.pdfs
  {
    var o := TableAccount(rev, account, page, yearMonth, w);
    if o.world.machine.state != w.machine.state {
      var alias := account.alias;
      var w2 := Act(Act(w, SignIn), OpenInvoices);
      var w1 := Downloaded(Announce(rev, alias, PeriodOf(page), w2), page.rows[1].pdf);
      var d := w1.machine.downloads;
      assert d[|d| - 1] == page.rows[1].pdf;
      MovePdfsArchivesAll(w1.machine, Infix(rev, alias), yearMonth, |d| - 1);
    }
  }

  /** After a step that does not fail, the account's watermark holds the period the page shows. */
  lemma {:induction false} WatermarkIsPeriod(rev: Revision, account: Account, page: Page, yearMonth: string, w: World)
    requires TableAccount(rev, account, page, yearMonth, w).halt.None?
    ensures Detected(page)
    ensures Load(TableAccount(rev, account, page, yearMonth, w).world.machine.state, WatermarkPath(rev, account.alias)) == PeriodOf(page)
  {
    var path := WatermarkPath(rev, account.alias);
    var period := PeriodOf(page);
    if period != Load(w.machine.state, path) {
      var w2 := Act(Act(w, SignIn), OpenInvoices);
      var w1 := Downloaded(Announce(rev, account.alias, period, w2), page.rows[1].pdf);
      var m := MovePdfs(w1.machine, Infix(rev, account.alias), yearMonth).value;
      SaveThenLoad(m.state, path, period, path + "/");
      StripIdempotent(page.rows[1].cells[1]);
    }
  }

  /**
   * Idempotence: running the step again on the world it left, with the same
   * page, announces nothing, downloads nothing and changes no file.
   */
  lemma {:induction false} StepIdempotent(rev: Revision, account: Account, page: Page, yearMonth: string, w: World)
    requires TableAccount(rev, account, page, yearMonth, w).halt.None?
    ensures var w' := TableAccount(rev, account, page, yearMonth, w).world;
      var o := TableAccount(rev, account, page, yearMonth, w');
      && o.halt.None?
      && o.world.machine == w'.machine && o.world.lines == w'.lines
      && o.world.actions == w'.actions + [SignIn, OpenInvoices, SignOut]
  {
    var w' := TableAccount(rev, account, page, yearMonth, w).world;
    WatermarkIsPeriod(rev, account, page, yearMonth, w);
    SeenPeriodIsNoop(rev, account, page, yearMonth, w');
  }

  /** A failure that does not leave the browser open has quit it: it was the last thing done. */
  predicate QuitOnFailure(o: Outcome) {
    o.halt.Some? && !LeavesBrowserOpen(o.halt.value) ==>
      LastAction(o.world, Quit)
  }

  /**
   * How a step ends: a failure other than a failed move has quit the
   * browser, a step that does not fail ends with the sign-out, and main.py's
   * protocol never touches the notifications.
   */
  lemma AccountEnds(rev: Revision, account: Account, page: Page, yearMonth: string, w: World)
    ensures var o := TableAccount(rev, account, page, yearMonth, w);
      && QuitOnFailure(o)
      && (o.halt.None? ==> LastAction(o.world, SignOut))
      && (rev.Script? ==> o.world.lines == w.lines)
  {
    var e := Enter(page, w);
    if e.halt.None? {
      match DetectPeriod(page.rows)
      case Err(f) =>
      case Ok(period) =>
        var saved := Load(w.machine.state, WatermarkPath(rev, account.alias));
        var o := Process(rev, account.alias, period, saved, page.rows[1], yearMonth, e.world);
        assert o.halt.None? || o.halt == Some(MoveError);
        assert rev.Script? ==> o.world.lines == w.lines;
    }
  }

  /** The account loop ends as its steps do: a failure other than a failed move has quit the browser. */
  lemma {:induction false} RunQuitsOnFailure(rev: Revision, accounts: seq<Account>, pages: seq<Page>, yearMonth: string, w: World)
    requires |pages| == |accounts|
    ensures QuitOnFailure(TableRun(rev, accounts, pages, yearMonth, w))
    decreases |accounts|
  {
    if accounts != [] {
      var o := TableAccount(rev, accounts[0], pages[0], yearMonth, w);
      if o.halt.None? {
        RunQuitsOnFailure(rev, accounts[1..], pages[1..], yearMonth, o.world);
        assert TableRun(rev, accounts, pages, yearMonth, w) == TableRun(rev, accounts[1..], pages[1..], yearMonth, o.world);
      } else {
        AccountEnds(rev, accounts[0], pages[0], yearMonth, w);
        assert TableRun(rev, accounts, pages, yearMonth, w) == o;
      }
    }
  }

  /** main.py's account loop never touches the notifications. */
  lemma {:induction false} ScriptRunKeepsLines(accounts: seq<Account>, pages: seq<Page>, yearMonth: string, w: World)
    requires |pages| == |accounts|
    ensures TableRun(Script, accounts, pages, yearMonth, w).world.lines == w.lines
    decreases |accounts|
  {
    if accounts != [] {
      var o := TableAccount(Script, accounts[0], pages[0], yearMonth, w);
      AccountEnds(Script, accounts[0], pages[0], yearMonth, w);
      if o.halt.None? {
        ScriptRunKeepsLines(accounts[1..], pages[1..], yearMonth, o.world);
        assert TableRun(Script, accounts, pages, yearMonth, w) == TableRun(Script, accounts[1..], pages[1..], yearMonth, o.world);
      } else {
        assert TableRun(Script, accounts, pages, yearMonth, w) == o;
      }
    }
  }

  /** Different aliases have different watermark files, in each revision. */
  lemma {:induction false} WatermarkPathInjective(rev: Revision, a: string, b: string)
    requires WatermarkPath(rev, a) == WatermarkPath(rev, b)
    ensures a == b
  {
    match rev
    case Package(flow) =>
      StoragePathInjective(ScopeKey(flow, a), ScopeKey(flow, b));
      var k := |ScopeKey(flow, "")|;
      assert ScopeKey(flow, a)[k..] == a;
      assert ScopeKey(flow, b)[k..] == b;
    case Script =>
      var k := |"data/storage_"|;
      assert WatermarkPath(rev, a)[k..k + |a|] == a;
      assert WatermarkPath(rev, b)[k..k + |b|] == b;
  }

  /** A step changes no watermark but its own account's. */
  lemma {:induction false} AccountKeepsOtherWatermarks(rev: Revision, account: Account, page: Page, yearMonth: string,
                                                       w: World, other: string)
    requires other != WatermarkPath(rev, account.alias)
    ensures Load(TableAccount(rev, account, page, yearMonth, w).world.machine.state, other) == Load(w.machine.state, other)
  {
    var o := TableAccount(rev, account, page, yearMonth, w);
    if o.world.machine.state != w.machine.state {
      var path := WatermarkPath(rev, account.alias);
      var period := PeriodOf(page);
      var w2 := Act(Act(w, SignIn), OpenInvoices);
      var w1 := Downloaded(Announce(rev, account.alias, period, w2), page.rows[1].pdf);
      var m := MovePdfs(w1.machine, Infix(rev, account.alias), yearMonth).value;
      assert m.state == w.machine.state;
      SaveThenLoad(m.state, path, period, other);
    }
  }

  /** No two accounts of the list share an alias. */
  predicate DistinctAliases(accounts: seq<Account>) {
    forall i, j :: 0 <= i < j < |accounts| ==> accounts[i].alias != accounts[j].alias
  }

  /** The account loop changes no watermark but those of its own accounts. */
  lemma {:induction false} RunKeepsOtherWatermarks(rev: Revision, accounts: seq<Account>, pages: seq<Page>, yearMonth: string,
                                                   w: World, other: string)
    requires |pages| == |accounts|
    requires forall j :: 0 <= j < |accounts| ==> other != WatermarkPath(rev, accounts[j].alias)
    ensures Load(TableRun(rev, accounts, pages, yearMonth, w).world.machine.state, other) == Load(w.machine.state, other)
    decreases |accounts|
  {
    if accounts != [] {
      var o := TableAccount(rev, accounts[0], pages[0], yearMonth, w);
      AccountKeepsOtherWatermarks(rev, accounts[0], pages[0], yearMonth, w, other);
      if o.halt.None? {
        var rest := accounts[1..];
        assert forall j :: 0 <= j < |rest| ==> rest[j] == accounts[j + 1];
        RunKeepsOtherWatermarks(rev, rest, pages[1..], yearMonth, o.world, other);
        assert TableRun(rev, accounts, pages, yearMonth, w) == TableRun(rev, rest, pages[1..], yearMonth, o.world);
      }
    }
  }

  /** With distinct aliases, the first account's watermark file is no other account's. */
  lemma {:induction false} FirstPathIsOwn(rev: Revision, accounts: seq<Account>, j: nat)
    requires DistinctAliases(accounts) && 0 < j < |accounts|
    ensures WatermarkPath(rev, accounts[0].alias) != WatermarkPath(rev, accounts[j].alias)
  {
    if WatermarkPath(rev, accounts[0].alias) == WatermarkPath(rev, accounts[j].alias) {
      WatermarkPathInjective(rev, accounts[0].alias, accounts[j].alias);
    }
  }

  /**
   * After a whole run that does not fail, with distinct aliases, every
   * account's watermark holds the period its page shows.
   */
  lemma {:induction false} RunSetsWatermarks(rev: Revision, accounts: seq<Account>, pages: seq<Page>, yearMonth: string, w: World)
    requires |pages| == |accounts| && DistinctAliases(accounts)
    requires TableRun(rev, accounts, pages, yearMonth, w).halt.None?
    ensures forall j :: 0 <= j < |accounts| ==> Detected(pages[j]) && pages[j].logout.Found?
    ensures forall j :: 0 <= j < |accounts| ==>
      Load(TableRun(rev, accounts, pages, yearMonth, w).world.machine.state, WatermarkPath(rev, accounts[j].alias))
        == PeriodOf(pages[j])
    decreases |accounts|
  {
    if accounts != [] {
      var o := TableAccount(rev, accounts[0], pages[0], yearMonth, w);
      var rest, restPages := accounts[1..], pages[1..];
      var r := TableRun(rev, rest, restPages, yearMonth, o.world);
      assert o.halt.None? && TableRun(rev, accounts, pages, yearMonth, w) == r;
      RunSetsWatermarks(rev, rest, restPages, yearMonth, o.world);
      WatermarkIsPeriod(rev, accounts[0], pages[0], yearMonth, w);
      var path := WatermarkPath(rev, accounts[0].alias);
      forall j | 0 <= j < |rest| ensures path != WatermarkPath(rev, rest[j].alias) {
        FirstPathIsOwn(rev, accounts, j + 1);
        assert rest[j] == accounts[j + 1];
      }
      RunKeepsOtherWatermarks(rev, rest, restPages, yearMonth, o.world, path);
      assert Load(r.world.machine.state, path) == PeriodOf(pages[0]);
      forall j | 0 < j < |accounts|
        ensures Detected(pages[j]) && pages[j].logout.Found?
        ensures Load(r.world.machine.state, WatermarkPath(rev, accounts[j].alias)) == PeriodOf(pages[j])
      {
        assert accounts[j] == rest[j - 1] && pages[j] == restPages[j - 1];
      }
    }
  }

  /**
   * A run over accounts whose watermarks already hold the periods their pages
   * show announces nothing, downloads nothing and changes no file.
   */
  lemma {:induction false} RunOnSeenPeriodsIsNoop(rev: Revision, accounts: seq<Account>, pages: seq<Page>, yearMonth: string, w: World)
    requires |pages| == |accounts|
    requires forall j :: 0 <= j < |accounts| ==> Detected(pages[j]) && pages[j].logout.Found?
    requires forall j :: 0 <= j < |accounts| ==>
      Load(w.machine.state, WatermarkPath(rev, accounts[j].alias)) == PeriodOf(pages[j])
    ensures var o := TableRun(rev, accounts, pages, yearMonth, w);
      o.halt.None? && o.world.machine == w.machine && o.world.lines == w.lines
    decreases |accounts|
  {
    if accounts != [] {
      SeenPeriodIsNoop(rev, accounts[0], pages[0], yearMonth, w);
      var o := TableAccount(rev, accounts[0], pages[0], yearMonth, w);
      var rest, restPages := accounts[1..], pages[1..];
      assert forall j :: 0 <= j < |rest| ==> rest[j] == accounts[j + 1] && restPages[j] == pages[j + 1];
      RunOnSeenPeriodsIsNoop(rev, rest, restPages, yearMonth, o.world);
      assert TableRun(rev, accounts, pages, yearMonth, w) == TableRun(rev, rest, restPages, yearMonth, o.world);
    }
  }

  /**
   * Exactly once per new bill: with distinct aliases, running the whole
   * account loop a second time over the same pages announces nothing,
   * downloads nothing and changes no file.
   */
  lemma {:induction false} RunTwiceIsNoop(rev: Revision, accounts: seq<Account>, pages: seq<Page>, yearMonth: string, w: World)
    requires |pages| == |accounts| && DistinctAliases(accounts)
    requires TableRun(rev, accounts, pages, yearMonth, w).halt.None?
    ensures var w' := TableRun(rev, accounts, pages, yearMonth, w).world;
      var o := TableRun(rev, accounts, pages, yearMonth, w');
      o.halt.None? && o.world.machine == w'.machine && o.world.lines == w'.lines
  {
    RunSetsWatermarks(rev, accounts, pages, yearMonth, w);
    RunOnSeenPeriodsIsNoop(rev, accounts, pages, yearMonth, TableRun(rev, accounts, pages, yearMonth, w).world);
  }
}
