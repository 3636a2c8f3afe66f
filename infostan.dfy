/**
 * eracuni/infostan.py: the InfoStan portal. For each account it signs in,
 * opens the InfoStan tile and then, for every location i = 1..N, opens the
 * newest bill, prints its label and downloads it, before signing out once.
 *
 * This revision builds a watermark store per location (whose constructor
 * loads the file) but never consults or writes its watermark: every location
 * downloads, and the downloads are never archived.
 */
module Infostan {
  import opened Base
  import opened Text
  import opened Data
  import opened Driver
  import Table

  /** `infostan_{alias}_{i}`: the scope of the i-th location of an account. */
  function InfostanKey(alias: string, i: nat): (r: string)
    ensures |r| > |alias| + 10 && r[..9] == "infostan_" && r[9..9 + |alias|] == alias
  {
    "infostan_" + alias + "_" + NatToString(i)
  }

  /** Within one account, different locations have different scopes. */
  lemma {:induction false} InfostanKeyInjective(alias: string, i: nat, j: nat)
    requires InfostanKey(alias, i) == InfostanKey(alias, j)
    ensures i == j
  {
    var k := |"infostan_" + alias + "_"|;
    assert InfostanKey(alias, i)[k..] == NatToString(i);
    assert InfostanKey(alias, j)[k..] == NatToString(j);
    NatToStringInjective(i, j);
  }

  /** No InfoStan scope is an EDB scope. */
  lemma {:induction false} InfostanKeyNotEdb(alias: string, i: nat, flow: Table.Flow, other: string)
    ensures InfostanKey(alias, i) != Table.ScopeKey(flow, other)
  {
    assert InfostanKey(alias, i)[0] == 'i';
    assert Table.ScopeKey(flow, other)[0] == 'e';
  }

  /** The newest bill of a location: the text of its label link and the PDF its download delivers. */
  datatype Bill = Bill(text: string, pdf: string)

  /**
   * What the portal does for one location: whether its row is found, whether
   * the top bill row is found on the page, the bill that row holds (None when
   * its label link is missing), whether the review button is found, whether
   * the viewer loads before the wait expires, and whether the download, close
   * and back controls are found.
   */
  datatype Location = Location(row: Step, top: Step, bill: Option<Bill>, review: Step, loads: bool,
                               download: Step, close: Step, back: Step)

  /**
   * What the portal does for one account: page load, login form, InfoStan
   * tile, the locations listed (N is their number), logout and its confirmation.
   */
  datatype Page = Page(loads: bool, login: Step, tile: Step, locations: seq<Location>,
                       logout: Step, confirm: Step)

  /** A location whose every step succeeds. */
  predicate Passes(loc: Location) {
    && loc.row.Found? && loc.top.Found? && loc.bill.Some? && loc.review.Found? && loc.loads
    && loc.download.Found? && loc.close.Found? && loc.back.Found?
  }

  /**
   * One pass of the location loop, for location `i`: select it, print the
   * label of its top bill as it is (not stripped), open the bill and its
   * review, wait for the viewer, download, close the viewer and go back. A
   * wait that expires raises `TimeoutException`, which nothing catches, and
   * so does the label lookup made inside the top row when it finds nothing.
   */
  function LocationStep(i: nat, loc: Location, w: World): (o: Outcome)
    ensures o.halt.None? <==> Passes(loc)
  {
    if loc.row.Missing? then Fail(w, ElementMissing(LocationRow))
    else
      var w1 := Act(w, SelectLocation(i));
      if loc.top.Missing? then Fail(w1, ElementMissing(TopBill))
      else match loc.bill
      case None => Missed(w1, InElement, BillLabel)
      case Some(bill) =>
        var w2 := Act(Printed(w1, bill.text), OpenBill);
        if loc.review.Missing? then Fail(w2, ElementMissing(ReviewButton))
        else
          var w3 := Act(w2, OpenReview);
          if !loc.loads then Outcome(w3, Some(WaitTimeout))
          else if loc.download.Missing? then Fail(w3, ElementMissing(DownloadIcon))
          else
            var w4 := Downloaded(w3, bill.pdf);
            if loc.close.Missing? then Fail(w4, ElementMissing(CloseButton))
            else
              var w5 := Act(w4, CloseViewer);
              if loc.back.Missing? then Fail(w5, ElementMissing(BackButton))
              else Outcome(Act(w5, Back), None)
  }

  /**
   * The location loop from location `i` on, `locs[0]` being location `i`.
   * It gets through exactly when every location passes.
   */
  function LocationsFrom(i: nat, locs: seq<Location>, w: World): (o: Outcome)
    ensures o.halt.None? <==> forall k :: 0 <= k < |locs| ==> Passes(locs[k])
    decreases |locs|
  {
    if locs == [] then Outcome(w, None)
    else
      var o := LocationStep(i, locs[0], w);
      if o.halt.Some? then o else LocationsFrom(i + 1, locs[1..], o.world)
  }

  /** The browser actions of locations `i`, `i + 1`, ... when each of them passes. */
  function Trail(i: nat, locs: seq<Location>): seq<Action>
    decreases |locs|
  {
    if locs == [] then []
    else [SelectLocation(i), OpenBill, OpenReview, Download, CloseViewer, Back] + Trail(i + 1, locs[1..])
  }

  /** The PDFs the locations' downloads deliver. */
  function Pdfs(locs: seq<Location>): seq<string>
    decreases |locs|
  {
    if locs == [] then []
    else (if locs[0].bill.Some? then [locs[0].bill.value.pdf] else []) + Pdfs(locs[1..])
  }

  /** The labels printed for the locations. */
  function Labels(locs: seq<Location>): seq<string>
    decreases |locs|
  {
    if locs == [] then []
    else (if locs[0].bill.Some? then [locs[0].bill.value.text] else []) + Labels(locs[1..])
  }

  /** The loop visits location i, i + 1, ... in order: six actions each, the first one selecting it. */
  lemma {:induction false} TrailVisitsInOrder(i: nat, locs: seq<Location>, k: nat)
    requires k < |locs|
    ensures |Trail(i, locs)| == 6 * |locs|
    ensures Trail(i, locs)[6 * k] == SelectLocation(i + k)
    decreases |locs|
  {
    if k > 0 {
      TrailVisitsInOrder(i + 1, locs[1..], k - 1);
    } else if |locs| > 1 {
      TrailVisitsInOrder(i + 1, locs[1..], 0);
    }
  }

  /** Nothing the location loop does touches a watermark, the pdf folder or the notifications. */
  lemma {:induction false} LocationsKeepFiles(i: nat, locs: seq<Location>, w: World)
    ensures var o := LocationsFrom(i, locs, w);
      o.world.machine.state == w.machine.state && o.world.machine.pdfs == w.machine.pdfs
      && o.world.lines == w.lines
    decreases |locs|
  {
    if locs != [] {
      var o := LocationStep(i, locs[0], w);
      if o.halt.None? {
        LocationsKeepFiles(i + 1, locs[1..], o.world);
      }
    }
  }

  /** A location that passes takes the six actions, prints its label and downloads its bill. */
  lemma PassingStep(i: nat, loc: Location, w: World)
    requires Passes(loc)
    ensures var o := LocationStep(i, loc, w);
      && o.halt.None?
      && o.world.machine.downloads == w.machine.downloads + [loc.bill.value.pdf]
      && o.world.machine.stdout == w.machine.stdout + [loc.bill.value.text]
      && o.world.actions == w.actions + [SelectLocation(i), OpenBill, OpenReview, Download, CloseViewer, Back]
  {
  }

  /**
   * When every location passes, every location has been downloaded and its
   * label printed, in order, whatever the watermarks say.
   */
  lemma {:induction false} LocationsAllDownload(i: nat, locs: seq<Location>, w: World)
    requires forall k :: 0 <= k < |locs| ==> Passes(locs[k])
    ensures var o := LocationsFrom(i, locs, w);
      && o.halt.None?
      && o.world.machine.downloads == w.machine.downloads + Pdfs(locs)
      && o.world.machine.stdout == w.machine.stdout + Labels(locs)
      && o.world.actions == w.actions + Trail(i, locs)
    decreases |locs|
  {
    if locs != [] {
      var loc := locs[0];
      assert Passes(loc);
      var steps := [SelectLocation(i), OpenBill, OpenReview, Download, CloseViewer, Back];
      var o := LocationStep(i, loc, w);
      PassingStep(i, loc, w);
      var rest := locs[1..];
      assert forall k :: 0 <= k < |rest| ==> rest[k] == locs[k + 1];
      LocationsAllDownload(i + 1, rest, o.world);
      var r := LocationsFrom(i + 1, rest, o.world);
      assert LocationsFrom(i, locs, w) == r;
      assert Trail(i, locs) == steps + Trail(i + 1, rest);
      assert Pdfs(locs) == [loc.bill.value.pdf] + Pdfs(rest);
      assert Labels(locs) == [loc.bill.value.text] + Labels(rest);
      assert r.world.actions == w.actions + steps + Trail(i + 1, rest);
      assert r.world.machine.downloads == w.machine.downloads + [loc.bill.value.pdf] + Pdfs(rest);
      assert r.world.machine.stdout == w.machine.stdout + [loc.bill.value.text] + Labels(rest);
    }
  }

  /**
   * The body of the `for account` loop: page load, login, the tile, every
   * location, then logout and its confirmation, once, and "End of program".
   */
  function InfostanAccount(account: Account, page: Page, w: World): (o: Outcome)
    ensures o.halt.None? ==> LastAction(o.world, ConfirmSignOut)
    ensures o.halt.None? ==> |o.world.machine.stdout| > 0 && o.world.machine.stdout[|o.world.machine.stdout| - 1] == "End of program"
  {
    if !page.loads then Fail(w, PageLoadError)
    else if page.login.Missing? then Fail(w, ElementMissing(LoginForm))
    else
      var w1 := Act(w, SignIn);
      if page.tile.Missing? then Fail(w1, ElementMissing(InfostanTile))
      else
        var o := LocationsFrom(1, page.locations, Act(w1, OpenInfostan));
        if o.halt.Some? then o
        else if page.logout.Missing? then Fail(o.world, ElementMissing(LogoutControl))
        else
          var w2 := Act(o.world, SignOut);
          if page.confirm.Missing? then Fail(w2, ElementMissing(LogoutConfirmation))
          else Outcome(Printed(Act(w2, ConfirmSignOut), "End of program"), None)
  }

  /** The account loop: accounts in order, each with its page, stopping at the first failure. */
  function InfostanRun(accounts: seq<Account>, pages: seq<Page>, w: World): (o: Outcome)
    requires |pages| == |accounts|
    ensures o.halt.None? && accounts != [] ==>
      |o.world.machine.stdout| > 0 && o.world.machine.stdout[|o.world.machine.stdout| - 1] == "End of program"
  {
    if accounts == [] then Outcome(w, None)
    else
      var o := InfostanAccount(accounts[0], pages[0], w);
      if o.halt.Some? then o else InfostanRun(accounts[1..], pages[1..], o.world)
  }

  /**
   * An account that gets through: sign in, open the tile, every location
   * 1..N in order, then sign out and confirm once, after the last location.
   * Every location's bill has been downloaded and its label printed.
   */
  lemma {:induction false} AccountVisitsEveryLocation(account: Account, page: Page, w: World)
    requires InfostanAccount(account, page, w).halt.None?
    ensures forall k :: 0 <= k < |page.locations| ==> Passes(page.locations[k])
    ensures var o := InfostanAccount(account, page, w);
      && o.world.actions == w.actions + [SignIn, OpenInfostan] + Trail(1, page.locations) + [SignOut, ConfirmSignOut]
      && o.world.machine.downloads == w.machine.downloads + Pdfs(page.locations)
      && o.world.machine.stdout == w.machine.stdout + Labels(page.locations) + ["End of program"]
  {
    var start := Act(Act(w, SignIn), OpenInfostan);
    LocationsAllDownload(1, page.locations, start);
  }

  /**
   * A failed lookup on the page in the location loop has quit the browser;
   * only an expired wait and a missing label link inside the top row leave
   * it open.
   */
  lemma {:induction false} LocationsQuitOnFailure(i: nat, locs: seq<Location>, w: World)
    ensures var o := LocationsFrom(i, locs, w);
      o.halt.Some? && !LeavesBrowserOpen(o.halt.value) ==>
        LastAction(o.world, Quit)
    ensures var o := LocationsFrom(i, locs, w);
      o.halt.Some? && LeavesBrowserOpen(o.halt.value) ==>
        o.halt == Some(WaitTimeout) || o.halt == Some(LookupCrash(BillLabel))
    decreases |locs|
  {
    if locs != [] {
      var o := LocationStep(i, locs[0], w);
      if o.halt.None? {
        LocationsQuitOnFailure(i + 1, locs[1..], o.world);
        assert LocationsFrom(i, locs, w) == LocationsFrom(i + 1, locs[1..], o.world);
      }
    }
  }

  /**
   * How an account ends: a page that does not load is fatal before anything
   * else happens, and every failure but an expired wait or a missing label
   * link has quit the browser.
   */
  lemma {:induction false} AccountQuitsOnFailure(account: Account, page: Page, w: World)
    ensures !page.loads ==> InfostanAccount(account, page, w) == Outcome(Act(w, Quit), Some(PageLoadError))
    ensures var o := InfostanAccount(account, page, w);
      o.halt.Some? && !LeavesBrowserOpen(o.halt.value) ==>
        LastAction(o.world, Quit)
    ensures var o := InfostanAccount(account, page, w);
      o.halt.Some? && LeavesBrowserOpen(o.halt.value) ==>
        o.halt == Some(WaitTimeout) || o.halt == Some(LookupCrash(BillLabel))
  {
    if page.loads && page.login.Found? && page.tile.Found? {
      LocationsQuitOnFailure(1, page.locations, Act(Act(w, SignIn), OpenInfostan));
    }
  }

  /** A whole InfoStan run never changes a watermark, the pdf folder or the notifications, however it ends. */
  lemma {:induction false} RunKeepsWatermarks(accounts: seq<Account>, pages: seq<Page>, w: World)
    requires |pages| == |accounts|
    ensures var o := InfostanRun(accounts, pages, w);
      o.world.machine.state == w.machine.state && o.world.machine.pdfs == w.machine.pdfs
      && o.world.lines == w.lines
    decreases |accounts|
  {
    if accounts != [] {
      var page := pages[0];
      if page.loads && page.login.Found? && page.tile.Found? {
        LocationsKeepFiles(1, page.locations, Act(Act(w, SignIn), OpenInfostan));
      }
      var o := InfostanAccount(accounts[0], page, w);
      if o.halt.None? {
        RunKeepsWatermarks(accounts[1..], pages[1..], o.world);
      }
    }
  }

  /** One pass of the location loop. */
  method VisitLocation(alias: string, i: nat, loc: Location, host: Host, browser: Browser)
    returns (halt: Option<Failure>)
    modifies host, browser
    ensures var o := LocationStep(i, loc, old(View(host, browser)));
      View(host, browser) == o.world && halt == o.halt
  {
    // Built and never used: the watermark of this location is not consulted.
    var storage := new Storage(host, InfostanKey(alias, i));
    if loc.row.Missing? {
      browser.Do(Quit);
      return Some(ElementMissing(LocationRow));
    }
    browser.Do(SelectLocation(i));
    if loc.top.Missing? {
      browser.Do(Quit);
      return Some(ElementMissing(TopBill));
    }
    if loc.bill.None? {
      // find_first_* on the top row: its quit() raises, the browser stays open
      return Some(LookupCrash(BillLabel));
    }
    var lastBillDate := loc.bill.value.text;
    host.Print(lastBillDate);
    browser.Do(OpenBill);
    if loc.review.Missing? {
      browser.Do(Quit);
      return Some(ElementMissing(ReviewButton));
    }
    browser.Do(OpenReview);
    if !loc.loads {
      return Some(WaitTimeout);
    }
    if loc.download.Missing? {
      browser.Do(Quit);
      return Some(ElementMissing(DownloadIcon));
    }
    browser.ClickDownload(host, loc.bill.value.pdf);
    if loc.close.Missing? {
      browser.Do(Quit);
      return Some(ElementMissing(CloseButton));
    }
    browser.Do(CloseViewer);
    if loc.back.Missing? {
      browser.Do(Quit);
      return Some(ElementMissing(BackButton));
    }
    browser.Do(Back);
    return None;
  }

  /** The body of the `for account` loop, with the location loop `for i in range(1, N + 1)`. */
  method VisitAccount(account: Account, page: Page, host: Host, browser: Browser)
    returns (halt: Option<Failure>)
    modifies host, browser
    ensures var o := InfostanAccount(account, page, old(View(host, browser)));
      View(host, browser) == o.world && halt == o.halt
  {
    if !page.loads {
      browser.Do(Quit);
      return Some(PageLoadError);
    }
    if page.login.Missing? {
      browser.Do(Quit);
      return Some(ElementMissing(LoginForm));
    }
    browser.Do(SignIn);
    if page.tile.Missing? {
      browser.Do(Quit);
      return Some(ElementMissing(InfostanTile));
    }
    browser.Do(OpenInfostan);
    ghost var start := View(host, browser);
    var locations := page.locations;
    var n := |locations|;
    for i := 1 to n + 1
      invariant LocationsFrom(i, locations[i - 1..], View(host, browser)) == LocationsFrom(1, locations, start)
    {
      assert locations[i - 1..][1..] == locations[i..];
      halt := VisitLocation(account.alias, i, locations[i - 1], host, browser);
      if halt.Some? {
        return;
      }
    }
    if page.logout.Missing? {
      browser.Do(Quit);
      return Some(ElementMissing(LogoutControl));
    }
    browser.Do(SignOut);
    if page.confirm.Missing? {
      browser.Do(Quit);
      return Some(ElementMissing(LogoutConfirmation));
    }
    browser.Do(ConfirmSignOut);
    host.Print("End of program");
    return None;
  }

  /** `Infostan(driver, config)`: every InfoStan account in order, each facing its page. */
  method RunInfostan(config: Config, pages: seq<Page>, host: Host, browser: Browser)
    returns (halt: Option<Failure>)
    requires |pages| == |config.infostanAccounts|
    modifies host, browser
    ensures var o := InfostanRun(config.infostanAccounts, pages, old(View(host, browser)));
      View(host, browser) == o.world && halt == o.halt
  {
    var accounts := config.infostanAccounts;
    for k := 0 to |accounts|
      invariant InfostanRun(accounts[k..], pages[k..], View(host, browser))
             == InfostanRun(accounts, pages, old(View(host, browser)))
    {
      assert accounts[k..][1..] == accounts[k + 1..] && pages[k..][1..] == pages[k + 1..];
      halt := VisitAccount(accounts[k], pages[k], host, browser);
      if halt.Some? {
        return;
      }
    }
    return None;
  }
}
