/**
 * eracuni/edb.py: the account loops of `Domacinstva` and `MernaGrupa`, step
 * by step over the machine, the browser and the notification buffers, each
 * proved to have exactly the effect `Table.TableRun` gives it.
 */
module Edb {
  import opened Base
  import opened Text
  import opened Data
  import opened Messages
  import opened Driver
  import opened Table

  /** The world a run can see and change, read off the objects. */
  ghost function Observed(host: Host, browser: Browser, notes: Notifications): World
    reads host, browser, notes
  {
    World(host.Snapshot(), notes.lines, browser.actions)
  }

  /** The `if period != storage.last_saved` block: announce, download, archive and record a new period. */
  method Refresh(flow: Flow, alias: string, period: string, row: Row, yearMonth: string, storage: Storage,
                 host: Host, browser: Browser, notes: Notifications) returns (halt: Option<Failure>)
    requires notes.Valid() && storage.Valid()
    requires storage.host == host && storage.infix == ScopeKey(flow, alias)
    requires storage.yamlPath == WatermarkPath(Package(flow), alias)
    modifies host, browser, notes, notes.email, notes.telegram, storage
    ensures notes.Valid()
    ensures var o := Process(Package(flow), alias, period, old(storage.lastSaved), row, yearMonth, old(Observed(host, browser, notes)));
      Observed(host, browser, notes) == o.world && halt == o.halt
  {
    if period != storage.LastSaved() {
      notes.Add(Notice(flow, alias, period));
      browser.ClickDownload(host, row.pdf);
      var moved := storage.MovePdf(yearMonth);
      if !moved {
        return Some(MoveError);
      }
      storage.SetLastSaved(period);
    }
    return None;
  }

  /** The body of the `for account` loop, for one account of one section. */
  method VisitAccount(flow: Flow, account: Account, page: Page, yearMonth: string,
                      host: Host, browser: Browser, notes: Notifications) returns (halt: Option<Failure>)
    requires notes.Valid()
    modifies host, browser, notes, notes.email, notes.telegram
    ensures notes.Valid()
    ensures var o := TableAccount(Package(flow), account, page, yearMonth, old(Observed(host, browser, notes)));
      Observed(host, browser, notes) == o.world && halt == o.halt
  {
    var storage := new Storage(host, ScopeKey(flow, account.alias));
    if !page.loads {
      browser.Do(Quit);
      return Some(PageLoadError);
    }
    if page.login.Missing? {
      browser.Do(Quit);
      return Some(ElementMissing(LoginForm));
    }
    browser.Do(SignIn);
    if page.menu.Missing? {
      browser.Do(Quit);
      return Some(ElementMissing(InvoiceMenu));
    }
    browser.Do(OpenInvoices);
    var invoices := page.rows;
    if |invoices| <= 1 {
      browser.Do(Quit);
      return Some(NoInvoiceTable);
    }
    if |invoices[1].cells| <= 1 {
      // find_first_* on the row: its quit() raises, the browser stays open
      return Some(LookupCrash(PeriodCell));
    }
    var period := Strip(invoices[1].cells[1]);
    halt := Refresh(flow, account.alias, period, invoices[1], yearMonth, storage, host, browser, notes);
    if halt.Some? {
      return;
    }
    if page.logout.Missing? {
      browser.Do(Quit);
      return Some(ElementMissing(LogoutControl));
    }
    browser.Do(SignOut);
    return None;
  }

  /**
   * The `for account` loop of one section: the accounts in order, the i-th
   * one facing `pages[i]`, until the first failure.
   */
  method RunFlow(flow: Flow, accounts: seq<Account>, pages: seq<Page>, yearMonth: string,
                 host: Host, browser: Browser, notes: Notifications) returns (halt: Option<Failure>)
    requires |pages| == |accounts| && notes.Valid()
    modifies host, browser, notes, notes.email, notes.telegram
    ensures notes.Valid()
    ensures var o := TableRun(Package(flow), accounts, pages, yearMonth, old(Observed(host, browser, notes)));
      Observed(host, browser, notes) == o.world && halt == o.halt
  {
    var rev := Package(flow);
    for k := 0 to |accounts|
      invariant notes.Valid()
      invariant TableRun(rev, accounts[k..], pages[k..], yearMonth, Observed(host, browser, notes))
             == TableRun(rev, accounts, pages, yearMonth, old(Observed(host, browser, notes)))
    {
      assert accounts[k..][1..] == accounts[k + 1..] && pages[k..][1..] == pages[k + 1..];
      RunStep(rev, accounts[k..], pages[k..], yearMonth, Observed(host, browser, notes));
      halt := VisitAccount(flow, accounts[k], pages[k], yearMonth, host, browser, notes);
      if halt.Some? {
        return;
      }
    }
    return None;
  }

  /** `Domacinstva(driver, config, notifications)`: the household section for every account. */
  method RunDomacinstva(accounts: seq<Account>, pages: seq<Page>, yearMonth: string,
                        host: Host, browser: Browser, notes: Notifications) returns (halt: Option<Failure>)
    requires |pages| == |accounts| && notes.Valid()
    modifies host, browser, notes, notes.email, notes.telegram
    ensures notes.Valid()
    ensures var o := TableRun(Package(Domacinstva), accounts, pages, yearMonth, old(Observed(host, browser, notes)));
      Observed(host, browser, notes) == o.world && halt == o.halt
  {
    halt := RunFlow(Domacinstva, accounts, pages, yearMonth, host, browser, notes);
  }

  /** `MernaGrupa(driver, config, notifications)`: the metering-group section for every account. */
  method RunMernaGrupa(accounts: seq<Account>, pages: seq<Page>, yearMonth: string,
                       host: Host, browser: Browser, notes: Notifications) returns (halt: Option<Failure>)
    requires |pages| == |accounts| && notes.Valid()
    modifies host, browser, notes, notes.email, notes.telegram
    ensures notes.Valid()
    ensures var o := TableRun(Package(MernaGrupa), accounts, pages, yearMonth, old(Observed(host, browser, notes)));
      Observed(host, browser, notes) == o.world && halt == o.halt
  {
    halt := RunFlow(MernaGrupa, accounts, pages, yearMonth, host, browser, notes);
  }
}
