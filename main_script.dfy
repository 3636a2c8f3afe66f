/**
 * main.py, the single-file revision of the scraper: its own account filter,
 * its own watermark store (`data/storage_{alias}.yaml`, key `last_period`),
 * `move_and_rename_pdf` and the `main()` loop, which runs the table protocol
 * of `Table` with a printed line instead of a notification and quits the
 * browser once every account is done.
 */
module MainScript {
  import opened Base
  import opened Text
  import Data
  import opened Driver
  import opened Table

  /**
   * The loop of main.py's `Config.__init__`. It computes the alias before it
   * checks the user id, the reverse of eracuni/data.py, with the same result.
   */
  method CollectAccounts(entries: seq<Data.Entry>) returns (accounts: seq<Data.Account>)
    ensures accounts == Data.Accounts(entries)
  {
    accounts := [];
    for k := 0 to |entries|
      invariant accounts == Data.Accounts(entries[..k])
    {
      assert entries[..k + 1][..k] == entries[..k];
      var user := entries[k];
      var userId := Strip(user.userId);
      var password := user.password;
      var alias := Strip(user.alias);
      if alias == "None" {
        alias := userId;
      }
      if userId != "None" {
        accounts := accounts + [Data.Account(userId, password, alias)];
      }
    }
    assert entries[..|entries|] == entries;
  }

  /** main.py's `Config`: one account list. The URL and the browser settings are not modelled. */
  class Config {
    var accounts: seq<Data.Account>

    constructor (entries: seq<Data.Entry>)
      ensures accounts == Data.Accounts(entries)
    {
      var collected := CollectAccounts(entries);
      accounts := collected;
    }
  }

  /** main.py's `Storage`: the `period` of one alias, loaded when the object is made. */
  class Storage {
    const yamlPath: string
    const host: Data.Host
    var period: string

    /** The kept period is always stripped, whether it was loaded or set. */
    ghost predicate Valid()
      reads this
    {
      Trimmed(period)
    }

    /** Reads `data/storage_{alias}.yaml`; "none" when the file does not exist. */
    constructor (host: Data.Host, alias: string)
      ensures Valid()
      ensures this.host == host && yamlPath == WatermarkPath(Script, alias)
      ensures period == Data.Load(host.state, WatermarkPath(Script, alias))
    {
      this.host := host;
      yamlPath := WatermarkPath(Script, alias);
      period := Data.Load(host.state, WatermarkPath(Script, alias));
      Data.LoadTrimmed(host.state, WatermarkPath(Script, alias));
    }

    /** The `period` getter: a value with no surrounding whitespace. */
    function Period(): (r: string)
      requires Valid()
      reads this
      ensures Trimmed(r)
    {
      period
    }

    /** The `period` setter: keeps the stripped period and writes it to the alias's file. */
    method SetPeriod(lastPeriod: string)
      modifies this, host
      ensures Valid() && period == Strip(lastPeriod)
      ensures host.Snapshot() == old(host.Snapshot()).(state := Data.Save(old(host.state), yamlPath, lastPeriod))
    {
      period := Strip(lastPeriod);
      StripTrimmed(lastPeriod);
      host.state := host.state[yamlPath := period];
    }
  }

  /** `move_and_rename_pdf(alias)`: archives every download under the bare alias. */
  method MoveAndRenamePdf(host: Data.Host, alias: string, yearMonth: string) returns (ok: bool)
    modifies host
    ensures ok == Data.MovePdfs(old(host.Snapshot()), alias, yearMonth).Some?
    ensures host.Snapshot() == if ok then Data.MovePdfs(old(host.Snapshot()), alias, yearMonth).value else old(host.Snapshot())
  {
    ok := Data.MoveDownloads(host, alias, yearMonth);
  }

  /** The whole of `main()` after the configuration is read: the table protocol for every account, then `driver.quit()`. */
  function ScriptRun(accounts: seq<Data.Account>, pages: seq<Page>, yearMonth: string, w: World): (o: Outcome)
    requires |pages| == |accounts|
    ensures o.halt.None? ==> LastAction(o.world, Quit)
  {
    var o := TableRun(Script, accounts, pages, yearMonth, w);
    if o.halt.Some? then o else Outcome(Act(o.world, Quit), None)
  }

  /**
   * However a run of main.py ends, the browser has been quit, except when an
   * uncaught exception (a failed move, a lookup inside the invoice row)
   * ended it.
   */
  lemma {:induction false} ScriptRunQuits(accounts: seq<Data.Account>, pages: seq<Page>, yearMonth: string, w: World)
    requires |pages| == |accounts|
    ensures var o := ScriptRun(accounts, pages, yearMonth, w);
      o.halt.None? || !LeavesBrowserOpen(o.halt.value) ==> LastAction(o.world, Quit)
    ensures ScriptRun(accounts, pages, yearMonth, w).world.lines == w.lines
  {
    var o := TableRun(Script, accounts, pages, yearMonth, w);
    RunQuitsOnFailure(Script, accounts, pages, yearMonth, w);
    ScriptRunKeepsLines(accounts, pages, yearMonth, w);
    if o.halt.None? {
      var acts := o.world.actions + [Quit];
      assert acts[|acts| - 1] == Quit;
    }
  }

  /** The body of the `for account` loop of `main()`. */
  method VisitAccount(account: Data.Account, page: Page, yearMonth: string, host: Data.Host, browser: Browser)
    returns (halt: Option<Failure>)
    modifies host, browser
    ensures var o := TableAccount(Script, account, page, yearMonth, old(View(host, browser)));
      View(host, browser) == o.world && halt == o.halt
  {
    var storage := new Storage(host, account.alias);
    if !page.loads {
      browser.Do(Quit);
      return Some(PageLoadError);
    }
    if page.login.Missing? {
      browser.Do(Quit);
      return Some(ElementMissing(LoginForm));
    }
    browser.Do(SignIn);
    if page.menu.Missing? {
      browser.Do(Quit);
      return Some(ElementMissing(InvoiceMenu));
    }
    browser.Do(OpenInvoices);
    var invoices := page.rows;
    if |invoices| <= 1 {
      browser.Do(Quit);
      return Some(NoInvoiceTable);
    }
    if |invoices[1].cells| <= 1 {
      // find_first_* on the row: its quit() raises, the browser stays open
      return Some(LookupCrash(PeriodCell));
    }
    var period := Strip(invoices[1].cells[1]);
    if period != storage.Period() {
      host.Print(account.alias + " - " + period);
      browser.ClickDownload(host, invoices[1].pdf);
      var moved := MoveAndRenamePdf(host, account.alias, yearMonth);
      if !moved {
        return Some(MoveError);
      }
      storage.SetPeriod(period);
    }
    if page.logout.Missing? {
      browser.Do(Quit);
      return Some(ElementMissing(LogoutControl));
    }
    browser.Do(SignOut);
    return None;
  }

  /** `main()`: every account in order, each facing its page, then the browser is quit. */
  method RunScript(config: Config, pages: seq<Page>, yearMonth: string, host: Data.Host, browser: Browser)
    returns (halt: Option<Failure>)
    requires |pages| == |config.accounts|
    modifies host, browser
    ensures var o := ScriptRun(config.accounts, pages, yearMonth, old(View(host, browser)));
      View(host, browser) == o.world && halt == o.halt
  {
    var accounts := config.accounts;
    for k := 0 to |accounts|
      invariant TableRun(Script, accounts[k..], pages[k..], yearMonth, View(host, browser))
             == TableRun(Script, accounts, pages, yearMonth, old(View(host, browser)))
    {
      assert accounts[k..][1..] == accounts[k + 1..] && pages[k..][1..] == pages[k + 1..];
      RunStep(Script, accounts[k..], pages[k..], yearMonth, View(host, browser));
      halt := VisitAccount(accounts[k], pages[k], yearMonth, host, browser);
      if halt.Some? {
        return;
      }
    }
    browser.Do(Quit);
    return None;
  }
}
