/**
 * The browser as the flows see it, with the lookup wrappers of
 * eracuni/browser.py: a lookup either finds its element or ends the run. A
 * miss through the driver quits the browser and exits with status 1; a miss
 * inside an element crashes with an AttributeError and leaves the browser
 * open. Also the snapshot of everything one flow run can change.
 */
module Driver {
  import opened Base
  import opened Data

  /** The outcome of one driver step: the element was found and used, or the lookup failed. */
  datatype Step = Found | Missing

  /** The page elements whose lookup can fail. */
  datatype Element =
    | LoginForm | InvoiceMenu | PeriodCell | LogoutControl                  // the table-listing portal
    | InfostanTile | LocationRow | TopBill | BillLabel | ReviewButton      // the InfoStan portal
    | DownloadIcon | CloseButton | BackButton | LogoutConfirmation

  /** Why a run stopped. Every one of them ends the process with exit status 1. */
  datatype Failure =
    | PageLoadError              // driver.get raised: the browser is quit
    | ElementMissing(what: Element) // a find_first_* lookup on the driver failed: the browser is quit
    | LookupCrash(what: Element) // a find_first_* lookup inside an element failed: the wrapper calls
                                 // quit() on the element, AttributeError escapes, the browser stays open
    | NoInvoiceTable             // the invoice table has at most its header row: the browser is quit
    | MoveError                  // shutil.move raised: uncaught, the browser stays open
    | WaitTimeout                // WebDriverWait expired: uncaught, the browser stays open

  /** The failures that end the run through an uncaught exception, without `driver.quit()`. */
  predicate LeavesBrowserOpen(f: Failure) {
    f == MoveError || f == WaitTimeout || f.LookupCrash?
  }

  /** What the browser is made to do, in the order it happens. */
  datatype Action =
    | SignIn                  // credentials typed, login button clicked
    | OpenInvoices            // the "Pregled računa" menu entry clicked
    | Download                // the download control clicked
    | SignOut                 // the logout control clicked
    | OpenInfostan            // the InfoStan tile clicked
    | SelectLocation(i: nat)  // the i-th location row clicked
    | OpenBill                // the top bill row clicked
    | OpenReview              // the "Pregled računa" button of the side panel clicked
    | CloseViewer             // the PDF viewer closed
    | Back                    // back to the location list
    | ConfirmSignOut          // the logout confirmation clicked
    | Quit                    // driver.quit()

  /** The browser: the actions performed through it so far. */
  class Browser {
    var actions: seq<Action>

    method Do(a: Action)
      modifies this
      ensures actions == old(actions) + [a]
    {
      actions := actions + [a];
    }

    /** A click on a download control: the portal delivers `stem`.pdf to the download folder. */
    method ClickDownload(host: Host, stem: string)
      modifies this, host
      ensures actions == old(actions) + [Download]
      ensures host.Snapshot() == old(host.Snapshot()).(downloads := old(host.downloads) + [stem])
    {
      actions := actions + [Download];
      host.downloads := host.downloads + [stem];
    }
  }

  /** Everything a flow run can change: the machine, the notification lines and the browser's actions. */
  datatype World = World(machine: Machine, lines: seq<string>, actions: seq<Action>)

  /** The world after a run, and the failure that stopped it, if any. */
  datatype Outcome = Outcome(world: World, halt: Option<Failure>)

  /** The last thing the browser was made to do was `a`. */
  predicate LastAction(w: World, a: Action) {
    |w.actions| > 0 && w.actions[|w.actions| - 1] == a
  }

  function Act(w: World, a: Action): World {
    w.(actions := w.actions + [a])
  }

  /** A failed page load or driver-level lookup: the browser is quit and the process exits with status 1. */
  function Fail(w: World, f: Failure): Outcome {
    Outcome(Act(w, Quit), Some(f))
  }

  /** Where a `find_first_*` lookup searches: the page, through the driver, or inside an element found before. */
  datatype Holder = InDriver | InElement

  /**
   * A `find_first_*` lookup that finds nothing, as the wrappers of
   * eracuni/browser.py (and their copies in main.py) handle it: they call
   * `quit()` on what they were given. On the driver that quits the browser
   * and exits with status 1; an element has no `quit`, so an AttributeError
   * escapes with nothing done and the browser left open.
   */
  function Missed(w: World, holder: Holder, what: Element): (o: Outcome)
    ensures o.halt.Some? && (o.halt.value.ElementMissing? || o.halt.value.LookupCrash?)
    ensures LeavesBrowserOpen(o.halt.value) <==> holder == InElement
  {
    match holder
    case InDriver => Fail(w, ElementMissing(what))
    case InElement => Outcome(w, Some(LookupCrash(what)))
  }

  /** A miss inside an element, as written: no action at all, the browser is not quit. */
  lemma MissedInElementKeepsBrowser(w: World, what: Element)
    ensures Missed(w, InElement, what).world == w
    ensures Missed(w, InElement, what) != Missed(w, InDriver, what)
  {
  }

  /** The miss the wrappers' documentation promises: quit the browser and exit with status 1, wherever the lookup searched. */
  function MissedIntended(w: World, holder: Holder, what: Element): (o: Outcome)
    ensures o.halt == Some(ElementMissing(what)) && !LeavesBrowserOpen(o.halt.value)
  {
    Fail(w, ElementMissing(what))
  }

  /** With the intended handling every miss quits the browser as its last action, and agrees with the driver-level miss. */
  lemma MissedIntendedQuits(w: World, holder: Holder, what: Element)
    ensures var o := MissedIntended(w, holder, what);
      o.world.actions == w.actions + [Quit] && o == Missed(w, InDriver, what)
  {
  }

  /** The portal's download control: the action and the delivered file. */
  function Downloaded(w: World, stem: string): World {
    Act(w, Download).(machine := w.machine.(downloads := w.machine.downloads + [stem]))
  }

  /** A line on standard output. */
  function Printed(w: World, line: string): World {
    w.(machine := w.machine.(stdout := w.machine.stdout + [line]))
  }

  /** The world as seen by a run that keeps no notifications: the machine and the browser's actions. */
  function View(host: Host, browser: Browser): World
    reads host, browser
  {
    World(host.Snapshot(), [], browser.actions)
  }
}
