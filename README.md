# eracuni — a Dafny model of the bill scraper's core

eracuni signs in to two utility portals on behalf of a list of accounts and
looks for a newly published bill. The first is the EPS electricity portal
("EDB"), which has a household section (Domaćinstva) and a metering-group
section (Merna grupa). The second is the InfoStan municipal billing portal.
When EDB shows a bill period that differs from the account's stored
watermark, the scraper:

1. announces the new period;
2. downloads the bill;
3. archives every downloaded PDF as `pdf/{infix}_{YYYY-MM}_{stem}.pdf`;
4. only then writes the new watermark.

The announcement is a notification queued for e-mail and Telegram. In the
older single-file revision, main.py, it is a line on standard output
instead. InfoStan downloads the newest bill of every location of every
account.

This project models:

- the account filter of the configuration;
- the watermark store and the archive;
- the geckodriver path;
- the per-account protocol of eracuni/edb.py and of `main()` in main.py;
- the location loop of eracuni/infostan.py;
- the notification buffers of eracuni/messages.py.

It then proves properties of them.

## Structure

- `base.dfy` — `Option` and `Result`.
- `text.dfy` — `Text`: the Python string built-ins the core uses:
  - `str.strip()`, with Python's exact whitespace set;
  - `str.lower()`, for the letters a Serbian bill label can hold;
  - the decimal rendering of a natural number.
- `data.dfy` — `Data`, from eracuni/data.py:
  - the `Account` datatype and the account filter (a function and its loop);
  - `Config`;
  - `gecko_path`;
  - the machine the scraper runs on (`Machine` values and the `Host` object);
  - the watermark store (`Storage`);
  - `move_pdf`.
- `driver.dfy` — `Driver`: the browser as the flows use it.
  - Every element lookup either succeeds (`Found`) or fails (`Missing`).
  - A failed lookup on the driver quits the browser and exits with status 1,
    as the `find_first_*` wrappers of eracuni/browser.py do.
  - A failed lookup inside an element found before (row 1 of the invoice
    table, the top bill row of InfoStan) crashes instead: the wrappers call
    `quit()` on that element, and the AttributeError leaves the browser open.
  - A `World` holds everything a run can change.
- `table.dfy` — `Table`: the table-listing protocol shared by eracuni/edb.py
  and main.py, as pure functions over a `World`.
  - `TableAccount` is one account and `TableRun` is the account loop.
  - The lemmas state what one step and a whole run do.
- `edb.py` is modelled in `edb.dfy` (`Edb`): the two section loops, step by
  step over the `Host`, `Browser` and `Notifications` objects. Each is proved
  to have exactly the effect `TableAccount` / `TableRun` gives it.
- `main_script.dfy` — `MainScript`, from main.py:
  - its own account filter;
  - its own watermark store (`data/storage_{alias}.yaml`, key `last_period`);
  - `move_and_rename_pdf`;
  - the `main()` loop, proved against `TableRun` followed by `driver.quit()`.
- `infostan.dfy` — `Infostan`, from eracuni/infostan.py:
  - the location loop as functions and as methods;
  - the proofs that every location downloads and that no watermark is touched.
- `messages.dfy` — `Messages`, from eracuni/messages.py:
  - the `Mail`, `Telegram` and `Notifications` buffers;
  - `send` as a function of the buffers and of whether each transport is up.

Pages are data. A table page states whether it loads, whether each control
is found, and the rows of the invoice table. An InfoStan page states the same
for every step of every location. The current month (`date.today()`) is a
parameter.

### Behaviour worth knowing

- `move_pdf` / `move_and_rename_pdf` move every PDF in the download folder,
  not only the newest one.
- In the table protocol, the announcement comes first. It is followed by the
  download click, the archive, and only then the watermark write.
- `Notifications.add` does not echo to standard output. Only main.py prints
  its `{alias} - {period}` line, and it prints instead of notifying.
- The e-mail and Telegram sends are not isolated from each other:
  - `SMTP_SSL` is opened outside the `try` in `Mail.send`;
  - `Telegram.send` has no handler at all.

  A failed SMTP connection therefore stops `Notifications.send` before
  Telegram is tried (`Messages.MailFailureSkipsTelegram`).
- Not every failure quits the browser:
  - a failing `shutil.move` is uncaught;
  - an expiring `WebDriverWait` is uncaught;
  - a lookup inside an element that finds nothing (the period cell of row 1
    at eracuni/edb.py:47 and main.py:260, the bill label link at
    eracuni/infostan.py:54) calls `quit()` on the element, which raises
    AttributeError.

  All three end the run with the browser left open (`MoveError`,
  `WaitTimeout`, `LookupCrash`).
- This revision of eracuni/infostan.py builds a `Storage` for
  `infostan_{alias}_{i}`, whose constructor loads the file, but never
  consults or writes its watermark. Every location downloads, and the
  downloads are never archived.

## Model

| member | source | states |
|---|---|---|
| Data.Accounts | eracuni/data.py:82-90 | the filter yields at most one account per configuration entry |
| Data.AccountsWellFormed | eracuni/data.py:84-89 | every account built has a user id other than "None" and an alias other than "None", both free of surrounding whitespace |
| Data.AccountsAppend | eracuni/data.py:83-90 | the filter works entry by entry: the accounts of `a + b` are those of `a` followed by those of `b`, so relative order is kept |
| Data.AccountsSingle | eracuni/data.py:84-90 | a single entry yields its account exactly when its stripped user id is not "None", and nothing otherwise |
| Data.AccountsComplete | eracuni/data.py:84-90 | every entry whose stripped user id is not "None" contributes its account (stripped id, stripped alias or the id in place of a "None" alias) |
| Data.AccountsSound | eracuni/data.py:83-90 | every account comes from some kept entry |
| Data.AccountsAllKept | eracuni/data.py:73-90 | there is no limit on the number of accounts: when every entry is kept, the i-th account is the i-th entry's |
| Data.CollectAccounts | eracuni/data.py:82-90 | the imperative filter loop returns exactly `Accounts(entries)` |
| Data.Config.constructor | eracuni/data.py:77-118 | the EDB and InfoStan account lists are the filtered entry lists; the two notification switches are kept |
| Data.GeckoPath | eracuni/data.py:120-146 | a binary path exists exactly for Linux/x86_64, Linux/armv7l, Windows and Darwin; anything else is the fatal "Unknown OS" exit |
| Data.GeckoPathShape | eracuni/data.py:127-140 | every binary lies under `bin/`, and it is a `.exe` exactly on Windows |
| Data.GeckoPathsDistinct | eracuni/data.py:127-140 | two platforms that get the same binary are the same system, and the same machine on Linux |
| Data.Host.Print | main.py:268 | printing appends the line to standard output and changes nothing else |
| Data.StoragePathInjective | eracuni/data.py:161 | different scopes have different `var/storage_{infix}.yaml` files |
| Data.Load | eracuni/data.py:162-167 | a watermark whose file is absent reads as "none" |
| Data.LoadTrimmed | eracuni/data.py:165 | a loaded watermark never begins or ends with whitespace |
| Data.Save | eracuni/data.py:173-183 | writing a watermark creates or overwrites exactly its own file; every other file keeps its content |
| Data.SaveThenLoad | eracuni/data.py:173-183 | a saved period reads back stripped; saving the same period twice equals saving it once; no other file's watermark changes |
| Data.ArchiveNameInjective | eracuni/data.py:192 | within one scope and month, different downloads get different archived names |
| Data.ArchiveName | eracuni/data.py:192 | an archived name lies in the pdf folder (`pdf/`) and ends in `.pdf`, around the download's own stem |
| Data.MovePdfs | eracuni/data.py:185-193 | the move succeeds exactly when there is nothing to move or the pdf folder exists; a successful move keeps the watermarks, the printed output and every earlier archive |
| Data.MovePdfsArchivesAll | eracuni/data.py:185-193 | after a successful move the download folder is empty, every download (not only the newest) is in the pdf folder under its own archived name, earlier archives stay and no watermark moves |
| Data.MoveDownloads | eracuni/data.py:191-193 | the move loop fails exactly when there is something to move and no pdf folder, then changing nothing; otherwise it leaves the machine `MovePdfs` describes |
| Data.Storage.constructor | eracuni/data.py:155-167 | the store reads its scope's file: the stripped stored value, or "none" when there is no file |
| Data.Storage.LastSaved | eracuni/data.py:169-171 | the getter returns a watermark with no whitespace at either end, whether it was loaded or set (the store's invariant `Valid`, kept by the constructor and the setter) |
| Data.Storage.SetLastSaved | eracuni/data.py:173-183 | the setter keeps the stripped period and writes it to its own file, and to no other file |
| Data.Storage.MovePdf | eracuni/data.py:185-193 | `move_pdf` archives every download under the store's infix, as `MovePdfs` |
| Driver.Browser.ClickDownload | eracuni/edb.py:58-59 | a click on the download cell records the click and delivers that bill's PDF to the download folder |
| Driver.Missed | eracuni/browser.py:28-40 | a lookup that finds nothing ends the run; it leaves the browser open (`LookupCrash`) exactly when it searched inside an element, and quits it when it searched through the driver |
| Driver.MissedInElementKeepsBrowser | eracuni/browser.py:37-40 | a miss inside an element, as written, takes no action at all, so the browser is never quit, unlike a miss on the driver |
| Driver.MissedIntended | eracuni/browser.py:29-33 | corrected: a miss reports the missing element and never leaves the browser open, wherever the lookup searched |
| Driver.MissedIntendedQuits | eracuni/browser.py:29-33 | corrected: every miss quits the browser as its last action, exactly as a miss on the driver does |
| Edb.VisitAccount | eracuni/edb.py:18-67 | one pass of the account loop leaves the machine, the notification lines and the browser exactly as `TableAccount` says, and stops exactly when it does (a row 1 without a period cell crashes with the browser open); both buffers stay equal |
| Edb.Refresh | eracuni/edb.py:54-63 | the `if period != storage.last_saved` block has exactly the effect of `Process`: nothing when the period equals the watermark, otherwise announce, download, archive and only then record |
| Edb.RunFlow | eracuni/edb.py:18-67 | the account loop of one section has exactly the effect of `TableRun`, stopping at the first failure |
| Edb.RunDomacinstva | eracuni/edb.py:12-67 | `Domacinstva(...)` is the household section's run of `TableRun` (scope `edb_dom_{alias}`, notice `EDB Domaćinstva`) |
| Edb.RunMernaGrupa | eracuni/edb.py:70-125 | `MernaGrupa(...)` is the metering-group section's run of `TableRun` (scope `edb_mg_{alias}`, notice `EDB Merna grupa`) |
| Infostan.InfostanKeyInjective | eracuni/infostan.py:45 | for one alias, different locations get different `infostan_{alias}_{i}` scopes |
| Infostan.InfostanKeyNotEdb | eracuni/infostan.py:45 | no InfoStan scope is an EDB scope |
| Infostan.InfostanKey | eracuni/infostan.py:45 | the scope of a location begins `infostan_` followed by the account's alias |
| Infostan.TrailVisitsInOrder | eracuni/infostan.py:43-50 | the location loop takes six actions per location, the k-th group selecting location `i + k`: locations 1..N in order |
| Infostan.LocationsKeepFiles | eracuni/infostan.py:43-79 | however the location loop ends, no watermark, no archived PDF and no notification changes |
| Infostan.LocationsFrom | eracuni/infostan.py:43-79 | the location loop, locations `i`, `i + 1`, … in order, stopping at the first failure; it gets through exactly when every location passes every lookup and wait |
| Infostan.PassingStep | eracuni/infostan.py:48-77 | a location that passes selects, opens, reviews, downloads, closes and goes back, printing its bill label unstripped and downloading its bill |
| Infostan.LocationStep | eracuni/infostan.py:47-77 | one location gets through exactly when it passes every lookup and the wait |
| Infostan.LocationsAllDownload | eracuni/infostan.py:43-79 | when every location passes, every location's bill is downloaded and its label printed, in order, whatever the watermarks hold |
| Infostan.LocationsQuitOnFailure | eracuni/infostan.py:48-77 | a failure of the location loop has quit the browser unless it leaves it open, and only an expired wait or a missing bill label link (a lookup inside the top row) leaves it open |
| Infostan.AccountQuitsOnFailure | eracuni/infostan.py:22-85 | a page that does not load is fatal with nothing done but the quit; every other failure has quit the browser, except an expired wait and a missing bill label link, which leave it open |
| Infostan.AccountVisitsEveryLocation | eracuni/infostan.py:20-87 | an account that gets through signs in, opens the tile, visits locations 1..N in order, and then signs out and confirms once; every bill is downloaded and "End of program" printed last |
| Infostan.InfostanAccount | eracuni/infostan.py:20-87 | an account that gets through ends with the confirmed sign-out, and "End of program" is the last printed line |
| Infostan.InfostanRun | eracuni/infostan.py:20-87 | a run over at least one account that gets through prints "End of program" last |
| Infostan.RunKeepsWatermarks | eracuni/infostan.py:20-87 | a whole InfoStan run never changes a watermark, the pdf folder or the notifications |
| Infostan.VisitLocation | eracuni/infostan.py:44-79 | one pass of the location loop has exactly the effect of `LocationStep`: a missing top row quits, a missing label link inside it crashes with the browser open |
| Infostan.VisitAccount | eracuni/infostan.py:20-87 | the account body, with the loop `for i in range(1, N + 1)`, has exactly the effect of `InfostanAccount` |
| Infostan.RunInfostan | eracuni/infostan.py:15-87 | `Infostan(driver, config)` has exactly the effect of `InfostanRun` over the InfoStan accounts |
| MainScript.CollectAccounts | main.py:67-75 | main.py's filter loop, which computes the alias before testing the id, returns the same accounts as eracuni/data.py's |
| MainScript.Config.constructor | main.py:64-78 | the account list is the filtered entry list |
| MainScript.Storage.constructor | main.py:87-98 | the store reads `data/storage_{alias}.yaml`: the stripped stored period, or "none" when there is no file |
| MainScript.Storage.Period | main.py:100-102 | the getter returns a period with no whitespace at either end, whether it was loaded or set (the store's invariant `Valid`) |
| MainScript.Storage.SetPeriod | main.py:104-112 | the setter keeps the stripped period and writes it to the alias's file only |
| MainScript.MoveAndRenamePdf | main.py:212-220 | every download is archived as `pdf/{alias}_{YYYY-MM}_{stem}.pdf`; the move fails exactly when there is something to move and no pdf folder |
| MainScript.ScriptRunQuits | main.py:230-282 | however `main()` ends, except through a failed move or a missing period cell, the browser's last action is the quit; main.py never notifies |
| MainScript.VisitAccount | main.py:230-279 | one pass of `main()`'s account loop has exactly the effect of `TableAccount` for main.py, the crash on a missing period cell (main.py:260) included |
| MainScript.RunScript | main.py:223-282 | `main()` has exactly the effect of `TableRun` for main.py, followed by `driver.quit()` when no account failed |
| MainScript.ScriptRun | main.py:223-282 | a `main()` that gets through every account ends with `driver.quit()` |
| Messages.JoinedAppend | eracuni/messages.py:36-37 | repeated `add`s keep every line, in order: the buffer of `a + b` is the buffer of `a` followed by that of `b` |
| Messages.JoinedEmpty | eracuni/messages.py:40 | a buffer is empty exactly when no line was added, even an empty one |
| Messages.FlushNothingAdded | eracuni/messages.py:21-23 | with nothing added, `send` contacts no transport and raises nothing |
| Messages.FlushSendsAll | eracuni/messages.py:21-23 | with something added and both transports up, each enabled transport gets the whole buffer once, the e-mail first |
| Messages.Flush | eracuni/messages.py:21-23 | `send` makes at most one attempt per transport, each carrying the whole buffer; an exception escapes only after some attempt was made |
| Messages.MailFailureSkipsTelegram | eracuni/messages.py:39-49 | when the SMTP connection cannot be opened, the exception leaves `send` and Telegram is never tried |
| Messages.Mail.constructor | eracuni/messages.py:27-34 | the e-mail buffer starts empty, with the configured switch |
| Messages.Mail.Add | eracuni/messages.py:36-37 | `add(text)` appends the text and a newline |
| Messages.Mail.Send | eracuni/messages.py:39-49 | one SMTP session with the whole buffer exactly when enabled and not empty; the buffer is not cleared |
| Messages.Telegram.constructor | eracuni/messages.py:56-60 | the Telegram buffer starts empty, with the configured switch |
| Messages.Telegram.Add | eracuni/messages.py:62-63 | `add(text)` appends the text and a newline |
| Messages.Telegram.Send | eracuni/messages.py:65-69 | one bot API request with the whole buffer exactly when enabled and not empty; the buffer is not cleared |
| Messages.Notifications.constructor | eracuni/messages.py:12-15 | both buffers start empty and equal |
| Messages.Notifications.Add | eracuni/messages.py:17-19 | the same line goes to both buffers, which keep holding the same text: every line added so far, in order |
| Messages.Notifications.Send | eracuni/messages.py:21-23 | the e-mail send and then the Telegram send, with the attempts and the escaping exception `Flush` gives |
| Table.ScopeKeysDisjoint | eracuni/edb.py:19 | the `edb_dom_` and `edb_mg_` scopes never coincide, whatever the aliases |
| Table.ScopeKey | eracuni/edb.py:19 | the scope key of an account ends with its alias (`edb_dom_{alias}`, `edb_mg_{alias}` at eracuni/edb.py:77) |
| Table.Notice | eracuni/edb.py:56 | the notice ends with the period in lower case (the same form at eracuni/edb.py:114) |
| Table.Announce | eracuni/edb.py:56 | the new period is announced by exactly one line, a notice in eracuni/edb.py or a printed line in main.py (main.py:268), and nothing else changes |
| Table.WatermarkPathsDisjoint | main.py:92 | the two EDB sections and main.py never share a watermark file |
| Table.DetectPeriod | eracuni/edb.py:42-51 | a period is found exactly when the table has a row after the header and that row has a second cell; a table with at most its header row is `NoInvoiceTable`; a row 1 without a second cell is the lookup crash; the period comes from row 1, cell 2 |
| Table.DetectPeriodStripped | eracuni/edb.py:47 | the period is that cell's text with no whitespace left at either end, and only whitespace was removed |
| Table.MissingPeriodCellCrashes | eracuni/edb.py:45-47 | a row 1 without a second cell crashes the run right after the sign-in and the menu click, with the browser left open and nothing else changed |
| Table.Enter | eracuni/edb.py:21-39 | loading, signing in and opening the invoice menu gets through exactly when the page loads and the login form and the menu are found, and then takes exactly those two actions; any failure there quits the browser; no file or notification changes |
| Table.Process | eracuni/edb.py:54-63 | a period equal to the watermark changes nothing; a new one adds exactly the download click and can fail only in the move |
| Table.Leave | eracuni/edb.py:65-67 | signing out gets through exactly when the logout control is found, ending with the sign-out, otherwise with the quit; no file or notification changes |
| Table.MalformedTableIsFatal | eracuni/edb.py:45-51 | a table with at most its header row quits the browser and stops the run, with no file, download or notification changed |
| Table.Fetch | eracuni/edb.py:56-63 | announcing and fetching a new period can fail only in the move, which then writes no watermark and archives nothing; a fetch that gets through empties the download folder and writes exactly the account's watermark file |
| Table.TableAccount | eracuni/edb.py:18-67 | an account that gets through had a table with a period cell and a logout control, and signed out last |
| Table.TableRun | eracuni/edb.py:18-67 | a loop over at least one account that gets through signs out last |
| Table.NoPeriodNoChange | eracuni/edb.py:21-51 | any failure before a period is read leaves the machine and the notifications as they were; it has quit the browser, except a missing period cell, which crashes right after the sign-in and the menu click |
| Table.SeenPeriodIsNoop | eracuni/edb.py:54-67 | a period equal to the watermark: no notification, no download, no archive, no watermark write, then sign-out |
| Table.NewPeriodIsFetched | eracuni/edb.py:54-67 | a new period: the notice is added (or, in main.py, the line printed), the bill downloaded, every download archived, the watermark set to the period, and the account signed out |
| Table.MoveFailureKeepsWatermark | eracuni/edb.py:54-63 | when the move raises, the bill is announced (the notice, or main.py's printed line) and downloaded but not archived, the watermark is not written and the browser is left open |
| Table.WatermarkAfterArchive | eracuni/edb.py:58-63 | whenever a step changes a watermark, every download, the new bill's included, has already been archived; a failed move writes no watermark |
| Table.WatermarkIsPeriod | eracuni/edb.py:54-63 | after a step that does not fail, the account's watermark holds the period the page shows |
| Table.StepIdempotent | eracuni/edb.py:54-63 | a second step on the same page announces nothing, downloads nothing and changes no file |
| Table.AccountEnds | eracuni/edb.py:21-67 | a failure other than a failed move or a missing period cell has quit the browser; a step that does not fail ends with the sign-out; main.py never notifies |
| Table.RunQuitsOnFailure | eracuni/edb.py:18-67 | an account loop that fails other than in a move or on a missing period cell has quit the browser |
| Table.ScriptRunKeepsLines | main.py:230-279 | main.py's account loop never adds a notification |
| Table.WatermarkPathInjective | eracuni/data.py:161 | within one revision, different aliases have different watermark files |
| Table.AccountKeepsOtherWatermarks | eracuni/edb.py:54-63 | a step changes no watermark but its own account's |
| Table.RunKeepsOtherWatermarks | eracuni/edb.py:18-67 | the account loop changes no watermark outside its own accounts' |
| Table.RunSetsWatermarks | eracuni/edb.py:18-67 | after a run that does not fail, with distinct aliases, every account's watermark holds its page's period |
| Table.RunOnSeenPeriodsIsNoop | eracuni/edb.py:18-67 | a run whose watermarks already hold the pages' periods announces nothing, downloads nothing and changes no file |
| Table.RunTwiceIsNoop | eracuni/edb.py:18-67 | with distinct aliases, a second run over the same pages announces, downloads and changes nothing: each new bill is fetched once |
| Text.StripTrimmed | eracuni/data.py:84 | `strip()` leaves no whitespace at either end |
| Text.StripPadded | eracuni/data.py:84 | `strip()` removes only whitespace, and only from the two ends |
| Text.StripIdempotent | eracuni/data.py:179 | stripping twice is stripping once |
| Text.Strip | eracuni/data.py:84 | `strip()` never lengthens its argument |
| Text.Lower | eracuni/edb.py:56 | `lower()` keeps the length of the period |
| Text.NatToString | eracuni/infostan.py:45 | a location number renders as one or more decimal digits |
| Text.NatToStringInjective | eracuni/infostan.py:45 | different location numbers render differently |

## Findings

| source | as written | input that shows it | evidently intended | confidence | as-written member | corrected member |
|---|---|---|---|---|---|---|
| eracuni/browser.py:28-40 | on a miss, `find_first_css` calls `quit()` on the object it was given; at eracuni/edb.py:47 and eracuni/infostan.py:54 that is a WebElement, so an AttributeError escapes and the browser is never quit | an invoice table whose row 1 has one cell; an InfoStan top row without a `.rowItemName > a` link | report the miss, quit the browser and exit with status 1, as the docstring says | not executed | Driver.MissedInElementKeepsBrowser | Driver.MissedIntendedQuits |
| main.py:130-142 | the same wrapper, called on row 1 of the invoice table at main.py:260 | an invoice table whose row 1 has one cell | quit the browser and exit with status 1 | not executed | Table.MissingPeriodCellCrashes | Driver.MissedIntended |

The flows keep the behaviour as written (`Driver.Missed` with `InElement`),
because that is what the code does; `Driver.MissedIntended` is the handling
the wrappers document. The correction is stated per lookup only: no flow is
restated with it, so there is no corrected `TableAccount` or `LocationStep`.

## Left out

- Selenium and the browser start-up of eracuni/browser.py and main.py (`start`, `start_browser`, the Firefox profile) are not modelled. The browser is the log of its actions. Each lookup is an abstract `Found` / `Missing` outcome, handled as the wrappers handle it: a miss on the driver quits the browser and exits with status 1, a miss inside an element raises AttributeError with the browser open (`Driver.Missed`).
- The row-1 `td:last-child` lookup of the download cell is not modelled as able to fail. Once the second cell of row 1 has been found, a last cell exists.
- eracuni/email.py and eracuni/telegram.py are not part of this model. They are superseded transport stubs.
- The SMTP and HTTP exchanges of `Mail.send` / `Telegram.send` are not modelled. A send is an attempt recorded in an `Outbox`, with whether the transport was up as a parameter. The "email sent!" / "could not login" prints are not modelled either.
- The stderr messages and the exit status are not modelled. Every `Failure` stands for the exit with status 1.
- YAML parsing and file-existence checks are not modelled. The watermark files are a map from path to stored text, and a file with no `last_saved` key is not modelled.
- `date.today()` is not modelled. The month is the `yearMonth` parameter.
- `time.sleep` is left out.
- `WebDriverWait` is a boolean of the location (`loads`). When it is false, the wait expires.
- The download click is synchronous: the file is in the download folder before `move_pdf` runs. The real download may still be in progress.
- `shutil.move` and the glob are not modelled as such. The download folder is a sequence of PDF stems and the pdf folder a set of paths. Only the missing-pdf-folder failure is modelled, and it fails on the first file, so nothing moves. Other failures (permissions, a full disk) are not modelled.
- Where downloads land is not modelled. browser.py sends them to `data/` while `move_pdf` globs `var/`. The model has one download folder.
- eracuni/edb.py imports `find_first_by_id` / `find_first_by_css` / `find_all_by_css`, which browser.py does not define, and reads `config.edb_domacinstva_*` / `edb_merna_grupa_*` fields that `Config` does not set. These do not resolve, so the account list and the page of each account are parameters of `Edb.RunDomacinstva` and `Edb.RunMernaGrupa`.
- main.py's `gecko_path` and its `find_first_*` helpers are textual copies of eracuni/data.py's and eracuni/browser.py's, and are modelled once (`Data.GeckoPath`, the `Step` outcomes).
- URLs, credentials, `headless`, `user_agent` and `timeout` are not part of `Config` in the model. The typing of user ids and passwords into the login form is folded into the `SignIn` action.
- The `Account` datatype stores the user id, password and alias exactly as given to it. Its constructor is Dafny's, so it has no member of its own.
- Table.RunSetsWatermarks, Table.RunTwiceIsNoop: these require distinct aliases. Two accounts with the same alias share one watermark file in eracuni/edb.py, and then the later account's period wins.
- Text.Lower: `str.lower()` is modelled for ASCII, Latin-1, the Serbian Latin letters and the Cyrillic block U+0400..U+042F only. Any other character is returned unchanged.
