/**
 * eracuni/data.py: accounts and their filtering, the geckodriver path, the
 * per-scope watermark store (`Storage`) and the relocation of downloaded PDFs.
 *
 * The file system is a `Machine` value (the watermark files, the download
 * folder, the pdf folder and standard output), held in place by a `Host`.
 */
module Data {
  import opened Base
  import opened Text

  // ---------------------------------------------------------------------------
  // Accounts

  /** One configured login (`Account`): the three fields exactly as given. */
  datatype Account = Account(userId: string, password: string, alias: string)

  /**
   * One entry of an account list in config.yaml, each field already passed
   * through Python's `str()`, so that an empty YAML field reads "None".
   */
  datatype Entry = Entry(userId: string, password: string, alias: string)

  /** An entry yields an account unless its stripped user id is "None". */
  predicate Kept(e: Entry) {
    Strip(e.userId) != "None"
  }

  /** The account a kept entry yields: stripped id and alias, the id standing in for a "None" alias. */
  function AccountOf(e: Entry): Account {
    var userId := Strip(e.userId);
    var alias := Strip(e.alias);
    Account(userId, e.password, if alias == "None" then userId else alias)
  }

  /** What every account built from the configuration satisfies. */
  predicate WellFormed(a: Account) {
    && a.userId != "None" && Trimmed(a.userId)
    && a.alias != "None" && Trimmed(a.alias)
  }

  /**
   * The account list `Config.__init__` builds from a list of entries, defined
   * on the last entry so that it follows the loop.
   */
  function Accounts(es: seq<Entry>): (r: seq<Account>)
    ensures |r| <= |es|
  {
    if es == [] then []
    else
      var last := es[|es| - 1];
      Accounts(es[..|es| - 1]) + (if Kept(last) then [AccountOf(last)] else [])
  }

  /** Every account built from the configuration has a real, stripped user id and alias. */
  lemma {:induction false} AccountsWellFormed(es: seq<Entry>, i: nat)
    requires i < |Accounts(es)|
    ensures WellFormed(Accounts(es)[i])
  {
    var n := |es| - 1;
    var last := es[n];
    var init := Accounts(es[..n]);
    assert Accounts(es) == init + (if Kept(last) then [AccountOf(last)] else []);
    if i < |init| {
      AccountsWellFormed(es[..n], i);
      assert Accounts(es)[i] == init[i];
    } else {
      assert Kept(last) && Accounts(es)[i] == AccountOf(last);
      StripTrimmed(last.userId);
      StripTrimmed(last.alias);
    }
  }

  /** Filtering works entry by entry: the accounts of a concatenation are the concatenation of the accounts, in order. */
  lemma {:induction false} AccountsAppend(a: seq<Entry>, b: seq<Entry>)
    ensures Accounts(a + b) == Accounts(a) + Accounts(b)
    decreases |b|
  {
    if b == [] {
      assert a + b == a;
    } else {
      var b' := b[..|b| - 1];
      assert (a + b)[..|a + b| - 1] == a + b';
      AccountsAppend(a, b');
    }
  }

  /** The account list of a single entry: the entry's account if it is kept, nothing otherwise. */
  lemma AccountsSingle(e: Entry)
    ensures Accounts([e]) == if Kept(e) then [AccountOf(e)] else []
  {
    assert [e][..0] == [];
  }

  /** Every kept entry contributes its account. */
  lemma {:induction false} AccountsComplete(es: seq<Entry>, i: nat)
    requires i < |es| && Kept(es[i])
    ensures AccountOf(es[i]) in Accounts(es)
  {
    assert es == es[..i] + [es[i]] + es[i + 1..];
    AccountsAppend(es[..i] + [es[i]], es[i + 1..]);
    AccountsAppend(es[..i], [es[i]]);
    AccountsSingle(es[i]);
  }

  /** Every account comes from a kept entry. */
  lemma {:induction false} AccountsSound(es: seq<Entry>, a: Account)
    requires a in Accounts(es)
    ensures exists i :: 0 <= i < |es| && Kept(es[i]) && AccountOf(es[i]) == a
  {
    var n := |es| - 1;
    if Kept(es[n]) && a == AccountOf(es[n]) {
    } else {
      assert a in Accounts(es[..n]);
      AccountsSound(es[..n], a);
      var i :| 0 <= i < n && Kept(es[..n][i]) && AccountOf(es[..n][i]) == a;
      assert es[..n][i] == es[i];
    }
  }

  /** There is no limit on the number of accounts: when every entry is kept, every entry yields its account, in place. */
  lemma {:induction false} AccountsAllKept(es: seq<Entry>)
    requires forall i :: 0 <= i < |es| ==> Kept(es[i])
    ensures |Accounts(es)| == |es|
    ensures forall i :: 0 <= i < |es| ==> Accounts(es)[i] == AccountOf(es[i])
  {
    if es != [] {
      var n := |es| - 1;
      var init := es[..n];
      forall i | 0 <= i < n ensures Kept(init[i]) {
        assert init[i] == es[i];
      }
      AccountsAllKept(init);
      assert Kept(es[n]);
      var r := Accounts(es);
      assert r == Accounts(init) + [AccountOf(es[n])];
      forall i | 0 <= i < |es| ensures r[i] == AccountOf(es[i]) {
        if i < n {
          assert init[i] == es[i];
        }
      }
    }
  }

  /** The loop of `Config.__init__` over one account list of config.yaml. */
  method CollectAccounts(entries: seq<Entry>) returns (accounts: seq<Account>)
    ensures accounts == Accounts(entries)
  {
    accounts := [];
    for k := 0 to |entries|
      invariant accounts == Accounts(entries[..k])
    {
      assert entries[..k + 1][..k] == entries[..k];
      var user := entries[k];
      var userId := Strip(user.userId);
      if userId != "None" {
        var password := user.password;
        var alias := Strip(user.alias);
        if alias == "None" {
          alias := userId;
        }
        accounts := accounts + [Account(userId, password, alias)];
      }
    }
    assert entries[..|entries|] == entries;
  }

  /**
   * `Config`: the two account lists and the two notification switches. URLs,
   * the browser settings and the transport credentials are not modelled.
   */
  class Config {
    var edbAccounts: seq<Account>
    var infostanAccounts: seq<Account>
    var emailEnabled: bool
    var telegramEnabled: bool

    /** Reads the EDB_Accounts and InfoStan_Accounts lists (the latter keyed `username` in config.yaml). */
    constructor (edbEntries: seq<Entry>, infostanEntries: seq<Entry>, emailEnabled: bool, telegramEnabled: bool)
      ensures edbAccounts == Accounts(edbEntries)
      ensures infostanAccounts == Accounts(infostanEntries)
      ensures this.emailEnabled == emailEnabled && this.telegramEnabled == telegramEnabled
    {
      var edb := CollectAccounts(edbEntries);
      var infostan := CollectAccounts(infostanEntries);
      edbAccounts := edb;
      infostanAccounts := infostan;
      this.emailEnabled := emailEnabled;
      this.telegramEnabled := telegramEnabled;
    }
  }

  // ---------------------------------------------------------------------------
  // The geckodriver binary

  /** The platforms a geckodriver binary is shipped for. */
  predicate Supported(system: string, machine: string) {
    || (system == "Linux" && (machine == "x86_64" || machine == "armv7l"))
    || system == "Windows"
    || system == "Darwin"
  }

  /**
   * `Config.gecko_path()`: the binary for `platform.system()` and
   * `platform.machine()`; `None` is the fatal "Unknown OS" exit with status 1.
   */
  function GeckoPath(system: string, machine: string): (r: Option<string>)
    ensures r.Some? <==> Supported(system, machine)
  {
    if system == "Linux" && machine == "x86_64" then Some("bin/linux64/geckodriver")
    else if system == "Linux" && machine == "armv7l" then Some("bin/arm7hf/geckodriver")
    else if system == "Windows" then Some("bin/win64/geckodriver.exe")
    else if system == "Darwin" then Some("bin/macos/geckodriver")
    else None
  }

  /** A Windows executable name. */
  predicate IsExe(p: string) {
    |p| >= 4 && p[|p| - 4..] == ".exe"
  }

  /** The path lies in the `bin/` directory. */
  predicate UnderBin(p: string) {
    |p| > 4 && p[..4] == "bin/"
  }

  // One lemma per binary path, so that each literal is taken apart on its own.
  lemma LinuxPath()
    ensures UnderBin("bin/linux64/geckodriver") && !IsExe("bin/linux64/geckodriver")
  {
    var p := "bin/linux64/geckodriver";
    assert p[..4] == "bin/";
    assert p[|p| - 4..][3] == 'r';
  }

  lemma ArmPath()
    ensures UnderBin("bin/arm7hf/geckodriver") && !IsExe("bin/arm7hf/geckodriver")
  {
    var p := "bin/arm7hf/geckodriver";
    assert p[..4] == "bin/";
    assert p[|p| - 4..][3] == 'r';
  }

  lemma WindowsPath()
    ensures UnderBin("bin/win64/geckodriver.exe") && IsExe("bin/win64/geckodriver.exe")
  {
    var p := "bin/win64/geckodriver.exe";
    assert p[..4] == "bin/";
    assert p[|p| - 4..] == ".exe";
  }

  lemma MacPath()
    ensures UnderBin("bin/macos/geckodriver") && !IsExe("bin/macos/geckodriver")
  {
    var p := "bin/macos/geckodriver";
    assert p[..4] == "bin/";
    assert p[|p| - 4..][3] == 'r';
  }

  /** Every binary lives under `bin/`, and only the Windows one is an `.exe`. */
  lemma GeckoPathShape(system: string, machine: string)
    requires Supported(system, machine)
    ensures var p := GeckoPath(system, machine).value;
      |p| > 4 && p[..4] == "bin/" && (IsExe(p) <==> system == "Windows")
  {
    if system == "Linux" && machine == "x86_64" {
      LinuxPath();
    } else if system == "Linux" && machine == "armv7l" {
      ArmPath();
    } else if system == "Windows" {
      WindowsPath();
    } else {
      MacPath();
    }
  }

  /** Each supported platform gets its own binary: an ARM board never gets the x86-64 build and so on. */
  lemma GeckoPathsDistinct(s1: string, m1: string, s2: string, m2: string)
    requires GeckoPath(s1, m1).Some? && GeckoPath(s1, m1) == GeckoPath(s2, m2)
    ensures s1 == s2
    ensures s1 == "Linux" ==> m1 == m2
  {
    var p := GeckoPath(s1, m1).value;
    assert p[4] == GeckoPath(s2, m2).value[4];
    if s1 == "Linux" {
      assert p[5] == GeckoPath(s2, m2).value[5];
    }
  }

  // ---------------------------------------------------------------------------
  // The machine the scraper runs on

  /** The part of the machine the core reads and changes. */
  datatype Machine = Machine(
    state: map<string, string>,   // watermark files: path -> the period stored in it
    downloads: seq<string>,       // stems of the PDF files in the download folder, in glob order
    pdfs: set<string>,            // paths of the files in the pdf folder
    pdfDir: bool,                 // whether the pdf folder exists
    stdout: seq<string>)          // lines printed to standard output

  /** The machine, updated in place. */
  class Host {
    var state: map<string, string>
    var downloads: seq<string>
    var pdfs: set<string>
    var pdfDir: bool
    var stdout: seq<string>

    function Snapshot(): Machine
      reads this
    {
      Machine(state, downloads, pdfs, pdfDir, stdout)
    }

    constructor (m: Machine)
      ensures Snapshot() == m
    {
      state, downloads, pdfs, pdfDir, stdout := m.state, m.downloads, m.pdfs, m.pdfDir, m.stdout;
    }

    /** Python's `print(line)`. */
    method Print(line: string)
      modifies this
      ensures Snapshot() == old(Snapshot()).(stdout := old(stdout) + [line])
    {
      stdout := stdout + [line];
    }
  }

  // ---------------------------------------------------------------------------
  // The watermark store

  /** `var/storage_{infix}.yaml`, the file of one scope. */
  function StoragePath(infix: string): string {
    "var/storage_" + infix + ".yaml"
  }

  /** Different scopes never share a file. */
  lemma StoragePathInjective(a: string, b: string)
    requires StoragePath(a) == StoragePath(b)
    ensures a == b
  {
    var pre := "var/storage_";
    assert StoragePath(a)[|pre|..|pre| + |a|] == a;
    assert StoragePath(b)[|pre|..|pre| + |b|] == b;
  }

  /** The watermark read from `path`: the stripped stored text, or "none" when there is no file. */
  function Load(state: map<string, string>, path: string): (r: string)
    ensures path !in state ==> r == "none"
  {
    if path in state then Strip(state[path]) else "none"
  }

  /** A loaded watermark never starts or ends with whitespace. */
  lemma LoadTrimmed(state: map<string, string>, path: string)
    ensures Trimmed(Load(state, path))
  {
    if path in state {
      StripTrimmed(state[path]);
    }
  }

  /** The files after writing the stripped `period` to `path`. */
  function Save(state: map<string, string>, path: string, period: string): (r: map<string, string>)
    ensures r.Keys == state.Keys + {path}
    ensures forall p :: p in state && p != path ==> r[p] == state[p]
  {
    state[path := Strip(period)]
  }

  /**
   * A saved watermark is what a later load reads back (stripped), saving the
   * same value again changes nothing, and no other scope's watermark moves.
   */
  lemma {:induction false} SaveThenLoad(state: map<string, string>, path: string, period: string, other: string)
    requires other != path
    ensures Load(Save(state, path, period), path) == Strip(period)
    ensures Save(Save(state, path, period), path, period) == Save(state, path, period)
    ensures Load(Save(state, path, period), other) == Load(state, other)
  {
    StripIdempotent(period);
  }

  // ---------------------------------------------------------------------------
  // Archiving downloaded bills

  /** `pdf/{infix}_{YYYY-MM}_{stem}.pdf`, the archived name of a downloaded PDF. */
  function ArchiveName(infix: string, yearMonth: string, stem: string): (r: string)
    ensures |r| > |stem| + 8 && r[..4] == "pdf/" && r[|r| - 4..] == ".pdf"
  {
    "pdf/" + infix + "_" + yearMonth + "_" + stem + ".pdf"
  }

  /** Within one scope and month, different downloads are archived under different names. */
  lemma ArchiveNameInjective(infix: string, yearMonth: string, a: string, b: string)
    requires ArchiveName(infix, yearMonth, a) == ArchiveName(infix, yearMonth, b)
    ensures a == b
  {
    var k := |"pdf/" + infix + "_" + yearMonth + "_"|;
    assert ArchiveName(infix, yearMonth, a)[k..k + |a|] == a;
    assert ArchiveName(infix, yearMonth, b)[k..k + |b|] == b;
  }

  /** The archived names of a list of downloads. */
  function ArchiveNames(infix: string, yearMonth: string, stems: seq<string>): set<string> {
    set s | s in stems :: ArchiveName(infix, yearMonth, s)
  }

  /**
   * `Storage.move_pdf()`: EVERY PDF in the download folder, not only the one
   * just downloaded, is moved to the pdf folder under its archived name.
   * `None` is the exception `shutil.move` raises when there is something to
   * move but no pdf folder; the first move fails, so nothing has moved.
   */
  function MovePdfs(m: Machine, infix: string, yearMonth: string): (r: Option<Machine>)
    ensures r.Some? <==> m.downloads == [] || m.pdfDir
    ensures r.Some? ==> r.value.state == m.state && r.value.stdout == m.stdout && m.pdfs <= r.value.pdfs
  {
    if m.downloads == [] then Some(m)
    else if !m.pdfDir then None
    else Some(m.(downloads := [], pdfs := m.pdfs + ArchiveNames(infix, yearMonth, m.downloads)))
  }

  /** What a successful move leaves: an empty download folder and every download archived under its own name. */
  lemma MovePdfsArchivesAll(m: Machine, infix: string, yearMonth: string, i: nat)
    requires MovePdfs(m, infix, yearMonth).Some? && i < |m.downloads|
    ensures var m' := MovePdfs(m, infix, yearMonth).value;
      m'.downloads == [] && ArchiveName(infix, yearMonth, m.downloads[i]) in m'.pdfs
      && m'.state == m.state && m.pdfs <= m'.pdfs
  {
  }

  /**
   * The loop of `Storage.move_pdf()` (and of `move_and_rename_pdf` in main.py):
   * moves the downloads one by one; `ok` is false when the move raised.
   */
  method MoveDownloads(host: Host, infix: string, yearMonth: string) returns (ok: bool)
    modifies host
    ensures ok == MovePdfs(old(host.Snapshot()), infix, yearMonth).Some?
    ensures host.Snapshot() == if ok then MovePdfs(old(host.Snapshot()), infix, yearMonth).value else old(host.Snapshot())
  {
    var found := host.downloads;
    for i := 0 to |found|
      invariant host.downloads == found[i..]
      invariant host.pdfs == old(host.pdfs) + ArchiveNames(infix, yearMonth, found[..i])
      invariant host.state == old(host.state) && host.stdout == old(host.stdout)
      invariant host.pdfDir == old(host.pdfDir)
      invariant i > 0 ==> host.pdfDir
    {
      if !host.pdfDir {
        assert ArchiveNames(infix, yearMonth, found[..0]) == {};
        return false;
      }
      assert found[..i + 1] == found[..i] + [found[i]];
      assert ArchiveNames(infix, yearMonth, found[..i + 1])
          == ArchiveNames(infix, yearMonth, found[..i]) + {ArchiveName(infix, yearMonth, found[i])};
      host.pdfs := host.pdfs + {ArchiveName(infix, yearMonth, found[i])};
      host.downloads := found[i + 1..];
    }
    assert found[..|found|] == found;
    return true;
  }

  /** `Storage`: the watermark of one scope, loaded when the object is made. */
  class Storage {
    const infix: string
    const yamlPath: string
    const host: Host
    var lastSaved: string

    /** The kept watermark is always stripped, whether it was loaded or set. */
    ghost predicate Valid()
      reads this
    {
      Trimmed(lastSaved)
    }

    /** Reads `var/storage_{infix}.yaml`; "none" when the file does not exist. */
    constructor (host: Host, infix: string)
      ensures Valid()
      ensures this.host == host && this.infix == infix && yamlPath == StoragePath(infix)
      ensures lastSaved == Load(host.state, StoragePath(infix))
    {
      this.host := host;
      this.infix := infix;
      yamlPath := StoragePath(infix);
      lastSaved := Load(host.state, StoragePath(infix));
      LoadTrimmed(host.state, StoragePath(infix));
    }

    /** The `last_saved` getter: a value with no surrounding whitespace. */
    function LastSaved(): (r: string)
      requires Valid()
      reads this
      ensures Trimmed(r)
    {
      lastSaved
    }

    /** The `last_saved` setter: keeps the stripped period and writes it to the scope's file. */
    method SetLastSaved(period: string)
      modifies this, host
      ensures Valid() && lastSaved == Strip(period)
      ensures host.Snapshot() == old(host.Snapshot()).(state := Save(old(host.state), yamlPath, period))
    {
      lastSaved := Strip(period);
      StripTrimmed(period);
      host.state := host.state[yamlPath := lastSaved];
    }

    /** `move_pdf()`: archives every download under this scope's infix. */
    method MovePdf(yearMonth: string) returns (ok: bool)
      modifies host
      ensures ok == MovePdfs(old(host.Snapshot()), infix, yearMonth).Some?
      ensures host.Snapshot() == if ok then MovePdfs(old(host.Snapshot()), infix, yearMonth).value else old(host.Snapshot())
    {
      ok := MoveDownloads(host, infix, yearMonth);
    }
  }
}
