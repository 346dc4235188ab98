/**
 * The probe sequencer: `main` of the program. It sets up diagnostics,
 * clears old files, opens a WAL-mode database, seeds it, unlinks its primary
 * file while the connection stays open, and then observes a write, an
 * invalid statement, a read and a schema change before closing and cleaning
 * up. The engine is an oracle of call outcomes; the working directory is a
 * set of present paths.
 */
module Probe {
  import opened Results
  import Decimal
  import LogSetup

  const Db := "test.db"
  const Wal := "test.db-wal"
  const Shm := "test.db-shm"

  /** The end of every step title. */
  const Ellipsis := "..."
  /** What step 8 prints before the count. */
  const ReadLead := "  Read succeeded, count: "

  /** The working directory: the paths present, and those the OS refuses to remove. */
  datatype Disk = Disk(files: set<string>, locked: set<string>)

  /** `fs::remove_file`: an error when the path is absent or cannot be removed. */
  function Remove(d: Disk, path: string): (Outcome<()>, Disk) {
    if path !in d.files then (Err("NotFound"), d)
    else if path in d.locked then (Err("PermissionDenied"), d)
    else (Ok(()), d.(files := d.files - {path}))
  }

  /** A removal succeeds exactly on a present, removable path, and then takes away that path alone. */
  lemma RemoveOutcome(d: Disk, path: string)
    ensures Remove(d, path).0.Ok? <==> path in d.files && path !in d.locked
    ensures Remove(d, path).1.files == (if Remove(d, path).0.Ok? then d.files - {path} else d.files)
    ensures Remove(d, path).1.locked == d.locked
  {
  }

  /**
   * What the engine answers to each call the probe makes. `created` is the
   * set of files the engine has put in the directory once it has opened the
   * database; how and when it creates them is not modelled.
   */
  datatype Engine = Engine(
    open: Outcome<()>,
    journalMode: Outcome<()>,
    createTable: Outcome<()>,
    seedInsert: Outcome<()>,
    created: set<string>,
    writeAfterUnlink: Outcome<()>,
    invalidSql: Outcome<()>,
    prepareCount: Outcome<()>,
    queryCount: Outcome<int>,
    createTable2: Outcome<()>)

  /** The calls whose error ends the run (the `?` operators). */
  datatype FatalPoint = OpenFailed | JournalModeFailed | CreateTableFailed | SeedInsertFailed | UnlinkFailed | PrepareFailed

  datatype Failure = Failure(point: FatalPoint, error: string)

  /** One `println!` of the probe. */
  datatype Line = Header(step: nat) | Note(text: string) | Done

  /** The step under whose header a fatal point sits. */
  function StepOf(p: FatalPoint): (k: nat)
    ensures 1 <= k <= 8
  {
    match p
    case OpenFailed => 1
    case JournalModeFailed => 2
    case CreateTableFailed => 3
    case SeedInsertFailed => 3
    case UnlinkFailed => 5
    case PrepareFailed => 8
  }

  /** The title of each of the eleven steps; every one ends in an ellipsis. */
  function Title(k: nat): (t: string)
    ensures 1 <= k <= 11 ==> |t| > 3 && t[|t| - 3..] == Ellipsis
    ensures !(1 <= k <= 11) ==> t == ""
  {
    if 1 <= k <= 11 then
      var t := Topic(k) + Ellipsis;
      assert t[|Topic(k)|..] == Ellipsis;
      t
    else ""
  }

  /** What each step is about, without the trailing ellipsis. */
  function Topic(k: nat): string {
    match k
    case 1 => "Creating database and opening connection"
    case 2 => "Enabling WAL mode"
    case 3 => "Creating table and inserting data"
    case 4 => "Verifying files exist"
    case 5 => "UNLINKING DATABASE FILE"
    case 6 => "Attempting write after unlink"
    case 7 => "Demonstrating logs are still connected"
    case 8 => "Attempting read after unlink"
    case 9 => "Creating another table after unlink"
    case 10 => "Closing connection"
    case 11 => "Cleaning up remaining files"
    case _ => ""
  }

  /**
   * The text a line puts on standard output (terminal styling dropped). A
   * header is a blank line, the step number in decimal, and the title.
   */
  function Render(l: Line): (s: string)
    ensures l.Header? ==>
      var n := |Decimal.IntToString(l.step)|;
      |s| > n && s[0] == '\n' && Decimal.ParseInt(s[1..n + 1]) == Some(l.step as int) && s[n + 1..] == ". " + Title(l.step)
    ensures l.Note? ==> s == l.text
    ensures l.Done? ==> s == "\nDone"
  {
    match l
    case Header(k) =>
      var digits := Decimal.IntToString(k);
      Decimal.IntToStringRoundTrip(k);
      var rest := ". " + Title(k);
      var s := "\n" + (digits + rest);
      assert s[1..] == digits + rest;
      assert s[1..|digits| + 1] == (digits + rest)[..|digits|] == digits;
      assert s[|digits| + 1..] == (digits + rest)[|digits|..] == rest;
      s
    case Note(s) => s
    case Done => "\nDone"
  }

  /** The text of a whole transcript, line by line. */
  function Printout(t: seq<Line>): (r: seq<string>)
    ensures |r| == |t| && forall i :: 0 <= i < |t| ==> r[i] == Render(t[i])
  {
    if t == [] then [] else [Render(t[0])] + Printout(t[1..])
  }

  /** Step 6. */
  function WriteNote(o: Outcome<()>): (l: Line)
    ensures l.Note?
  {
    match o
    case Ok(_) => Note("  Write succeeded after unlink")
    case Err(m) => Note("  Write failed: " + m)
  }

  /** The success text appears exactly when the write went through; otherwise the error is quoted. */
  lemma WriteNoteReports(o: Outcome<()>)
    ensures o.Ok? <==> WriteNote(o).text == "  Write succeeded after unlink"
    ensures o.Err? ==> WriteNote(o).text == "  Write failed: " + o.error
  {
    if o.Err? {
      assert WriteNote(o).text[8] != "  Write succeeded after unlink"[8];
    }
  }

  /** Step 7. */
  function InvalidSqlNote(o: Outcome<()>): (l: Line)
    ensures l.Note?
  {
    match o
    case Ok(_) => Note("Unexpected success")
    case Err(m) => Note("Expected error: " + m)
  }

  /** An error is the expected answer and is quoted; only an accepted statement is called unexpected. */
  lemma InvalidSqlNoteReports(o: Outcome<()>)
    ensures o.Ok? <==> InvalidSqlNote(o).text == "Unexpected success"
    ensures o.Err? ==> InvalidSqlNote(o).text == "Expected error: " + o.error
  {
    if o.Err? {
      assert InvalidSqlNote(o).text[0] != "Unexpected success"[0];
    }
  }

  /** Step 8. */
  function ReadNote(o: Outcome<int>): (l: Line)
    ensures l.Note?
  {
    match o
    case Ok(count) => Note(ReadLead + Decimal.IntToString(count))
    case Err(m) => Note("  Read failed: " + m)
  }

  /** A successful read prints a fixed lead and then the count, which reads back in decimal; a failure quotes the error. */
  lemma ReadNoteReports(o: Outcome<int>)
    ensures o.Ok? <==> ReadLead <= ReadNote(o).text
    ensures o.Ok? ==> ReadNote(o).text[|ReadLead|..] == Decimal.IntToString(o.value)
    ensures o.Ok? ==> Decimal.ParseInt(ReadNote(o).text[|ReadLead|..]) == Some(o.value)
    ensures o.Err? ==> ReadNote(o).text == "  Read failed: " + o.error
  {
    match o
    case Ok(count) =>
      Decimal.IntToStringRoundTrip(count);
      assert ReadNote(o).text[|ReadLead|..] == Decimal.IntToString(count);
    case Err(m) =>
      assert ReadNote(o).text[7] != ReadLead[7];
  }

  /** Step 9. */
  function CreateNote(o: Outcome<()>): (l: Line)
    ensures l.Note?
  {
    match o
    case Ok(_) => Note("  Table creation succeeded after unlink")
    case Err(m) => Note("  Table creation failed: " + m)
  }

  /** The success text appears exactly when the schema change went through; otherwise the error is quoted. */
  lemma CreateNoteReports(o: Outcome<()>)
    ensures o.Ok? <==> CreateNote(o).text == "  Table creation succeeded after unlink"
    ensures o.Err? ==> CreateNote(o).text == "  Table creation failed: " + o.error
  {
    if o.Err? {
      assert CreateNote(o).text[17] != "  Table creation succeeded after unlink"[17];
    }
  }

  /** Step 4: the report that `path` is present: an indent, the path, then a fixed trailer. */
  function ExistsNote(path: string): (l: Line)
    ensures l.Note? && |l.text| == |path| + 9
    ensures l.text[..2] == "  " && l.text[2..|path| + 2] == path && l.text[|path| + 2..] == " exists"
  {
    var text := "  " + path + " exists";
    assert text[..2] == "  ";
    assert text[2..|path| + 2] == path;
    assert text[|path| + 2..] == " exists";
    Note(text)
  }

  /** Step 4: one line per primary, WAL and SHM path that is present, in that order. */
  function ExistsNotes(d: Disk): (r: seq<Line>)
    ensures ExistsNote(Db) in r <==> Db in d.files
    ensures ExistsNote(Wal) in r <==> Wal in d.files
    ensures ExistsNote(Shm) in r <==> Shm in d.files
    ensures forall l :: l in r ==> l.Note?
  {
    assert |ExistsNote(Db).text| == 16 && |ExistsNote(Wal).text| == 20 && |ExistsNote(Shm).text| == 20;
    assert ExistsNote(Wal).text[10] == 'w' && ExistsNote(Shm).text[10] == 's';
    (if Db in d.files then [ExistsNote(Db)] else [])
    + (if Wal in d.files then [ExistsNote(Wal)] else [])
    + (if Shm in d.files then [ExistsNote(Shm)] else [])
  }

  /** How many of the three paths are present. */
  lemma PresentCount(d: Disk)
    ensures |d.files * {Db, Wal, Shm}| == (if Db in d.files then 1 else 0) + (if Wal in d.files then 1 else 0) + (if Shm in d.files then 1 else 0)
  {
    assert |Db| == 7 && |Wal| == 11 && |Shm| == 11 && Wal[8] != Shm[8];
    var a: set<string> := if Db in d.files then {Db} else {};
    var b: set<string> := if Wal in d.files then {Wal} else {};
    var c: set<string> := if Shm in d.files then {Shm} else {};
    assert d.files * {Db, Wal, Shm} == a + b + c;
    assert a * b == {} && (a + b) * c == {};
  }

  /**
   * Step 4 reports nothing but the three paths, one line for each that is
   * present, in the order primary, WAL, SHM.
   */
  lemma ExistsNotesExact(d: Disk)
    ensures forall l :: l in ExistsNotes(d) ==> l == ExistsNote(Db) || l == ExistsNote(Wal) || l == ExistsNote(Shm)
    ensures |ExistsNotes(d)| == |d.files * {Db, Wal, Shm}|
    ensures Db in d.files ==> ExistsNotes(d)[0] == ExistsNote(Db)
    ensures Wal in d.files ==> |ExistsNotes(d)| > (if Db in d.files then 1 else 0) && ExistsNotes(d)[if Db in d.files then 1 else 0] == ExistsNote(Wal)
    ensures Shm in d.files ==> |ExistsNotes(d)| > 0 && ExistsNotes(d)[|ExistsNotes(d)| - 1] == ExistsNote(Shm)
  {
    PresentCount(d);
  }

  /** Step 4: the three existence checks. */
  method ReportFiles(d: Disk) returns (lines: seq<Line>)
    ensures lines == ExistsNotes(d)
  {
    lines := [];
    if Db in d.files {
      lines := lines + [ExistsNote(Db)];
    }
    if Wal in d.files {
      lines := lines + [ExistsNote(Wal)];
    }
    if Shm in d.files {
      lines := lines + [ExistsNote(Shm)];
    }
  }

  /** The directory after the three startup removals, whose outcomes are dropped. */
  function StartupDisk(d0: Disk): (d: Disk)
    ensures d.files == d0.files - ({Db, Wal, Shm} - d0.locked) && d.locked == d0.locked
  {
    Remove(Remove(Remove(d0, Db).1, Wal).1, Shm).1
  }

  /** The directory once the engine has opened the database. */
  function OpenedDisk(d0: Disk, e: Engine): Disk {
    var d := StartupDisk(d0);
    d.(files := d.files + e.created)
  }

  /** The first call, in program order, whose error is propagated. */
  function FirstFatal(d0: Disk, e: Engine): Option<Failure> {
    var unlink := Remove(OpenedDisk(d0, e), Db).0;
    if e.open.Err? then Some(Failure(OpenFailed, e.open.error))
    else if e.journalMode.Err? then Some(Failure(JournalModeFailed, e.journalMode.error))
    else if e.createTable.Err? then Some(Failure(CreateTableFailed, e.createTable.error))
    else if e.seedInsert.Err? then Some(Failure(SeedInsertFailed, e.seedInsert.error))
    else if unlink.Err? then Some(Failure(UnlinkFailed, unlink.error))
    else if e.prepareCount.Err? then Some(Failure(PrepareFailed, e.prepareCount.error))
    else None
  }

  /** The value `main` returns. */
  function RunResult(d0: Disk, e: Engine): Outcome<()> {
    match FirstFatal(d0, e)
    case Some(f) => Err(f.error)
    case None => Ok(())
  }

  /** The last step whose header is printed. */
  function LastStep(d0: Disk, e: Engine): (k: nat)
    ensures 1 <= k <= 11
  {
    match FirstFatal(d0, e)
    case Some(f) => StepOf(f.point)
    case None => 11
  }

  /** The lines a step prints after its header when it runs to the end. */
  function Body(dir: Disk, e: Engine, k: nat): (r: seq<Line>)
    ensures forall l :: l in r ==> l.Note?
    ensures !(4 <= k <= 9) ==> r == []
    ensures 5 <= k <= 9 ==> |r| == 1
  {
    match k
    case 4 => ExistsNotes(dir)
    case 5 => [Note("  " + Db + " has been unlinked!")]
    case 6 => [WriteNote(e.writeAfterUnlink)]
    case 7 => [InvalidSqlNote(e.invalidSql)]
    case 8 => [ReadNote(e.queryCount)]
    case 9 => [CreateNote(e.createTable2)]
    case _ => []
  }

  /** Steps 1 to k, each printed in full; `dir` is the directory step 4 looks at. */
  function Printed(dir: Disk, e: Engine, k: nat): seq<Line> {
    if k == 0 then [] else Printed(dir, e, k - 1) + [Header(k)] + Body(dir, e, k)
  }

  /**
   * The whole transcript: on a fatal error, the completed steps and the
   * header of the step that failed; otherwise all eleven steps and `Done`.
   */
  function Transcript(d0: Disk, e: Engine): seq<Line> {
    var dir := OpenedDisk(d0, e);
    match FirstFatal(d0, e)
    case Some(f) => Printed(dir, e, StepOf(f.point) - 1) + [Header(StepOf(f.point))]
    case None => Printed(dir, e, 11) + [Done]
  }

  /** The directory when the process ends. */
  function FinalDisk(d0: Disk, e: Engine): Disk {
    var unlinked := Remove(OpenedDisk(d0, e), Db).1;
    match FirstFatal(d0, e)
    case Some(f) =>
      if f.point == OpenFailed then StartupDisk(d0)
      else if f.point == PrepareFailed then unlinked
      else OpenedDisk(d0, e)
    case None => Remove(Remove(unlinked, Wal).1, Shm).1
  }

  /**
   * `main`. `registration` is the engine's answer to installing the
   * diagnostic callback; it decides only what reaches standard error.
   */
  method RunProbe(d0: Disk, e: Engine, registration: Outcome<()>)
    returns (result: Outcome<()>, stdout: seq<Line>, text: seq<string>, stderr: seq<string>, disk: Disk)
    ensures result == RunResult(d0, e)
    ensures stdout == Transcript(d0, e)
    ensures text == Printout(Transcript(d0, e))
    ensures stderr == (if registration.Err? then [LogSetup.FailureLine(registration.error)] else [])
    ensures disk == FinalDisk(d0, e)
  {
    stderr := LogSetup.SetupOnce(registration);
    result, stdout, disk := RunSteps(d0, e);
    text := Printout(stdout);
  }

  /** The eleven steps after diagnostics are set up, with their early returns. */
  method RunSteps(d0: Disk, e: Engine) returns (result: Outcome<()>, stdout: seq<Line>, disk: Disk)
    ensures result == RunResult(d0, e)
    ensures stdout == Transcript(d0, e)
    ensures disk == FinalDisk(d0, e)
  {
    // Startup removals: their outcomes are discarded.
    disk := Remove(d0, Db).1;
    disk := Remove(disk, Wal).1;
    disk := Remove(disk, Shm).1;

    stdout := [Header(1)];
    if e.open.Err? {
      return Err(e.open.error), stdout, disk;
    }
    disk := disk.(files := disk.files + e.created);

    stdout := stdout + [Header(2)];
    assert stdout == Printed(OpenedDisk(d0, e), e, 1) + [Header(2)];
    if e.journalMode.Err? {
      return Err(e.journalMode.error), stdout, disk;
    }

    stdout := stdout + [Header(3)];
    assert stdout == Printed(OpenedDisk(d0, e), e, 2) + [Header(3)];
    if e.createTable.Err? {
      return Err(e.createTable.error), stdout, disk;
    }
    if e.seedInsert.Err? {
      return Err(e.seedInsert.error), stdout, disk;
    }

    stdout := stdout + [Header(4)];
    var present := ReportFiles(disk);
    stdout := stdout + present;
    assert stdout == Printed(OpenedDisk(d0, e), e, 4);

    stdout := stdout + [Header(5)];
    var unlink := Remove(disk, Db);
    if unlink.0.Err? {
      return Err(unlink.0.error), stdout, disk;
    }
    disk := unlink.1;
    stdout := stdout + [Note("  " + Db + " has been unlinked!")];
    assert stdout == Printed(OpenedDisk(d0, e), e, 5);

    stdout := stdout + [Header(6)];
    stdout := stdout + [WriteNote(e.writeAfterUnlink)];
    assert stdout == Printed(OpenedDisk(d0, e), e, 6);

    stdout := stdout + [Header(7)];
    stdout := stdout + [InvalidSqlNote(e.invalidSql)];
    assert stdout == Printed(OpenedDisk(d0, e), e, 7);

    stdout := stdout + [Header(8)];
    if e.prepareCount.Err? {
      return Err(e.prepareCount.error), stdout, disk;
    }
    stdout := stdout + [ReadNote(e.queryCount)];
    assert stdout == Printed(OpenedDisk(d0, e), e, 8);

    stdout := stdout + [Header(9)];
    stdout := stdout + [CreateNote(e.createTable2)];
    assert stdout == Printed(OpenedDisk(d0, e), e, 9);

    // Step 10 closes the connection, which the engine oracle does not observe.
    stdout := stdout + [Header(10)];
    assert stdout == Printed(OpenedDisk(d0, e), e, 10);

    stdout := stdout + [Header(11)];
    disk := Remove(disk, Wal).1;
    disk := Remove(disk, Shm).1;
    assert stdout == Printed(OpenedDisk(d0, e), e, 11);

    stdout := stdout + [Done];
    result := Ok(());
  }
}
