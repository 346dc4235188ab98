/**
 * What the probe's behaviour guarantees: which failures end the run, the
 * order of the step headers, the one line each observed step prints, and
 * what the run leaves in the working directory.
 */
module ProbeProperties {
  import opened Results
  import opened Probe

  /** The step numbers of a transcript's headers, in order. */
  function Headers(t: seq<Line>): seq<nat> {
    if t == [] then [] else (if t[0].Header? then [t[0].step] else []) + Headers(t[1..])
  }

  /** The sequence 1, 2, ..., n. */
  function Upto(n: nat): (r: seq<nat>)
    ensures |r| == n && forall i :: 0 <= i < n ==> r[i] == i + 1
  {
    if n == 0 then [] else Upto(n - 1) + [n]
  }

  /** The notes printed after the first header of step k, up to the next line that is not a note. */
  function Section(t: seq<Line>, k: nat): seq<Line> {
    if t == [] then [] else if t[0] == Header(k) then Notes(t[1..]) else Section(t[1..], k)
  }

  function Notes(t: seq<Line>): seq<Line> {
    if t == [] || !t[0].Note? then [] else [t[0]] + Notes(t[1..])
  }

  predicate AllNotes(t: seq<Line>) {
    forall i :: 0 <= i < |t| ==> t[i].Note?
  }

  lemma {:induction false} HeadersAppend(a: seq<Line>, b: seq<Line>)
    ensures Headers(a + b) == Headers(a) + Headers(b)
  {
    if a != [] {
      var first := if a[0].Header? then [a[0].step] else [];
      assert (a + b)[0] == a[0] && (a + b)[1..] == a[1..] + b;
      assert Headers(a + b) == first + Headers(a[1..] + b);
      HeadersAppend(a[1..], b);
    } else {
      assert a + b == b;
    }
  }

  lemma {:induction false} NotesHaveNoHeaders(t: seq<Line>)
    requires AllNotes(t)
    ensures Headers(t) == []
  {
    if t != [] {
      NotesHaveNoHeaders(t[1..]);
    }
  }

  lemma {:induction false} HeaderListed(t: seq<Line>, k: nat)
    requires Header(k) in t
    ensures k in Headers(t)
  {
    if t[0] != Header(k) {
      HeaderListed(t[1..], k);
    }
  }

  lemma BodyIsNotes(dir: Disk, e: Engine, k: nat)
    ensures AllNotes(Body(dir, e, k))
  {
    if k == 4 {
      var b := Body(dir, e, k);
      assert forall i :: 0 <= i < |b| ==> b[i] in b;
    }
  }

  /** Printing steps 1 to k prints their headers once each, in increasing order. */
  lemma {:induction false} PrintedHeaders(dir: Disk, e: Engine, k: nat)
    ensures Headers(Printed(dir, e, k)) == Upto(k)
  {
    if k > 0 {
      PrintedHeaders(dir, e, k - 1);
      BodyIsNotes(dir, e, k);
      NotesHaveNoHeaders(Body(dir, e, k));
      HeadersAppend(Printed(dir, e, k - 1) + [Header(k)], Body(dir, e, k));
      HeadersAppend(Printed(dir, e, k - 1), [Header(k)]);
    }
  }

  lemma {:induction false} PrintedNotDone(dir: Disk, e: Engine, k: nat)
    ensures Done !in Printed(dir, e, k)
  {
    if k > 0 {
      PrintedNotDone(dir, e, k - 1);
      var body := Body(dir, e, k);
      PrintedStep(dir, e, k, []);
      assert Printed(dir, e, k) + [] == Printed(dir, e, k);
      assert Done !in [Header(k)] + (body + []);
    }
  }

  /**
   * The transcript's headers are exactly steps 1 to LastStep in order. A
   * failed run stops at the header of the failing step and never prints
   * Done; a successful one prints all eleven headers and then Done.
   */
  lemma TranscriptHeaders(d0: Disk, e: Engine)
    ensures Headers(Transcript(d0, e)) == Upto(LastStep(d0, e))
    ensures RunResult(d0, e).Ok? ==> LastStep(d0, e) == 11 && Transcript(d0, e)[|Transcript(d0, e)| - 1] == Done
    ensures RunResult(d0, e).Err? ==>
      Transcript(d0, e)[|Transcript(d0, e)| - 1] == Header(LastStep(d0, e)) && Done !in Transcript(d0, e)
  {
    var dir := OpenedDisk(d0, e);
    var k := LastStep(d0, e);
    match FirstFatal(d0, e)
    case Some(f) =>
      PrintedHeaders(dir, e, k - 1);
      HeadersAppend(Printed(dir, e, k - 1), [Header(k)]);
      PrintedNotDone(dir, e, k - 1);
    case None =>
      PrintedHeaders(dir, e, 11);
      HeadersAppend(Printed(dir, e, 11), [Done]);
  }

  /**
   * The run fails exactly when open, the WAL pragma, CREATE TABLE, the seed
   * INSERT, the unlink of test.db or preparing the COUNT query fails. The
   * unlink fails when the engine has not created test.db, or it cannot be
   * removed.
   */
  lemma FatalPoints(d0: Disk, e: Engine)
    ensures RunResult(d0, e).Err? <==>
      e.open.Err? || e.journalMode.Err? || e.createTable.Err? || e.seedInsert.Err?
      || Db !in e.created || Db in d0.locked || e.prepareCount.Err?
  {
  }

  /**
   * The write after unlink, the invalid statement, the COUNT read and the
   * second CREATE TABLE never change the result, which headers are printed,
   * or the directory left behind.
   */
  lemma ObservationsNeverFatal(d0: Disk, e: Engine, write: Outcome<()>, invalid: Outcome<()>, count: Outcome<int>, create: Outcome<()>)
    ensures var e' := e.(writeAfterUnlink := write, invalidSql := invalid, queryCount := count, createTable2 := create);
      RunResult(d0, e') == RunResult(d0, e) && LastStep(d0, e') == LastStep(d0, e) && FinalDisk(d0, e') == FinalDisk(d0, e)
  {
  }

  lemma {:induction false} SectionSkip(a: seq<Line>, b: seq<Line>, k: nat)
    requires Header(k) !in a
    ensures Section(a + b, k) == Section(b, k)
  {
    if a != [] {
      assert (a + b)[0] == a[0] && (a + b)[1..] == a[1..] + b;
      assert a[0] in a;
      SectionSkip(a[1..], b, k);
    } else {
      assert a + b == b;
    }
  }

  lemma {:induction false} NotesAppend(a: seq<Line>, b: seq<Line>)
    requires AllNotes(a)
    ensures Notes(a + b) == a + Notes(b)
  {
    if a != [] {
      assert (a + b)[0] == a[0] && (a + b)[1..] == a[1..] + b;
      assert Notes(a + b) == [a[0]] + Notes(a[1..] + b);
      NotesAppend(a[1..], b);
      assert a == [a[0]] + a[1..];
    } else {
      assert a + b == b;
    }
  }

  /** Once a later step has started, step k's section is what step k printed. */
  lemma {:induction false} SectionOfPrinted(dir: Disk, e: Engine, k: nat, n: nat, tail: seq<Line>)
    requires 1 <= k <= n
    requires n == k ==> tail != [] && !tail[0].Note?
    ensures Section(Printed(dir, e, n) + tail, k) == Body(dir, e, k)
  {
    if n > k {
      var rest := [Header(n)] + Body(dir, e, n) + tail;
      assert Printed(dir, e, n) + tail == Printed(dir, e, n - 1) + rest;
      SectionOfPrinted(dir, e, k, n - 1, rest);
    } else {
      OwnSection(dir, e, k, tail);
    }
  }

  /** Step k's section, when the line after its body is not a note. */
  lemma OwnSection(dir: Disk, e: Engine, k: nat, tail: seq<Line>)
    requires 1 <= k
    requires tail != [] && !tail[0].Note?
    ensures Section(Printed(dir, e, k) + tail, k) == Body(dir, e, k)
  {
    var before := Printed(dir, e, k - 1);
    var body := Body(dir, e, k);
    var after := [Header(k)] + (body + tail);
    HeaderNotBefore(dir, e, k);
    PrintedStep(dir, e, k, tail);
    SectionSkip(before, after, k);
    assert after[0] == Header(k) && after[1..] == body + tail;
    assert Section(after, k) == Notes(body + tail);
    BodyIsNotes(dir, e, k);
    NotesAppend(body, tail);
    assert Notes(tail) == [];
  }

  /** Printing step k appends its header and body to the steps before it. */
  lemma PrintedStep(dir: Disk, e: Engine, k: nat, tail: seq<Line>)
    requires 1 <= k
    ensures Printed(dir, e, k) + tail == Printed(dir, e, k - 1) + ([Header(k)] + (Body(dir, e, k) + tail))
  {
    var before := Printed(dir, e, k - 1);
    var body := Body(dir, e, k);
    assert Printed(dir, e, k) == before + [Header(k)] + body;
    Regroup(before, [Header(k)], body, tail);
  }

  /** Concatenation regrouped to the right. */
  lemma Regroup<T>(a: seq<T>, b: seq<T>, c: seq<T>, d: seq<T>)
    ensures a + b + c + d == a + (b + (c + d))
  {
  }

  /** Step k's header is not among the lines of the steps before it. */
  lemma HeaderNotBefore(dir: Disk, e: Engine, k: nat)
    requires 1 <= k
    ensures Header(k) !in Printed(dir, e, k - 1)
  {
    var before := Printed(dir, e, k - 1);
    PrintedHeaders(dir, e, k - 1);
    var steps := Upto(k - 1);
    assert k !in steps by {
      forall i | 0 <= i < |steps| ensures steps[i] != k {
      }
    }
    if Header(k) in before {
      HeaderListed(before, k);
      assert false;
    }
  }

  /**
   * Each step the run gets past prints what its outcome dictates: the
   * existence lines in step 4, the unlink notice in step 5, and exactly one
   * line, chosen by Ok or Err, for each of steps 6 to 9.
   */
  lemma ObservedOutcomes(d0: Disk, e: Engine)
    ensures LastStep(d0, e) > 4 ==> Section(Transcript(d0, e), 4) == ExistsNotes(OpenedDisk(d0, e))
    ensures LastStep(d0, e) > 5 ==> Section(Transcript(d0, e), 5) == [Note("  " + Db + " has been unlinked!")]
    ensures LastStep(d0, e) > 6 ==> Section(Transcript(d0, e), 6) == [WriteNote(e.writeAfterUnlink)]
    ensures LastStep(d0, e) > 7 ==> Section(Transcript(d0, e), 7) == [InvalidSqlNote(e.invalidSql)]
    ensures LastStep(d0, e) > 8 ==> Section(Transcript(d0, e), 8) == [ReadNote(e.queryCount)]
    ensures LastStep(d0, e) > 9 ==> Section(Transcript(d0, e), 9) == [CreateNote(e.createTable2)]
  {
    var dir := OpenedDisk(d0, e);
    var k := LastStep(d0, e);
    match FirstFatal(d0, e)
    case Some(f) =>
      if k > 4 { SectionOfPrinted(dir, e, 4, k - 1, [Header(k)]); }
      if k > 5 { SectionOfPrinted(dir, e, 5, k - 1, [Header(k)]); }
      if k > 6 { SectionOfPrinted(dir, e, 6, k - 1, [Header(k)]); }
      if k > 7 { SectionOfPrinted(dir, e, 7, k - 1, [Header(k)]); }
      if k > 8 { assert false; }
    case None =>
      SectionOfPrinted(dir, e, 4, 11, [Done]);
      SectionOfPrinted(dir, e, 5, 11, [Done]);
      SectionOfPrinted(dir, e, 6, 11, [Done]);
      SectionOfPrinted(dir, e, 7, 11, [Done]);
      SectionOfPrinted(dir, e, 8, 11, [Done]);
      SectionOfPrinted(dir, e, 9, 11, [Done]);
  }

  /**
   * In the transcript, once step 7 is over, the only line under its header
   * is "Unexpected success" exactly when the invalid statement was accepted.
   */
  lemma InvalidSqlReport(d0: Disk, e: Engine)
    ensures LastStep(d0, e) > 7 ==> (Section(Transcript(d0, e), 7) == [Note("Unexpected success")] <==> e.invalidSql.Ok?)
  {
    ObservedOutcomes(d0, e);
    InvalidSqlNoteReports(e.invalidSql);
  }

  /** Once step 5 has completed, test.db is gone for the rest of the run. */
  lemma UnlinkRemovesDb(d0: Disk, e: Engine)
    ensures LastStep(d0, e) > 5 ==> Db !in FinalDisk(d0, e).files
  {
  }

  /**
   * The startup removals only matter through their effect on the directory:
   * two starting directories that differ only in which of the three files
   * are present and removable give the same run.
   */
  lemma StartupRemovalsIgnored(d0: Disk, d1: Disk, e: Engine)
    requires d0.locked == d1.locked
    requires d0.files - {Db, Wal, Shm} == d1.files - {Db, Wal, Shm}
    requires d0.files * d0.locked == d1.files * d1.locked
    ensures RunResult(d0, e) == RunResult(d1, e)
    ensures Transcript(d0, e) == Transcript(d1, e)
    ensures FinalDisk(d0, e) == FinalDisk(d1, e)
  {
    var removable := {Db, Wal, Shm} - d0.locked;
    forall x ensures x in d0.files - removable <==> x in d1.files - removable {
      if x in {Db, Wal, Shm} && x in d0.locked {
        assert (x in d0.files) == (x in d0.files * d0.locked);
        assert (x in d1.files) == (x in d1.files * d1.locked);
      } else if x !in {Db, Wal, Shm} {
        assert (x in d0.files) == (x in d0.files - {Db, Wal, Shm});
        assert (x in d1.files) == (x in d1.files - {Db, Wal, Shm});
      }
    }
    assert StartupDisk(d0) == StartupDisk(d1);
  }

  /** Whether the WAL and SHM files exist or can be removed never changes the result. */
  lemma SidecarsNeverFatal(d0: Disk, e: Engine, files: set<string>, locked: set<string>)
    requires files <= {Wal, Shm} && locked <= {Wal, Shm}
    ensures RunResult(Disk(d0.files + files, d0.locked + locked), e.(created := e.created + files)) == RunResult(d0, e)
  {
  }

  /**
   * A successful run in a directory where nothing is locked leaves none of
   * the three files behind, and every other file as it found it or as the
   * engine created it.
   */
  lemma CleanRunLeavesNoFiles(d0: Disk, e: Engine)
    requires RunResult(d0, e).Ok?
    requires d0.locked * {Db, Wal, Shm} == {}
    ensures FinalDisk(d0, e).files * {Db, Wal, Shm} == {}
    ensures FinalDisk(d0, e).files == (d0.files + e.created) - {Db, Wal, Shm}
  {
  }

  /** Running the probe twice in the same directory ends with the same absence of the three files. */
  lemma RunTwice(d0: Disk, first: Engine, second: Engine)
    requires RunResult(d0, first).Ok? && RunResult(FinalDisk(d0, first), second).Ok?
    requires d0.locked * {Db, Wal, Shm} == {}
    ensures FinalDisk(FinalDisk(d0, first), second).files * {Db, Wal, Shm} == FinalDisk(d0, first).files * {Db, Wal, Shm} == {}
  {
    CleanRunLeavesNoFiles(d0, first);
    CleanRunLeavesNoFiles(FinalDisk(d0, first), second);
  }
}
