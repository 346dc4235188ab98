# sqlite-unlink-test, modelled in Dafny

The program is a small diagnostic probe. It drives SQLite through one
experiment: it deletes the database file while a connection to it is
still open, then watches what happens. It has three parts with logic of
their own, and each is modelled here.

- **The diagnostic classifier.** This is the callback handed to
  `config_log`. It maps an SQLite result code to a severity and prints one
  line: INFO for code 0, DEBUG for the two recovery notices (283 = WAL,
  539 = rollback), WARN for every other code.
  The model is `Classifier.Classify` and `Classifier.LogLine`.
  `Classifier.ParseLogLine` is its partner: it reads a printed line back
  into the event.
- **The install-once guard.** A process-wide flag is swapped to `true`, and
  registration is attempted only if its old value was `false`. The model is
  `LogSetup.DiagnosticLog`: a class with the flag, a ghost count of
  registration attempts, and what was written to standard error.
- **The probe sequencer** (`main`). SQLite is replaced by an `Engine` value,
  which gives the outcome of every call the probe makes. The working
  directory is a `Disk`: the paths present, and the paths the OS refuses to
  remove. `Probe.RunProbe` sets up diagnostics and runs `Probe.RunSteps`,
  the imperative sequence with its early returns. Both are proved equal to
  the specification functions `RunResult`, `Transcript` and `FinalDisk`. What the program promises is
  proved about those functions in `ProbeProperties`.

Each `println!` of the probe is one `Probe.Line`: a numbered `Header`, a
`Note` or `Done`. `Probe.Render` gives the text each line puts on standard
output, and `Probe.RunProbe` also returns that text, line by line. Because lines are typed, a claim such as "no later header is
printed" cannot be confused by engine error text, which may contain
anything.

Files: `results.dfy` (Option/Outcome), `decimal.dfy` (how `{}` writes an
integer, and a parser for it), `classifier.dfy`, `log_setup.dfy`,
`probe.dfy`, `probe_properties.dfy`.

Three facts about the code that the model keeps:
- The code prints eleven numbered headers. The startup cleanup has no
  header.
- Besides the setup calls, two later calls end the run: the unlink of
  `test.db` (line 86) and `prepare` of the COUNT query (line 113). Both are
  `?`, so both are fatal, even though the unlink and the read belong to the
  experiment.
- Code 0 is printed as INFO, even though the comment beside it says it is
  left out of the log.

## Model

| member | source | states |
|---|---|---|
| `Decimal.NatToString` | src/main.rs:24-28 | a natural number is written as a non-empty run of digits, without a leading zero, and as one digit exactly when it is below 10 |
| `Decimal.IntToString` | src/main.rs:33-37 | the code's text is non-empty, starts with '-' exactly when the code is negative, and its digits carry no leading zero (`283`, `-283`, never `0283`) |
| `Decimal.IntToStringDigits` | src/main.rs:33-37 | after an optional leading '-', the code's text holds only decimal digits |
| `Decimal.IntToStringRoundTrip` | src/main.rs:24-37 | parsing the decimal text written for a code gives that code back |
| `Decimal.IntToStringInjective` | src/main.rs:24-37 | two different codes are never written the same way |
| `Classifier.Classify` | src/main.rs:15-40 | every code gets exactly one severity: INFO exactly for 0, DEBUG exactly for 283 and 539, WARN exactly for every other code, negative codes included |
| `Classifier.LogLine` | src/main.rs:16-39 | every line starts with `<SEV> [sqlite] ` and ends with the message verbatim; code 0 prints `INFO [sqlite] <message>` and is not suppressed; a DEBUG line carries `code=<decimal>: sqlite successfully recovered from a previous abnormal shutdown: `; a WARN line carries `error_code=<decimal>: ` |
| `Classifier.LogLineRoundTrip` | src/main.rs:15-40 | the printed line determines the event: reading it back gives the same code and the same message |
| `Classifier.LogLineInjective` | src/main.rs:15-40 | two different events never print the same line |
| `LogSetup.DiagnosticLog.constructor` | src/main.rs:9 | the flag starts false, with no attempt made and nothing written to stderr |
| `LogSetup.DiagnosticLog.Setup` | src/main.rs:11-45 | afterwards the flag is true. The first call makes exactly one registration attempt. A refusal writes one `Failed to setup sqlite logging: …` line to stderr, and nothing else, and the call still returns normally. Every later call changes nothing. The object invariant keeps the attempt count at most one |
| `LogSetup.FailureLine` | src/main.rs:41 | a refused registration prints the fixed lead `Failed to setup sqlite logging: ` followed by the error text, unchanged |
| `LogSetup.SetupOnce` | src/main.rs:49 | in a fresh process, setup writes to stderr exactly one failure line if registration is refused, and nothing otherwise |
| `LogSetup.SetupTwice` | src/main.rs:12-13 | setting up twice makes exactly one attempt; the second call's would-be answer never shows |
| `Probe.RemoveOutcome` | src/main.rs:56-58 | `fs::remove_file` succeeds exactly when the path is present and removable; on success it takes away that path and nothing else, on failure it changes nothing |
| `Probe.Title` | src/main.rs:60-131 | each of the eleven step titles ends in `...`; no other number has a title |
| `Probe.Render` | src/main.rs:60-135 | a header's text is a newline, then the step number in decimal (which reads back as that number), then `. ` and the step's title; a note prints its text unchanged; the end prints `\nDone` |
| `Probe.Printout` | src/main.rs:60-135 | the printed text has one entry per line of the transcript, each the text of that line |
| `Probe.ExistsNote` | src/main.rs:76-82 | an "exists" line is two spaces, the path, and ` exists`; the path can be read back from it |
| `Probe.ExistsNotes` | src/main.rs:75-83 | step 4 prints an "exists" line for `test.db`, `test.db-wal` or `test.db-shm` exactly when that path is present |
| `Probe.ExistsNotesExact` | src/main.rs:75-83 | step 4 prints nothing but "exists" lines for the three paths, as many as of them are present, in the order `test.db`, `test.db-wal`, `test.db-shm` |
| `Probe.WriteNoteReports` | src/main.rs:97-98 | after the write, the success text appears exactly when the write went through; a failure prints `  Write failed: ` and the error |
| `Probe.InvalidSqlNoteReports` | src/main.rs:107-108 | the invalid statement prints `Unexpected success` exactly when it is accepted; a rejection prints `Expected error: ` and the error |
| `Probe.ReadNoteReports` | src/main.rs:118-119 | a read prints the lead `  Read succeeded, count: ` exactly when it succeeds, followed by exactly the count's decimal text (no padding), which reads back as the count; a failure prints `  Read failed: ` and the error |
| `Probe.CreateNoteReports` | src/main.rs:124-125 | the second table's success text appears exactly when the schema change went through; a failure prints `  Table creation failed: ` and the error |
| `Probe.Body` | src/main.rs:74-135 | after its header a step prints only notes: steps 1 to 3, 10 and 11 print nothing more, and each of steps 5 to 9 prints exactly one line |
| `Probe.ReportFiles` | src/main.rs:74-83 | the three existence checks print exactly the lines `ExistsNotes` describes |
| `Probe.StartupDisk` | src/main.rs:55-58 | the startup removals take away each of the three files that can be removed, and nothing else |
| `Probe.RunProbe` | src/main.rs:47-138 | `main` returns `RunResult`, prints `Transcript` (as text, `Printout` of it), writes to stderr only the registration failure, and leaves `FinalDisk` behind |
| `Probe.RunSteps` | src/main.rs:55-138 | the steps after setup return `RunResult`, print `Transcript` and leave `FinalDisk`, stopping at the first fatal `?` |
| `ProbeProperties.PrintedHeaders` | src/main.rs:60-128 | printing steps 1 to k prints their headers once each, in order 1..k |
| `ProbeProperties.TranscriptHeaders` | src/main.rs:60-137 | the transcript's headers are exactly 1..LastStep in increasing order. A failed run ends at the failing step's header and never prints Done. A successful run prints headers 1 to 11 and then Done |
| `ProbeProperties.FatalPoints` | src/main.rs:64-113 | the run fails exactly when one of these calls fails: open, the WAL pragma, CREATE TABLE, the seed INSERT, the unlink of `test.db`, or `prepare` of the COUNT query. The unlink fails exactly when the engine has not created the file or it cannot be removed |
| `ProbeProperties.ObservationsNeverFatal` | src/main.rs:92-126 | the outcomes of the post-unlink write, the invalid SQL, `query_row` and `CREATE TABLE test2` never change the result, the last header printed, or the directory left behind |
| `ProbeProperties.SectionOfPrinted` | src/main.rs:60-128 | once a later step has started, the lines under step k's header are exactly what step k prints |
| `ProbeProperties.ObservedOutcomes` | src/main.rs:74-126 | when the run gets past each step, its header is followed by the step's lines: step 4 by the existence lines, step 5 by `  test.db has been unlinked!`, and steps 6 to 9 by exactly one line, chosen by the call's Ok or Err |
| `ProbeProperties.InvalidSqlReport` | src/main.rs:106-109 | once step 7 is over, the transcript shows "Unexpected success" as its only line exactly when the invalid statement was accepted |
| `ProbeProperties.UnlinkRemovesDb` | src/main.rs:85-87 | once step 5 has completed, `test.db` is absent from the directory the run leaves |
| `ProbeProperties.StartupRemovalsIgnored` | src/main.rs:55-58 | two starting directories that differ only in which removable copies of the three files they hold give the same result, transcript and final directory |
| `ProbeProperties.SidecarsNeverFatal` | src/main.rs:132-133 | whether the WAL and SHM files exist, or can be removed, never changes the result |
| `ProbeProperties.CleanRunLeavesNoFiles` | src/main.rs:131-137 | a successful run where nothing is locked leaves none of the three files, and keeps every other file it found or the engine created |
| `ProbeProperties.RunTwice` | src/main.rs:55-137 | two successful runs in the same directory end with the same absence of the three files |

## Left out

- The SQLite engine is not modelled. The outcomes of `Connection::open`, `pragma_update`, `execute`, `prepare` and `query_row` are answers in `Probe.Engine`. Their internals, and what SQLite does after the unlink, are not modelled.
- WAL/SHM file creation is not modelled. The files the engine creates are one set, `Engine.created`. They join the directory right after a successful open, so engine file creation after a later setup failure is not told apart.
- Closing the connection is not modelled. This covers the explicit `drop(conn)` at line 129, after which step 10 only prints its header. It also covers the implicit drop when a `?` at line 67, 70, 72, 86 or 113 returns early. On those paths `Probe.FinalDisk` keeps the files in `Engine.created`, as if the close removed nothing.
- When `main` returns an `Err`, the Rust runtime writes `Error: ` and the error's `Debug` form to standard error and exits with status 1. Neither is modelled: `stderr` holds only what the program writes itself, and the error is the `Err` of `result`.
- `LogSetup.FailureLine`: the registration error is written with `{:?}` (its `Debug` form). The model takes that text as an opaque string.
- `query_row` fails if converting the count to `i64` fails. That error is folded into the `Err` answer of `Engine.queryCount`. The count is an unbounded integer.
- `config_log` is an FFI call, and the flag uses `Ordering::SeqCst` atomics. Both are foreign. The `swap` is modelled as a single-threaded read-then-write. Registration is an `Outcome` parameter, and its error text is opaque.
- Diagnostic lines are not put into `Probe.Transcript`. The engine can emit them at any point during a call, so their place among the probe's own lines is not fixed. They are described by `Classifier.LogLine` alone.
- `Classifier.Classify`: the callback's `c_int` code is an unbounded integer. The rules use no arithmetic, so the 32-bit width changes nothing.
- The 100 ms `thread::sleep` at line 90 is timing, not logic.
- Terminal colours (`.green()`, `.red()`, `.bold()`, …) are not modelled. Lines carry the plain text.
- The text of engine errors (`e.to_string()`) is an opaque string.
- Of the filesystem errors, only two are modelled: NotFound for an absent path, and PermissionDenied for a path in `Disk.locked`. Other OS failures of `remove_file`, and POSIX inode semantics, are not modelled.
