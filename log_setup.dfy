/**
 * The install-once guard around the diagnostic callback: a process-wide flag
 * that is swapped to true, with registration attempted only when its old
 * value was false.
 */
module LogSetup {
  import opened Results

  const FailurePrefix := "Failed to setup sqlite logging: "

  /** The standard-error line written when registration is refused: a fixed lead, then the engine's error text. */
  function FailureLine(detail: string): (line: string)
    ensures FailurePrefix <= line && line[|FailurePrefix|..] == detail
  {
    FailurePrefix + detail
  }

  /**
   * The process-wide registration state. `initialized` is the atomic flag;
   * `attempts` counts the calls into the engine's registration, `installed`
   * records whether one of them was accepted; `stderr` is what this code has
   * written to standard error.
   */
  class DiagnosticLog {
    var initialized: bool
    ghost var attempts: nat
    ghost var installed: bool
    var stderr: seq<string>

    /** At most one attempt ever, made exactly when the flag went up; if it
        failed, its one error line is all that stderr holds. */
    ghost predicate Valid()
      reads this
    {
      && attempts == (if initialized then 1 else 0)
      && (installed ==> initialized)
      && (!initialized ==> stderr == [])
      && (initialized && installed ==> stderr == [])
      && (initialized && !installed ==> |stderr| == 1)
    }

    /** The flag's value at process start. */
    constructor ()
      ensures Valid()
      ensures !initialized && attempts == 0 && !installed && stderr == []
    {
      initialized := false;
      attempts := 0;
      installed := false;
      stderr := [];
    }

    /**
     * `registration` is what the engine answers if asked to install the
     * callback. The first call asks once and reports a refusal on stderr;
     * every later call changes nothing. Neither path fails.
     */
    method Setup(registration: Outcome<()>)
      requires Valid()
      modifies this
      ensures Valid() && initialized
      ensures old(initialized) ==> attempts == old(attempts) && installed == old(installed) && stderr == old(stderr)
      ensures !old(initialized) ==> attempts == old(attempts) + 1 && installed == registration.Ok?
      ensures !old(initialized) ==> stderr == old(stderr) + (if registration.Err? then [FailureLine(registration.error)] else [])
    {
      var wasInitialized := initialized;
      initialized := true;
      if !wasInitialized {
        attempts := attempts + 1;
        match registration
        case Ok(_) =>
          installed := true;
        case Err(detail) =>
          stderr := stderr + [FailureLine(detail)];
      }
    }
  }

  /** `setup_sqlite_logging` called once in a fresh process: returns what it writes to stderr. */
  method SetupOnce(registration: Outcome<()>) returns (stderr: seq<string>)
    ensures stderr == (if registration.Err? then [FailureLine(registration.error)] else [])
  {
    var log := new DiagnosticLog();
    log.Setup(registration);
    stderr := log.stderr;
  }

  /** A process that sets up logging twice still asks the engine only once,
      and whatever the second answer would have been, it is never asked. */
  method SetupTwice(first: Outcome<()>, second: Outcome<()>) returns (ghost attempts: nat, stderr: seq<string>)
    ensures attempts == 1
    ensures stderr == (if first.Err? then [FailureLine(first.error)] else [])
  {
    var log := new DiagnosticLog();
    log.Setup(first);
    log.Setup(second);
    attempts := log.attempts;
    stderr := log.stderr;
  }
}
