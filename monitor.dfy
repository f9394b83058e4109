/**
 * One pass of the monitor's loop in `init` (index.js): remove the previous
 * raw results, run the suite, publish the run result as `currentSummary`,
 * then regenerate the HTML report. The three external steps are given by
 * their outcomes.
 *
 * The steps form one promise chain under a single `await` with no `catch`:
 * a rejection anywhere skips the rest of the chain and escapes `init`, so the
 * loop does not reach its sleep and does not run again.
 */
module Orchestrator {
  import opened Results

  /** The outcome of a step that yields no value (cleanup, report generation). */
  datatype Outcome = Resolved | Rejected

  /** The outcome of the test run: the runner's result, or a rejection. */
  datatype RunOutcome = Completed(result: Snapshot) | Crashed

  /** The step whose rejection ended the loop. */
  datatype Stage = Cleanup | TestRun | Report

  /** After one pass: go on to sleep and loop again, or leave `init` with a rejection. */
  datatype Status = Continue | Stopped(stage: Stage)

  datatype StepResult = StepResult(snapshot: Snapshot, status: Status)

  /**
   * One pass of the loop on the published snapshot `current`: the run result
   * is published exactly when cleanup and the run both resolve, a failing
   * report does not take it back, the loop goes on exactly when all three
   * steps resolve, and otherwise it stops at the first step that rejects.
   */
  function Step(current: Snapshot, cleanup: Outcome, run: RunOutcome, report: Outcome): (r: StepResult)
    ensures r.snapshot == (if cleanup.Resolved? && run.Completed? then run.result else current)
    ensures r.status.Continue? <==> cleanup.Resolved? && run.Completed? && report.Resolved?
    ensures r.status == Stopped(Report) ==> run.Completed? && r.snapshot == run.result
    ensures r.status == Stopped(Cleanup) ==> cleanup.Rejected? && r.snapshot == current
    ensures r.status == Stopped(TestRun) ==> run.Crashed? && r.snapshot == current
    ensures cleanup.Rejected? ==> r.status == Stopped(Cleanup)
    ensures cleanup.Resolved? && run.Crashed? ==> r.status == Stopped(TestRun)
    ensures cleanup.Resolved? && run.Completed? && report.Rejected? ==> r.status == Stopped(Report)
  {
    match cleanup
    case Rejected => StepResult(current, Stopped(Cleanup))
    case Resolved =>
      match run
      case Crashed => StepResult(current, Stopped(TestRun))
      case Completed(result) =>
        match report
        case Rejected => StepResult(result, Stopped(Report))
        case Resolved => StepResult(result, Continue)
  }

  /** The process-wide state of the monitor: the published run result. */
  class Monitor {
    var currentSummary: Snapshot

    /** At start-up `currentSummary` is `{runs: []}`. */
    constructor ()
      ensures currentSummary == InitialSnapshot
    {
      currentSummary := InitialSnapshot;
    }

    /** One pass of the loop body, up to (not including) the sleep. */
    method Iterate(cleanup: Outcome, run: RunOutcome, report: Outcome) returns (status: Status)
      modifies this
      ensures currentSummary == Step(old(currentSummary), cleanup, run, report).snapshot
      ensures status == Step(old(currentSummary), cleanup, run, report).status
    {
      if cleanup.Rejected? {
        return Stopped(Cleanup);
      }
      if run.Crashed? {
        return Stopped(TestRun);
      }
      currentSummary := run.result;
      if report.Rejected? {
        return Stopped(Report);
      }
      return Continue;
    }
  }
}
