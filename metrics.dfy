/**
 * The Prometheus gauges of index.js and `updateGauges`, which writes one
 * status value per test and a rollup value into the `scenario_status` gauge.
 *
 * As written, the duration of each test is set on the status gauge under the
 * test's own label right after its state value, so the state value never
 * survives; the `scenario_timing` gauge is never written.
 */
module Metrics {
  import opened Results

  /** The label of the overall pass/fail observation. */
  const RollupLabel := "rollup"

  /** A gauge with one label (`scenario`): the last value set for each label value. */
  class Gauge {
    const name: string
    var values: map<string, int>

    constructor (name: string)
      ensures this.name == name && values == map[]
    {
      this.name := name;
      values := map[];
    }

    /** `gauge.set({scenario}, value)`: last write wins. */
    method Set(scenario: string, value: int)
      modifies this
      ensures values == old(values)[scenario := value]
    {
      values := values[scenario := value];
    }
  }

  /** The status value of a test state: passed 1, failed -1, anything else 0. */
  function StateValue(state: string): (v: int)
    ensures v == 1 <==> state == "passed"
    ensures v == -1 <==> state == "failed"
    ensures v == 0 <==> state != "passed" && state != "failed"
  {
    if state == "failed" then -1
    else if state == "passed" then 1
    else 0
  }

  /** A test has a first attempt, so reading `attempts[0].duration` does not throw. */
  predicate Attempted(t: TestResult)
  {
    |t.attempts| > 0
  }

  /** The two writes for one test: its state value, then its duration, under its title. */
  function Record(m: map<string, int>, t: TestResult): map<string, int>
    requires Attempted(t)
  {
    var title := TestTitle(t);
    m[title := StateValue(t.state)][title := t.attempts[0].duration]
  }

  /** Every test of the list has a first attempt. */
  predicate AllAttempted(ts: seq<TestResult>)
  {
    forall i :: 0 <= i < |ts| ==> Attempted(ts[i])
  }

  /** The writes for a list of tests, in order. */
  function RecordAll(m: map<string, int>, ts: seq<TestResult>): map<string, int>
    requires AllAttempted(ts)
  {
    if ts == [] then m
    else Record(RecordAll(m, ts[..|ts| - 1]), ts[|ts| - 1])
  }

  /** The position of the first test without an attempt (`|ts|` when there is none). */
  function FirstUnattempted(ts: seq<TestResult>): (k: nat)
    ensures k <= |ts|
    ensures AllAttempted(ts[..k])
    ensures k < |ts| ==> !Attempted(ts[k])
  {
    if ts == [] then 0
    else if !Attempted(ts[0]) then 0
    else
      var k := 1 + FirstUnattempted(ts[1..]);
      assert forall i :: 1 <= i < k ==> ts[..k][i] == ts[1..][..k - 1][i - 1];
      k
  }

  /** The `allPassing` flag after a list of tests: cleared by every failed test. */
  predicate AllPassing(ts: seq<TestResult>)
  {
    if ts == [] then true
    else AllPassing(ts[..|ts| - 1]) && ts[|ts| - 1].state != "failed"
  }

  /** The rollup value: 1 when all passing, -1 otherwise. */
  function Rollup(ts: seq<TestResult>): int
  {
    if AllPassing(ts) then 1 else -1
  }

  /** The status gauge after `updateGauges`, and whether it returned (rather than threw). */
  datatype Update = Update(values: map<string, int>, completed: bool)

  /**
   * `updateGauges` on a gauge holding `m`: undefined `runs` throws before any
   * write; a test without attempts throws after the writes of the tests before
   * it; otherwise every test is recorded and the rollup is written last.
   */
  function UpdateOf(m: map<string, int>, results: Snapshot): Update
  {
    match results.runs
    case None => Update(m, false)
    case Some(runs) =>
      var ts := Flatten(runs);
      var k := FirstUnattempted(ts);
      if k == |ts| then Update(RecordAll(m, ts)[RollupLabel := Rollup(ts)], true)
      else Update(RecordAll(m, ts[..k]), false)
  }

  /** A prefix of attempted tests followed by an unattempted one locates the first. */
  lemma FirstUnattemptedAt(ts: seq<TestResult>, p: nat)
    requires p < |ts| && AllAttempted(ts[..p]) && !Attempted(ts[p])
    ensures FirstUnattempted(ts) == p
  {
    var k := FirstUnattempted(ts);
    assert forall i :: 0 <= i < p ==> ts[..p][i] == ts[i];
    assert forall i :: 0 <= i < k ==> ts[..k][i] == ts[i];
  }

  /** When every test has an attempt, none is the first without one. */
  lemma FirstUnattemptedNone(ts: seq<TestResult>)
    requires AllAttempted(ts)
    ensures FirstUnattempted(ts) == |ts|
  {
  }

  /** `updateGauges` throws at test `j` of run `i` when that test has no attempt. */
  lemma UpdateStopsAt(m: map<string, int>, results: Snapshot, i: nat, j: nat)
    requires results.runs.Some?
    requires i < |results.runs.value| && j < |results.runs.value[i].tests|
    requires AllAttempted(Flatten(results.runs.value[..i]) + results.runs.value[i].tests[..j])
    requires !Attempted(results.runs.value[i].tests[j])
    ensures var runs := results.runs.value;
            UpdateOf(m, results) == Update(RecordAll(m, Flatten(runs[..i]) + runs[i].tests[..j]), false)
  {
    var runs := results.runs.value;
    FlattenPrefix(runs, i, j);
    FirstUnattemptedAt(Flatten(runs), |Flatten(runs[..i])| + j);
  }

  /** `updateGauges` returns when every test has an attempt. */
  lemma UpdateCompletes(m: map<string, int>, results: Snapshot)
    requires results.runs.Some? && AllAttempted(Flatten(results.runs.value))
    ensures var ts := Flatten(results.runs.value);
            UpdateOf(m, results) == Update(RecordAll(m, ts)[RollupLabel := Rollup(ts)], true)
  {
    FirstUnattemptedNone(Flatten(results.runs.value));
  }

  /** One more test extends the writes and the flag by that test. */
  lemma RecordStep(m: map<string, int>, done: seq<TestResult>, t: TestResult)
    requires AllAttempted(done) && Attempted(t)
    ensures AllAttempted(done + [t])
    ensures RecordAll(m, done + [t]) == Record(RecordAll(m, done), t)
    ensures AllPassing(done + [t]) == (AllPassing(done) && t.state != "failed")
  {
    assert (done + [t])[..|done|] == done;
  }

  /**
   * `updateGauges(results)`: nested loops over the runs and their tests. A
   * `TypeError` thrown by the JavaScript code is `completed == false`.
   */
  method UpdateGauges(status: Gauge, timing: Gauge, results: Snapshot) returns (completed: bool)
    requires status != timing
    modifies status
    ensures status.values == UpdateOf(old(status.values), results).values
    ensures completed == UpdateOf(old(status.values), results).completed
    ensures timing.values == old(timing.values)
  {
    if results.runs.None? {
      // `results.runs.forEach` on undefined
      return false;
    }
    var runs := results.runs.value;
    ghost var m := status.values;
    var allPassing := true;
    var i := 0;
    while i < |runs|
      invariant 0 <= i <= |runs|
      invariant AllAttempted(Flatten(runs[..i]))
      invariant status.values == RecordAll(m, Flatten(runs[..i]))
      invariant allPassing == AllPassing(Flatten(runs[..i]))
    {
      var runCompleted;
      allPassing, runCompleted := RecordTests(status, runs[i].tests, allPassing, m, Flatten(runs[..i]));
      if !runCompleted {
        UpdateStopsAt(m, results, i, FirstUnattempted(runs[i].tests));
        return false;
      }
      FlattenNext(runs, i);
      assert runs[i].tests[..|runs[i].tests|] == runs[i].tests;
      i := i + 1;
    }
    assert runs[..i] == runs;
    UpdateCompletes(m, results);
    status.Set(RollupLabel, if allPassing then 1 else -1);
    return true;
  }

  /**
   * The body of `run.tests.forEach(...)` in `updateGauges`: records each test
   * in turn after the tests `before`, clearing the flag on a failed test, and
   * stops at the first test without an attempt.
   */
  method RecordTests(status: Gauge, tests: seq<TestResult>, allPassing: bool,
                     ghost m: map<string, int>, ghost before: seq<TestResult>)
    returns (passing: bool, completed: bool)
    requires AllAttempted(before)
    requires status.values == RecordAll(m, before)
    requires allPassing == AllPassing(before)
    modifies status
    ensures var k := FirstUnattempted(tests);
            && completed == (k == |tests|)
            && AllAttempted(before + tests[..k])
            && status.values == RecordAll(m, before + tests[..k])
            && passing == AllPassing(before + tests[..k])
  {
    passing := allPassing;
    ghost var done := before;
    var j := 0;
    assert tests[..j] == [];
    while j < |tests|
      invariant 0 <= j <= |tests|
      invariant AllAttempted(tests[..j])
      invariant done == before + tests[..j]
      invariant AllAttempted(done)
      invariant status.values == RecordAll(m, done)
      invariant passing == AllPassing(done)
    {
      var test := tests[j];
      var title := TestTitle(test);
      if |test.attempts| == 0 {
        // `test.attempts[0].duration` on undefined
        FirstUnattemptedAt(tests, j);
        return passing, false;
      }
      var duration := test.attempts[0].duration;
      var state := 0;
      if test.state == "passed" {
        state := 1;
      }
      if test.state == "failed" {
        state := -1;
        passing := false;
      }
      status.Set(title, state);
      status.Set(title, duration);
      RecordStep(m, done, test);
      done := done + [test];
      assert tests[..j + 1] == tests[..j] + [test];
      j := j + 1;
    }
    assert tests[..j] == tests;
    FirstUnattemptedNone(tests);
    return passing, true;
  }

  /** The flag stays set exactly when no test failed. */
  lemma {:induction false} AllPassingIff(ts: seq<TestResult>)
    ensures AllPassing(ts) <==> forall i :: 0 <= i < |ts| ==> ts[i].state != "failed"
  {
    if ts != [] {
      var front := ts[..|ts| - 1];
      AllPassingIff(front);
      assert forall i :: 0 <= i < |front| ==> front[i] == ts[i];
    }
  }

  /**
   * The rollup is -1 exactly when some test failed and 1 otherwise: pending and
   * skipped tests, and an empty list, give 1.
   */
  lemma RollupFailedIff(ts: seq<TestResult>)
    ensures Rollup(ts) == -1 <==> exists i :: 0 <= i < |ts| && ts[i].state == "failed"
    ensures Rollup(ts) == 1 <==> forall i :: 0 <= i < |ts| ==> ts[i].state != "failed"
  {
    AllPassingIff(ts);
  }

  /** The duration written second replaces the state value under the same label. */
  lemma StateValueOverwritten(m: map<string, int>, t: TestResult)
    requires Attempted(t)
    ensures Record(m, t) == m[TestTitle(t) := t.attempts[0].duration]
  {
  }

  /**
   * After recording a list of tests, a test's label holds that test's duration
   * when no later test has the same title: the later test wins.
   */
  lemma {:induction false} LastWriteWins(m: map<string, int>, ts: seq<TestResult>, i: nat)
    requires AllAttempted(ts) && i < |ts|
    requires forall k :: i < k < |ts| ==> TestTitle(ts[k]) != TestTitle(ts[i])
    ensures TestTitle(ts[i]) in RecordAll(m, ts)
    ensures RecordAll(m, ts)[TestTitle(ts[i])] == ts[i].attempts[0].duration
  {
    var front := ts[..|ts| - 1];
    assert AllAttempted(front) by {
      assert forall k :: 0 <= k < |front| ==> front[k] == ts[k];
    }
    if i < |ts| - 1 {
      assert front[i] == ts[i];
      assert forall k :: i < k < |front| ==> front[k] == ts[k];
      LastWriteWins(m, front, i);
    }
  }

  /** A label that is no test's title keeps the entry it had before. */
  lemma {:induction false} UntitledUnchanged(m: map<string, int>, ts: seq<TestResult>, scenario: string)
    requires AllAttempted(ts)
    requires forall k :: 0 <= k < |ts| ==> TestTitle(ts[k]) != scenario
    ensures scenario in RecordAll(m, ts) <==> scenario in m
    ensures scenario in m ==> RecordAll(m, ts)[scenario] == m[scenario]
  {
    if ts != [] {
      var front := ts[..|ts| - 1];
      assert forall k :: 0 <= k < |front| ==> front[k] == ts[k];
      UntitledUnchanged(m, front, scenario);
    }
  }

  /**
   * `updateGauges` returns exactly when `runs` is defined and every test has an
   * attempt; it then leaves the rollup at -1 when some test failed and at 1
   * otherwise, whatever the test titles are.
   */
  lemma UpdateRollup(m: map<string, int>, results: Snapshot)
    ensures UpdateOf(m, results).completed <==>
              results.runs.Some? && AllAttempted(Flatten(results.runs.value))
    ensures UpdateOf(m, results).completed ==>
              var ts := Flatten(results.runs.value);
              && RollupLabel in UpdateOf(m, results).values
              && (UpdateOf(m, results).values[RollupLabel] == -1 <==>
                    exists i :: 0 <= i < |ts| && ts[i].state == "failed")
              && (UpdateOf(m, results).values[RollupLabel] == 1 <==>
                    forall i :: 0 <= i < |ts| ==> ts[i].state != "failed")
  {
    if results.runs.Some? {
      var ts := Flatten(results.runs.value);
      assert ts[..|ts|] == ts;
      if AllAttempted(ts) {
        UpdateCompletes(m, results);
        assert UpdateOf(m, results).values[RollupLabel] == Rollup(ts);
        RollupFailedIff(ts);
      }
    }
  }

  /**
   * After a completed `updateGauges`, a test's label (other than "rollup")
   * holds its first attempt's duration, not its state value, when no later
   * test has the same title.
   */
  lemma UpdateTitleHoldsDuration(m: map<string, int>, results: Snapshot, i: nat)
    requires UpdateOf(m, results).completed
    requires i < |Flatten(results.runs.value)|
    requires var ts := Flatten(results.runs.value);
             && TestTitle(ts[i]) != RollupLabel
             && forall k :: i < k < |ts| ==> TestTitle(ts[k]) != TestTitle(ts[i])
    ensures var t := Flatten(results.runs.value)[i];
            && Attempted(t)
            && TestTitle(t) in UpdateOf(m, results).values
            && UpdateOf(m, results).values[TestTitle(t)] == t.attempts[0].duration
  {
    var ts := Flatten(results.runs.value);
    UpdateRollup(m, results);
    LastWriteWins(m, ts, i);
  }
}
