/**
 * The run-result record that the test runner hands back after one execution
 * of the scenario suite, as far as the monitor reads it, and the snapshot the
 * monitor publishes before the first run completes.
 *
 * A field that the JavaScript object may lack (`undefined`) is an `Option`.
 */
module Results {
  import Text

  datatype Option<+T> = None | Some(value: T)

  /** One execution attempt of a test; only its duration (ms) is read. */
  datatype Attempt = Attempt(duration: nat)

  /** One scenario: its title segments (describe block, then it block), its state, its attempts. */
  datatype TestResult = TestResult(title: seq<string>, state: string, attempts: seq<Attempt>)

  /** One spec file's run: the path of its recorded video and its tests, in order. */
  datatype Run = Run(video: string, tests: seq<TestResult>)

  /** The aggregate fields of the run result, each possibly undefined. */
  datatype Totals = Totals(
    startedTestsAt: Option<string>,
    endedTestsAt: Option<string>,
    totalDuration: Option<int>,
    totalSuites: Option<int>,
    totalTests: Option<int>,
    totalFailed: Option<int>,
    totalPassed: Option<int>,
    totalPending: Option<int>,
    totalSkipped: Option<int>)

  /** A run result: the runs (possibly undefined) and the totals. */
  datatype Snapshot = Snapshot(runs: Option<seq<Run>>, totals: Totals)

  const Undefined: Totals :=
    Totals(None, None, None, None, None, None, None, None, None)

  /** The value of `currentSummary` at start-up: `{runs: []}`. */
  const InitialSnapshot: Snapshot := Snapshot(Some([]), Undefined)

  /** The display title of a test: its segments joined with " | ". */
  function TestTitle(t: TestResult): string
  {
    Text.Join(t.title, " | ")
  }

  /** All tests of all runs: run order first, then test order within a run. */
  function Flatten(runs: seq<Run>): seq<TestResult>
  {
    if runs == [] then []
    else Flatten(runs[..|runs| - 1]) + runs[|runs| - 1].tests
  }

  /** The number of tests over all runs: the sum of the runs' test counts. */
  function TestCount(runs: seq<Run>): nat
  {
    if runs == [] then 0
    else |runs[0].tests| + TestCount(runs[1..])
  }

  /** Test count is additive over concatenated run lists. */
  lemma {:induction false} TestCountAppend(a: seq<Run>, b: seq<Run>)
    ensures TestCount(a + b) == TestCount(a) + TestCount(b)
  {
    if a == [] {
      assert a + b == b;
    } else {
      TestCountAppend(a[1..], b);
      assert (a + b)[1..] == a[1..] + b;
    }
  }

  /** Flattening distributes over concatenation of run lists. */
  lemma {:induction false} FlattenAppend(a: seq<Run>, b: seq<Run>)
    ensures Flatten(a + b) == Flatten(a) + Flatten(b)
  {
    if b == [] {
      assert a + b == a;
    } else {
      var front, run := b[..|b| - 1], b[|b| - 1];
      FlattenAppend(a, front);
      assert (a + b)[..|a + b| - 1] == a + front;
      assert (a + b)[|a + b| - 1] == run;
      assert Flatten(a + b) == Flatten(a + front) + run.tests;
      assert Flatten(b) == Flatten(front) + run.tests;
    }
  }

  /** The flattened list holds exactly as many tests as the runs together. */
  lemma {:induction false} FlattenLength(runs: seq<Run>)
    ensures |Flatten(runs)| == TestCount(runs)
  {
    if runs != [] {
      FlattenLength(runs[1..]);
      FlattenAppend([runs[0]], runs[1..]);
      assert [runs[0]] + runs[1..] == runs;
      assert Flatten([runs[0]]) == Flatten([]) + runs[0].tests;
    }
  }

  /**
   * The tests of the runs before run `i`, then the first `j` tests of run `i`,
   * are the first tests of the flattened list.
   */
  lemma {:induction false} FlattenPrefix(runs: seq<Run>, i: nat, j: nat)
    requires i < |runs| && j <= |runs[i].tests|
    ensures var p := |Flatten(runs[..i])| + j;
            && p <= |Flatten(runs)|
            && Flatten(runs)[..p] == Flatten(runs[..i]) + runs[i].tests[..j]
            && (j < |runs[i].tests| ==> p < |Flatten(runs)| && Flatten(runs)[p] == runs[i].tests[j])
  {
    assert runs == runs[..i] + [runs[i]] + runs[i + 1..];
    FlattenAppend(runs[..i] + [runs[i]], runs[i + 1..]);
    FlattenAppend(runs[..i], [runs[i]]);
    assert Flatten([runs[i]]) == Flatten([]) + runs[i].tests;
    assert Flatten(runs) == Flatten(runs[..i]) + runs[i].tests + Flatten(runs[i + 1..]);
  }

  /** Run `i`'s tests follow the tests of the runs before it. */
  lemma FlattenNext(runs: seq<Run>, i: nat)
    requires i < |runs|
    ensures Flatten(runs[..i + 1]) == Flatten(runs[..i]) + runs[i].tests
  {
    assert runs[..i + 1][..i] == runs[..i];
  }
}
