# Synthetic Cypress monitoring — a Dafny model of its core

The monitor runs a Cypress scenario suite in a loop. After each pass it keeps
the run result as `currentSummary` and regenerates an HTML report. It serves
a JSON summary of the last run at `/`. Prometheus gauges are declared for
each scenario's status and timing. This project models the logic in
`index.js` that turns run results into the published summary and gauge
values. It also models one pass of the loop that replaces the published run
result.

Modules:

- `Text` (text.dfy): JavaScript's `Array.prototype.join` and
  `String.prototype.split` on a one-character separator, with their exact
  edge cases: `[].join(s)` is `""` and `"".split("/")` is `[""]`. It also
  models the idiom `path.split("/").slice(-1)[0]`. The two string functions
  are proved inverse to each other.
- `Results` (results.dfy): the parts of the runner's result object that the
  monitor reads. A field the JavaScript object may lack is an `Option`. The
  module also holds the start-up value `{runs: []}` and the flattening of
  runs into their tests, run by run.
- `Summary` (summary.dfy): `summaryAsJson`. The method `SummaryAsJson` keeps
  the source's nested loops that push one entry per test. It is proved equal
  to the function `Summarize`, and the lemmas state what `Summarize` promises:
  - one entry per test, in order;
  - each entry has the joined title, the state and the run's video link;
  - undefined `runs` gives no entries;
  - the totals are copied unchanged;
  - every link lies under the base URL.
- `Metrics` (metrics.dfy): the two gauges as a class over a label-to-value
  map, and `updateGauges` as a method with the source's nested loops. It is
  proved against the function `UpdateOf`. The `TypeError`s that the
  JavaScript throws are modelled as `completed == false`, with the writes made
  before the throw kept. One throw comes from undefined `runs`; the other
  comes from a test without attempts.
- `Orchestrator` (monitor.dfy): the `currentSummary` state as a class, and one
  pass of the loop body as the method `Iterate`. The pass is cleanup, test
  run, publish, then report. The outcomes of the three external steps are
  parameters.

Behaviour of the code as written that the model keeps:

- `updateGauges` sets the status gauge twice under the test's title. The
  second write is the first attempt's duration. So after a test the status
  gauge holds its duration and not its state value, and the timing gauge is
  never written (`StateValueOverwritten`, `UpdateTitleHoldsDuration`).
- Both calls to `updateGauges` are commented out (index.js lines 140 and 158).
  The operation is modelled as written, but no pass of the loop invokes it.
- The chain in `init` sits under one `await` with no `catch`. A rejected
  cleanup, run or report step therefore escapes `init`, and the loop ends
  (`Stopped`). A monitor would be expected to keep looping after a failed
  pass; this code does not, and the model follows the code.
- `summaryAsJson` reads the totals from the global `currentSummary` and the
  tests from its `results` argument. Its only caller passes `currentSummary`
  as that argument, so the model takes one snapshot for both.

## Model

| member | source | states |
|---|---|---|
| Text.Join | index.js:106 | `parts.join(sep)` with the empty list joining to the empty string; `JoinSplit` and `SplitJoin` prove it inverse to `Split` on one-character separators |
| Text.Split | index.js:103 | `split` always yields at least one piece, and no piece contains the separator |
| Text.LastSegmentSuffix | index.js:103 | the last `/` piece is the longest `/`-free suffix of the path: it is preceded by `/` when shorter than the path, and it is the whole path when the path has no `/` |
| Text.LastSegment | index.js:103 | `path.split("/").slice(-1)[0]`; `LastSegmentSuffix` proves it is the `/`-free suffix after the path's last `/`, or the whole path when there is none |
| Text.JoinSplit | index.js:103 | joining the pieces of a split with the separator gives back the original string |
| Text.SplitJoin | index.js:106 | splitting a join of separator-free pieces (at least one) gives back the pieces |
| Results.TestTitle | index.js:106 | a test's title segments joined with the title separator; `ExampleTitle` and `EntryAt` state its value in the summary |
| Results.Flatten | index.js:79-80 | all tests of all runs, run order first and test order within a run, as the nested `forEach` loops visit them; `FlattenAppend`, `FlattenPrefix` and `FlattenNext` prove that each run's tests follow those of the runs before it |
| Results.FlattenLength | index.js:79-80 | the nested loops visit exactly as many tests as the runs hold together, so positions in the visiting order and positions in the summary use the same count |
| Results.FlattenPrefix | index.js:79-80 | the tests of the runs before run `i`, then the first `j` tests of run `i`, are exactly the first tests the nested loops visit, and the next one visited is test `j` of run `i` |
| Summary.VideoLink | index.js:102-103 | a run's video link; `VideoLinkShape` states its form and `ExampleVideoLink` its value for a concrete path |
| Summary.VideoLinkShape | index.js:102-103 | a video link is the base URL, then `/videos/`, then the file name after the video path's last `/` (the whole path when it has none) |
| Summary.TestEntries | index.js:105-109 | a run contributes exactly one entry per test |
| Summary.Assemble | index.js:114-131 | the document around the tests: totals copied, four links under the base URL; `LinksUnderBase` states the links |
| Summary.Entries | index.js:101-110 | the entries of all runs, run after run, each run's tests sharing its video link; `EntriesLength` and `EntryAt` state its length and each entry |
| Summary.Summarize | index.js:98-132 | undefined `runs` gives an empty test list rather than an error; otherwise there is one entry per test over all runs; the totals are the snapshot's totals, undefined fields staying undefined |
| Summary.SummaryAsJson | index.js:98-132 | the nested push loops build exactly the document `Summarize` describes |
| Summary.EntriesLength | index.js:99-110 | the entry list is as long as the total number of tests across runs |
| Summary.EntryAt | index.js:101-109 | test `j` of run `i` becomes the entry just after all tests of earlier runs, with its title segments joined by the title separator (`TestTitle`), its state unchanged and its own run's video link |
| Summary.LinksUnderBase | index.js:127-130 | the status page, videos, screenshots and metrics links are the base URL with their fixed paths, and every entry's video link is the base URL, `/videos/` and a `/`-free file name |
| Summary.EntryLinksUnderVideos | index.js:102-108 | every entry built from a list of runs carries a video link under `/videos/` of the base URL |
| Summary.InitialSummary | index.js:36 | before the first run completes, the summary has no tests and every total is undefined |
| Summary.GooseSighting | index.js:98-132 | one passing "Goose Sighting" test recorded to `/a/b/vid.mp4` is summarised for `http://host:3000` as a single entry whose title is both title segments joined, whose state is `passed` and whose link is `http://host:3000/videos/vid.mp4`, with the run's defined totals carried over unchanged |
| Metrics.Gauge.constructor | index.js:19-29 | a new gauge has its name and no label values |
| Metrics.Gauge.Set | index.js:91 | setting a label's value replaces that label's value and leaves every other label unchanged |
| Metrics.StateValue | index.js:83-88 | the state value is 1 exactly for "passed", -1 exactly for "failed", and 0 exactly for any other state |
| Metrics.Record | index.js:91-92 | the two writes for one test under its title, state value then duration; `StateValueOverwritten` proves the label ends holding the duration |
| Metrics.RecordAll | index.js:79-94 | the writes for all tests in visiting order; `LastWriteWins` and `UntitledUnchanged` state what each label holds afterwards |
| Metrics.AllPassing | index.js:77-88 | the `allPassing` flag after a list of tests; `AllPassingIff` proves it holds exactly when no test failed |
| Metrics.Rollup | index.js:95 | the rollup value written last; `RollupFailedIff` proves it is -1 exactly when some test failed and 1 otherwise |
| Metrics.UpdateOf | index.js:76-96 | the status gauge after `updateGauges` and whether the call returns; `UpdateRollup`, `UpdateStopsAt`, `UpdateCompletes` and `UpdateTitleHoldsDuration` state its throw conditions, partial writes, rollup and per-title values, and `UpdateGauges` is proved equal to it |
| Metrics.FirstUnattempted | index.js:82 | locates the first test without an attempt (the one at which reading `attempts[0].duration` throws); every test before it has an attempt |
| Metrics.UpdateGauges | index.js:76-96 | the status gauge ends as `UpdateOf` says and the call completes exactly when `UpdateOf` says; the timing gauge is unchanged |
| Metrics.RecordTests | index.js:80-93 | the inner loop records every test up to the first without an attempt, and stops there; the flag is cleared exactly when a recorded test failed |
| Metrics.UpdateStopsAt | index.js:79-93 | when test `j` of run `i` is the first without an attempt, the call throws, and the gauge keeps the writes of all tests before it |
| Metrics.UpdateCompletes | index.js:79-95 | when every test has an attempt, the call completes: every test is recorded, then the rollup |
| Metrics.RecordStep | index.js:80-93 | recording one more test applies that test's writes on top of the earlier ones and clears the flag exactly when that test failed |
| Metrics.AllPassingIff | index.js:77-88 | the `allPassing` flag stays set exactly when no test failed |
| Metrics.RollupFailedIff | index.js:95 | the rollup value is -1 exactly when some test failed, and 1 exactly when none failed (pending, skipped and no tests give 1) |
| Metrics.StateValueOverwritten | index.js:91-92 | the two writes for a test leave its label holding the first attempt's duration; the state value does not survive |
| Metrics.LastWriteWins | index.js:79-94 | after recording a list of tests, a test's label holds that test's duration unless a later test has the same title |
| Metrics.UntitledUnchanged | index.js:79-94 | a label that is no test's title keeps the value it had, and is present exactly when it was |
| Metrics.UpdateRollup | index.js:76-96 | the call completes exactly when `runs` is defined and every test has an attempt; it then leaves "rollup" at -1 exactly when some test failed and at 1 exactly when none failed |
| Metrics.UpdateTitleHoldsDuration | index.js:91-92 | after a completed call, a test's label other than "rollup" holds its first attempt's duration when no later test shares its title |
| Orchestrator.Step | index.js:153-157 | the run result is published exactly when cleanup and the run resolve; a failing report does not take it back; the loop continues exactly when all three steps resolve, and otherwise stops at the first rejected step |
| Orchestrator.Monitor.constructor | index.js:36 | at start-up `currentSummary` is `{runs: []}` with every total undefined |
| Orchestrator.Monitor.Iterate | index.js:153-157 | one pass updates `currentSummary` and returns the status exactly as `Step` describes |

## Left out

- The Express application is not modelled: the routes `/`, `/debug` and `/health`, the static and directory-listing middleware, and the Prometheus HTTP middleware are I/O. `summaryAsJson` is modelled with the base URL as a parameter.
- `JSON.stringify` and the response headers are left out; the summary is a Dafny value, not its serialisation.
- `cypress.run`, `fse.remove`, `mochawesome-merge` and the report generator are foreign calls. Each is represented only by its outcome (resolved or rejected, and the run result when it resolves).
- `generateHTMLReport` (index.js:135-141) is folded into the single report outcome; its internal steps are not distinguished.
- `sleep`, the endless `while (true)` and the interleaving of HTTP handlers with the loop are clocks and concurrency. Only one pass of the loop body is modelled.
- Environment configuration (`SLEEP_MINS`, `SPECS_REGEX`, `PORT`) and console logging are left out.
- The prom-client registry, help texts and label validation are replaced by a map from label value to number.
- Fields of the run result that the core never reads are left out. A run's `video` is assumed to be a string, and its `tests` and each test's `title` are assumed to be present. In JavaScript a missing value there would throw.
- JavaScript numbers are modelled as unbounded integers, and durations as natural numbers; floating-point gauge values are not modelled.
- The scenario spec under `cypress/` is not part of this model: it is test content, not monitor logic.
