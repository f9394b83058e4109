/**
 * The summary document served at `/`: every test of every run as a
 * `{title, state, videoLink}` entry, the run totals, and four links under the
 * caller's base URL (`summaryAsJson` in index.js).
 *
 * In index.js the totals are read from the global `currentSummary` and the
 * tests from the `results` argument; the only caller passes `currentSummary`
 * as `results`, so here one snapshot supplies both.
 */
module Summary {
  import opened Results
  import Text

  datatype Entry = Entry(title: string, state: string, videoLink: string)

  datatype LastRun = LastRun(totals: Totals, tests: seq<Entry>)

  datatype Document = Document(
    lastRun: LastRun,
    statusPageLink: string,
    videosLink: string,
    screenshotsLink: string,
    metricsLink: string)

  const VideosPath := "/videos"
  const StatusPagePath := "/status/mochawesome.html"
  const ScreenshotsPath := "/screenshots"
  const MetricsPath := "/metrics"

  /**
   * The link to a run's video: the base URL, `/videos/`, then the file name of
   * the video path.
   */
  function VideoLink(baseUrl: string, video: string): string
  {
    baseUrl + VideosPath + "/" + Text.LastSegment(video)
  }

  /**
   * A video link is the base URL, `/videos/`, and the part of the video path
   * after its last `/` (the whole path when it has none).
   */
  lemma VideoLinkShape(baseUrl: string, video: string)
    ensures var link := VideoLink(baseUrl, video);
            && |link| >= |baseUrl| + 8 && link[..|baseUrl| + 8] == baseUrl + "/videos/"
            && var name := link[|baseUrl| + 8..];
            && '/' !in name
            && |name| <= |video| && video[|video| - |name|..] == name
            && (|name| < |video| ==> video[|video| - |name| - 1] == '/')
            && ('/' !in video ==> name == video)
  {
    var prefix, name := baseUrl + "/videos/", Text.LastSegment(video);
    var link := VideoLink(baseUrl, video);
    assert link == prefix + name;
    assert |prefix| == |baseUrl| + 8;
    assert link[..|prefix|] == prefix && link[|prefix|..] == name;
    Text.LastSegmentSuffix(video);
  }

  /** The entries of one run's tests, all sharing the run's video link. */
  function TestEntries(tests: seq<TestResult>, videoLink: string): (entries: seq<Entry>)
    ensures |entries| == |tests|
  {
    if tests == [] then []
    else
      var t := tests[|tests| - 1];
      TestEntries(tests[..|tests| - 1], videoLink) + [Entry(TestTitle(t), t.state, videoLink)]
  }

  /** The entries of all runs, run after run. */
  function Entries(runs: seq<Run>, baseUrl: string): seq<Entry>
  {
    if runs == [] then []
    else
      var run := runs[|runs| - 1];
      Entries(runs[..|runs| - 1], baseUrl) + TestEntries(run.tests, VideoLink(baseUrl, run.video))
  }

  /** The document around a list of entries. */
  function Assemble(totals: Totals, tests: seq<Entry>, baseUrl: string): Document
  {
    Document(
      LastRun(totals, tests),
      baseUrl + StatusPagePath,
      baseUrl + VideosPath,
      baseUrl + ScreenshotsPath,
      baseUrl + MetricsPath)
  }

  /**
   * The summary of a snapshot: undefined `runs` gives no entries instead of
   * failing, the totals are copied as they are (undefined stays undefined),
   * and there is one entry per test.
   */
  function Summarize(results: Snapshot, baseUrl: string): (doc: Document)
    ensures results.runs.None? ==> doc.lastRun.tests == []
    ensures results.runs.Some? ==> |doc.lastRun.tests| == TestCount(results.runs.value)
    ensures doc.lastRun.totals == results.totals
  {
    match results.runs
    case None => Assemble(results.totals, [], baseUrl)
    case Some(runs) =>
      EntriesLength(runs, baseUrl);
      Assemble(results.totals, Entries(runs, baseUrl), baseUrl)
  }

  /** `summaryAsJson`: builds the entry list by pushing inside nested loops. */
  method SummaryAsJson(results: Snapshot, baseUrl: string) returns (doc: Document)
    ensures doc == Summarize(results, baseUrl)
  {
    var tests: seq<Entry> := [];
    if results.runs.Some? {
      var runs := results.runs.value;
      var i := 0;
      while i < |runs|
        invariant 0 <= i <= |runs|
        invariant tests == Entries(runs[..i], baseUrl)
      {
        var run := runs[i];
        var videoLink := VideoLink(baseUrl, run.video);
        var j := 0;
        while j < |run.tests|
          invariant 0 <= j <= |run.tests|
          invariant tests == Entries(runs[..i], baseUrl) + TestEntries(run.tests[..j], videoLink)
        {
          var test := run.tests[j];
          tests := tests + [Entry(TestTitle(test), test.state, videoLink)];
          assert run.tests[..j + 1][..j] == run.tests[..j];
          j := j + 1;
        }
        assert run.tests[..j] == run.tests;
        assert runs[..i + 1][..i] == runs[..i];
        i := i + 1;
      }
      assert runs[..i] == runs;
    }
    doc := Assemble(results.totals, tests, baseUrl);
  }

  /** Entry `j` of a run is test `j` with the run's video link. */
  lemma {:induction false} TestEntriesAt(tests: seq<TestResult>, videoLink: string, j: nat)
    requires j < |tests|
    ensures |TestEntries(tests, videoLink)| == |tests|
    ensures TestEntries(tests, videoLink)[j] == Entry(TestTitle(tests[j]), tests[j].state, videoLink)
  {
    if j < |tests| - 1 {
      TestEntriesAt(tests[..|tests| - 1], videoLink, j);
    } else if j > 0 {
      TestEntriesAt(tests[..|tests| - 1], videoLink, 0);
    }
  }

  /** There is exactly one entry per test of every run. */
  lemma {:induction false} EntriesLength(runs: seq<Run>, baseUrl: string)
    ensures |Entries(runs, baseUrl)| == TestCount(runs)
  {
    if runs != [] {
      var run := runs[|runs| - 1];
      EntriesLength(runs[..|runs| - 1], baseUrl);
      if run.tests != [] {
        TestEntriesAt(run.tests, VideoLink(baseUrl, run.video), 0);
      }
      assert runs == runs[..|runs| - 1] + [run];
      TestCountAppend(runs[..|runs| - 1], [run]);
    }
  }

  /** The last run's entries come after all entries of the runs before it. */
  lemma EntriesOfLastRun(runs: seq<Run>, baseUrl: string)
    requires runs != []
    ensures var front, last := runs[..|runs| - 1], runs[|runs| - 1];
            && |Entries(front, baseUrl)| == TestCount(front)
            && TestCount(runs) == TestCount(front) + |last.tests|
            && Entries(runs, baseUrl) == Entries(front, baseUrl) + TestEntries(last.tests, VideoLink(baseUrl, last.video))
  {
    var front, last := runs[..|runs| - 1], runs[|runs| - 1];
    assert runs == front + [last];
    EntriesLength(front, baseUrl);
    TestCountAppend(front, [last]);
  }

  /**
   * Test `j` of run `i` is summarised after all tests of the earlier runs, with
   * its title joined by " | ", its state unchanged and its run's video link.
   */
  lemma {:induction false} EntryAt(runs: seq<Run>, baseUrl: string, i: nat, j: nat)
    requires i < |runs| && j < |runs[i].tests|
    ensures TestCount(runs[..i]) + j < |Entries(runs, baseUrl)|
    ensures var t := runs[i].tests[j];
            Entries(runs, baseUrl)[TestCount(runs[..i]) + j]
              == Entry(Text.Join(t.title, " | "), t.state, VideoLink(baseUrl, runs[i].video))
  {
    var front, last := runs[..|runs| - 1], runs[|runs| - 1];
    EntriesOfLastRun(runs, baseUrl);
    if i == |runs| - 1 {
      TestEntriesAt(last.tests, VideoLink(baseUrl, last.video), j);
    } else {
      EntryAt(front, baseUrl, i, j);
      assert front[..i] == runs[..i];
    }
  }

  /** A link made of the base URL, `/videos/`, and a file name without `/`. */
  predicate UnderVideos(link: string, baseUrl: string)
  {
    |link| >= |baseUrl| + 8 && link[..|baseUrl| + 8] == baseUrl + "/videos/"
    && '/' !in link[|baseUrl| + 8..]
  }

  /**
   * Every link in the document lies under the base URL: the four fixed links
   * are the base URL with their fixed paths, and every entry's video link is
   * the base URL, `/videos/`, and a file name without `/`.
   */
  lemma {:induction false} LinksUnderBase(results: Snapshot, baseUrl: string)
    ensures var doc := Summarize(results, baseUrl);
            && doc.statusPageLink == baseUrl + "/status/mochawesome.html"
            && doc.videosLink == baseUrl + "/videos"
            && doc.screenshotsLink == baseUrl + "/screenshots"
            && doc.metricsLink == baseUrl + "/metrics"
            && forall k :: 0 <= k < |doc.lastRun.tests| ==> UnderVideos(doc.lastRun.tests[k].videoLink, baseUrl)
  {
    if results.runs.Some? {
      EntryLinksUnderVideos(results.runs.value, baseUrl);
    }
  }

  /** Every entry's video link lies under `/videos/` of the base URL. */
  lemma {:induction false} EntryLinksUnderVideos(runs: seq<Run>, baseUrl: string)
    ensures forall k :: 0 <= k < |Entries(runs, baseUrl)| ==> UnderVideos(Entries(runs, baseUrl)[k].videoLink, baseUrl)
  {
    if runs != [] {
      var front, run := runs[..|runs| - 1], runs[|runs| - 1];
      var link := VideoLink(baseUrl, run.video);
      EntryLinksUnderVideos(front, baseUrl);
      forall k | 0 <= k < |Entries(runs, baseUrl)|
        ensures UnderVideos(Entries(runs, baseUrl)[k].videoLink, baseUrl)
      {
        var n := |Entries(front, baseUrl)|;
        if k >= n {
          TestEntriesAt(run.tests, link, k - n);
          VideoLinkShape(baseUrl, run.video);
        }
      }
    }
  }

  /** Before the first run the summary has no entries and every total is undefined. */
  lemma InitialSummary(baseUrl: string)
    ensures Summarize(InitialSnapshot, baseUrl).lastRun.tests == []
    ensures Summarize(InitialSnapshot, baseUrl).lastRun.totals == Undefined
  {
  }

  /** The entries of a single run of a single test. */
  lemma SingleTestRun(run: Run, baseUrl: string)
    requires |run.tests| == 1
    ensures Entries([run], baseUrl)
              == [Entry(TestTitle(run.tests[0]), run.tests[0].state, VideoLink(baseUrl, run.video))]
  {
    assert [run][..0] == [];
    assert run.tests[..0] == [];
  }

  /** The file name of a video recorded to `/a/b/vid.mp4`. */
  lemma ExampleVideoLink(baseUrl: string, video: string)
    requires baseUrl == "http://host:3000" && video == "/a/b/vid.mp4"
    ensures VideoLink(baseUrl, video) == "http://host:3000/videos/vid.mp4"
  {
    Text.LastSegmentSuffix(video);
    assert |Text.LastSegment(video)| == 7;
  }

  /** The title of the "Goose Sighting" test: describe block, " | ", it block. */
  lemma ExampleTitle(t: TestResult)
    requires t.title == ["Goose Sighting", "Record a goose sighting"]
    ensures TestTitle(t) == "Goose Sighting | Record a goose sighting"
  {
    var first, second := "Goose Sighting", "Record a goose sighting";
    assert t.title[1..] == [second];
    assert Text.Join(t.title, " | ") == first + " | " + Text.Join([second], " | ");
  }

  /**
   * A worked example: one passing "Goose Sighting" test recorded to
   * /a/b/vid.mp4, summarised for http://host:3000 with the run's totals
   * carried over.
   */
  lemma GooseSighting(baseUrl: string, results: Snapshot)
    requires baseUrl == "http://host:3000"
    requires results == Snapshot(Some([Run("/a/b/vid.mp4",
               [TestResult(["Goose Sighting", "Record a goose sighting"], "passed", [Attempt(4200)])])]),
               Totals(None, None, Some(4200), Some(1), Some(1), Some(0), Some(1), Some(0), Some(0)))
    ensures Summarize(results, baseUrl).lastRun.tests
              == [Entry("Goose Sighting | Record a goose sighting", "passed", "http://host:3000/videos/vid.mp4")]
    ensures Summarize(results, baseUrl).lastRun.totals == results.totals
  {
    var run := results.runs.value[0];
    ExampleVideoLink(baseUrl, run.video);
    ExampleTitle(run.tests[0]);
    SingleTestRun(run, baseUrl);
  }
}
