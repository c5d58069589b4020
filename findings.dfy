/**
 * Concrete inputs on which maybeProcessData as written and as evidently
 * intended differ, because title changes the entries' Date objects in place.
 */
module Findings {
  import opened Runs
  import opened Chart
  import opened Grouping
  import opened Title
  import opened Process

  /** 2024-01-01T00:00:00Z in milliseconds since the epoch. */
  const Midnight: int := 1704067200000

  const Hour: int := 3600000

  /** Two runs of workflow "A" on 2024-01-01 (UTC): a success at 10:00 and a failure at 15:00. */
  function SameDayRuns(): seq<Run>
  {
    [Run("A", Midnight + 10 * Hour, Success, "main"), Run("A", Midnight + 15 * Hour, Failure, "main")]
  }

  /** The grouping of SameDayRuns: one key, holding both runs. */
  lemma SameDayGroups()
    ensures GroupsOf(SameDayRuns()) == Workflows(["A"], map["A" := [0, 1]])
  {
    SameDayNames();
    SameDayPositions();
    SingleKey(SameDayRuns(), "A", [0, 1]);
  }

  lemma SameDayNames()
    ensures Names(SameDayRuns()) == ["A"]
  {
    var data := SameDayRuns();
    var d1 := data[..1];
    assert d1[..0] == [];
    assert Names(d1) == ["A"];
  }

  lemma SameDayPositions()
    ensures Positions(SameDayRuns(), "A") == [0, 1]
  {
    var data := SameDayRuns();
    assert data[..0] == [];
    PositionsStep(data, 0, "A");
    PositionsStep(data, 1, "A");
    assert data[..2] == data;
  }

  /** Input whose only name is `n` groups into one key holding `n`'s positions. */
  lemma SingleKey(data: seq<Run>, n: string, ps: seq<nat>)
    requires Names(data) == [n] && Positions(data, n) == ps
    ensures GroupsOf(data) == Workflows([n], map[n := ps])
  {
    var w := GroupsOf(data);
    assert w.keys == [n];
    assert forall k :: k in w.groups <==> k == n;
    assert w.groups[n] == ps;
    assert w.groups == map[n := ps];
  }

  lemma SameDayStarts()
    ensures StartTimes(SameDayRuns()) == [Midnight + 10 * Hour, Midnight + 15 * Hour]
  {
  }

  /** What maybeProcessData as written draws: the charts of the entries title has changed. */
  lemma AsWrittenCharts(data: seq<Run>)
    requires |data| > 0
    ensures Layout(StartTimes(data), GroupsOf(data))
    ensures var w, ds := GroupsOf(data), StartTimes(data);
      RenderedAsWritten(data).charts == ChartsOf(data, AfterTitle(ds, w), w)
  {
    LayoutOfGroups(data);
  }

  /** What the intended maybeProcessData draws: the charts of the entries as they are. */
  lemma IntendedCharts(data: seq<Run>)
    requires |data| > 0
    ensures Layout(StartTimes(data), GroupsOf(data))
    ensures Rendered(data).charts == ChartsOf(data, StartTimes(data), GroupsOf(data))
  {
    LayoutOfGroups(data);
  }

  /**
   * As written, the failure at 15:00 is charted on 2024-01-02 and the chart
   * runs to 2024-01-03: title moved that run's Date to the next midnight.
   */
  lemma AsWrittenMovesLatestRun()
    ensures RenderedAsWritten(SameDayRuns()).charts["A"]
         == Series([Midnight, Midnight + Day, Midnight + 2 * Day], [1, 0, 0], [0, 1, 0])
  {
    var data := SameDayRuns();
    SameDayGroups();
    SameDayStarts();
    AsWrittenCharts(data);
    SameDayAsWritten(data, StartTimes(data), GroupsOf(data));
  }

  // The lemmas below take the concrete values as parameters fixed by their
  // `requires`, so that the solver sees one name for each value instead of
  // unfolding SameDayRuns, GroupsOf and StartTimes again in every proof step.
  lemma SameDayAsWritten(data: seq<Run>, ds: seq<int>, w: Workflows)
    requires data == SameDayRuns() && w == Workflows(["A"], map["A" := [0, 1]])
    requires ds == [Midnight + 10 * Hour, Midnight + 15 * Hour]
    ensures Layout(ds, w)
    ensures ChartsOf(data, AfterTitle(ds, w), w)["A"]
         == Series([Midnight, Midnight + Day, Midnight + 2 * Day], [1, 0, 0], [0, 1, 0])
  {
    SameDayTitle(ds, w);
    ChangedCharts(data, AfterTitle(ds, w), w);
  }

  lemma ChangedCharts(data: seq<Run>, ds2: seq<int>, w: Workflows)
    requires data == SameDayRuns() && w == Workflows(["A"], map["A" := [0, 1]])
    requires ds2 == [Midnight, Midnight + Day]
    ensures Layout(ds2, w)
    ensures ChartsOf(data, ds2, w)["A"] == Series([Midnight, Midnight + Day, Midnight + 2 * Day], [1, 0, 0], [0, 1, 0])
  {
    var g := GroupOf(data, ds2, w, "A");
    assert g == [Entry(Midnight, Success), Entry(Midnight + Day, Failure)];
    MovedChart(g);
  }

  /**
   * title as written on SameDayRuns: the success's Date becomes its
   * midnight, the failure's the next midnight; the range shown is right.
   */
  lemma SameDayTitle(ds: seq<int>, w: Workflows)
    requires w == Workflows(["A"], map["A" := [0, 1]])
    requires ds == [Midnight + 10 * Hour, Midnight + 15 * Hour]
    ensures Layout(ds, w)
    ensures AfterTitle(ds, w) == [Midnight, Midnight + Day]
    ensures TitleShown(ds, w) == (Midnight, Midnight + Day)
  {
    SameDayEarliest(ds, w);
    var ds1 := ds[0 := Midnight];
    FloorWithinDay(Midnight, ds[0]);
    SameDayLatest(ds1, w);
    FloorWithinDay(Midnight, ds1[1]);
  }

  lemma SameDayEarliest(ds: seq<int>, w: Workflows)
    requires w == Workflows(["A"], map["A" := [0, 1]])
    requires ds == [Midnight + 10 * Hour, Midnight + 15 * Hour]
    ensures Layout(ds, w) && MinPos(ds, w) == 0
  {
    assert GroupDates(ds, [0, 1]) == ds;
    assert EarliestIndex(ds[..1]) == 0;
    assert EarliestOf(ds, w, 0) == 0;
    assert KeyEarliest(ds, w) == [ds[0]];
  }

  lemma SameDayLatest(ds1: seq<int>, w: Workflows)
    requires w == Workflows(["A"], map["A" := [0, 1]])
    requires ds1 == [Midnight, Midnight + 15 * Hour]
    ensures Layout(ds1, w) && MaxPos(ds1, w) == 1
  {
    assert GroupDates(ds1, [0, 1]) == ds1;
    assert LatestIndex(ds1[..1]) == 0;
    assert LatestOf(ds1, w, 0) == 1;
    assert KeyLatest(ds1, w) == [ds1[1]];
  }

  /**
   * The tie rule decides which Date object title changes: of two entries
   * starting at the same instant, minDate is the second one, which is
   * floored; maxDate, picked on the changed dates, is then the first one,
   * which moves to the next midnight.
   */
  lemma TiedTitle(ds: seq<int>, w: Workflows)
    requires w == Workflows(["A"], map["A" := [0, 1]])
    requires ds == [Midnight + 15 * Hour, Midnight + 15 * Hour]
    ensures Layout(ds, w)
    ensures AfterTitle(ds, w) == [Midnight + Day, Midnight]
  {
    TiedEarliest(ds, w);
    var ds1 := ds[1 := Midnight];
    FloorWithinDay(Midnight, ds[1]);
    TiedLatest(ds1, w);
    FloorWithinDay(Midnight, ds1[0]);
  }

  lemma TiedEarliest(ds: seq<int>, w: Workflows)
    requires w == Workflows(["A"], map["A" := [0, 1]])
    requires ds == [Midnight + 15 * Hour, Midnight + 15 * Hour]
    ensures Layout(ds, w) && MinPos(ds, w) == 1
  {
    assert GroupDates(ds, [0, 1]) == ds;
    assert EarliestIndex(ds[..1]) == 0;
    assert EarliestOf(ds, w, 0) == 1;
    assert KeyEarliest(ds, w) == [ds[1]];
  }

  lemma TiedLatest(ds1: seq<int>, w: Workflows)
    requires w == Workflows(["A"], map["A" := [0, 1]])
    requires ds1 == [Midnight + 15 * Hour, Midnight]
    ensures Layout(ds1, w) && MaxPos(ds1, w) == 0
  {
    assert GroupDates(ds1, [0, 1]) == ds1;
    assert LatestIndex(ds1[..1]) == 0;
    assert LatestOf(ds1, w, 0) == 0;
    assert KeyLatest(ds1, w) == [ds1[0]];
  }

  /** The chart of the changed entries: a success at midnight and a failure at the next midnight. */
  lemma MovedChart(g: seq<Entry>)
    requires g == [Entry(Midnight, Success), Entry(Midnight + Day, Failure)]
    ensures SeriesOf(g) == Series([Midnight, Midnight + Day, Midnight + 2 * Day], [1, 0, 0], [0, 1, 0])
  {
    FloorWithinDay(Midnight, Midnight);
    FloorWithinDay(Midnight + Day, Midnight + Day);
    TwoEntryChart(Success, Failure, Midnight, Midnight + Day);
    var s := ChartOver(g, Midnight, 3);
    CountTwo(g[0], g[1], Success, Midnight, Midnight + Day);
    CountTwo(g[0], g[1], Success, Midnight + Day, Midnight + 2 * Day);
    CountTwo(g[0], g[1], Success, Midnight + 2 * Day, Midnight + 3 * Day);
    CountTwo(g[0], g[1], Failure, Midnight, Midnight + Day);
    CountTwo(g[0], g[1], Failure, Midnight + Day, Midnight + 2 * Day);
    CountTwo(g[0], g[1], Failure, Midnight + 2 * Day, Midnight + 3 * Day);
    assert s.success == [1, 0, 0];
    assert s.failure == [0, 1, 0];
  }

  /** As intended, both runs are charted on 2024-01-01 and the chart ends on 2024-01-02. */
  lemma IntendedKeepsRunsOnTheirDay()
    ensures Rendered(SameDayRuns()).charts["A"]
         == Series([Midnight, Midnight + Day], [1, 0], [1, 0])
  {
    var data := SameDayRuns();
    SameDayGroups();
    SameDayStarts();
    IntendedCharts(data);
    UnchangedCharts(data, StartTimes(data), GroupsOf(data));
  }

  lemma UnchangedCharts(data: seq<Run>, ds: seq<int>, w: Workflows)
    requires data == SameDayRuns() && w == Workflows(["A"], map["A" := [0, 1]])
    requires ds == [Midnight + 10 * Hour, Midnight + 15 * Hour]
    ensures Layout(ds, w)
    ensures ChartsOf(data, ds, w)["A"] == Series([Midnight, Midnight + Day], [1, 0], [1, 0])
  {
    var g := GroupOf(data, ds, w, "A");
    assert g == [Entry(Midnight + 10 * Hour, Success), Entry(Midnight + 15 * Hour, Failure)];
    UnmovedChart(g);
  }

  /** The chart of the unchanged entries: a success at 10:00 and a failure at 15:00 on one day. */
  lemma UnmovedChart(g: seq<Entry>)
    requires g == [Entry(Midnight + 10 * Hour, Success), Entry(Midnight + 15 * Hour, Failure)]
    ensures SeriesOf(g) == Series([Midnight, Midnight + Day], [1, 0], [1, 0])
  {
    FloorWithinDay(Midnight, Midnight + 10 * Hour);
    FloorWithinDay(Midnight, Midnight + 15 * Hour);
    TwoEntryChart(Success, Failure, Midnight + 10 * Hour, Midnight + 15 * Hour);
    var s := ChartOver(g, Midnight, 2);
    CountTwo(g[0], g[1], Success, Midnight, Midnight + Day);
    CountTwo(g[0], g[1], Success, Midnight + Day, Midnight + 2 * Day);
    CountTwo(g[0], g[1], Failure, Midnight, Midnight + Day);
    CountTwo(g[0], g[1], Failure, Midnight + Day, Midnight + 2 * Day);
    assert s.success == [1, 0];
    assert s.failure == [1, 0];
  }

  /** The chart of two entries, of any conclusions, at two given instants. */
  lemma TwoEntryChart(a: Conclusion, b: Conclusion, s: int, t: int)
    requires s < t
    ensures var g := [Entry(s, a), Entry(t, b)]; var lo := Floor(s); var n := (Floor(t) - lo) / Day + 2;
      && Lower(g) == lo && Upper(g) == Floor(t) + Day
      && SeriesOf(g) == ChartOver(g, lo, n)
  {
    var g := [Entry(s, a), Entry(t, b)];
    assert Dates(g) == [s, t];
    assert Dates(g)[..1] == [s];
    FloorMonotone(s, t);
    RangeIsDayAligned(g);
  }

  /** Counting over two entries, one at a time. */
  lemma CountTwo(e0: Entry, e1: Entry, c: Conclusion, a: int, b: int)
    ensures CountIn([e0, e1], c, a, b)
         == (if e0.conclusion == c && a <= e0.date < b then 1 else 0)
          + (if e1.conclusion == c && a <= e1.date < b then 1 else 0)
  {
    assert [e0, e1][..1] == [e0];
    assert [e0][..0] == [];
  }

  /** A single run of workflow "A", a success at 10:00 on 2024-01-01 (UTC). */
  function OneRun(): seq<Run>
  {
    [Run("A", Midnight + 10 * Hour, Success, "main")]
  }

  /**
   * As written, one run makes the title read from 2024-01-02 to 2024-01-02:
   * minDate and maxDate are the same Date object, so the floor set on it
   * first is overwritten by the move to the next midnight.
   */
  lemma AsWrittenTitleOfOneRun()
    ensures RenderedAsWritten(OneRun()).title == (Midnight + Day, Midnight + Day)
  {
    var data := OneRun();
    LayoutOfGroups(data);
    var w, ds := GroupsOf(data), StartTimes(data);
    var m := MinPos(ds, w);
    assert m == 0;
    assert MaxPos(ds[m := Floor(ds[m])], w) == 0;
    TitleMovesLatestEntry(ds, w);
    FloorWithinDay(Midnight, ds[0]);
  }

  /** As intended, the title of one run reads from its day to the next. */
  lemma IntendedTitleOfOneRun()
    ensures Rendered(OneRun()).title == (Midnight, Midnight + Day)
  {
    var data := OneRun();
    LayoutOfGroups(data);
    var w, ds := GroupsOf(data), StartTimes(data);
    assert MinPos(ds, w) == 0 && MaxPos(ds, w) == 0;
    FloorWithinDay(Midnight, ds[0]);
  }
}
