/**
 * `maybeProcessData`: group the runs, set the page title from the range of
 * all workflows, and draw one chart per workflow. Two versions are modelled:
 * the code as written, where title changes the entries' own Date objects
 * before the charts are drawn from them, and the behaviour evidently
 * intended, where the title is computed on copies.
 */
module Process {
  import opened Runs
  import opened Chart
  import opened Grouping
  import opened Title

  /** What the page shows: the title's range and one chart per workflow name. */
  datatype Rendering = Rendering(title: (int, int), charts: map<string, Series>)

  /** The start instant of each run, by position: the Date objects the entries hold. */
  function StartTimes(data: seq<Run>): (ds: seq<int>)
    ensures |ds| == |data| && forall i :: 0 <= i < |data| ==> ds[i] == data[i].startedAt
  {
    seq(|data|, i requires 0 <= i < |data| => data[i].startedAt)
  }

  /** The entries of the group of key `k`, with their dates as `ds` holds them. */
  function GroupOf(data: seq<Run>, ds: seq<int>, w: Workflows, k: string): (g: seq<Entry>)
    requires |ds| == |data| && Layout(ds, w) && k in w.keys
    ensures |g| == |w.groups[k]| > 0
    ensures forall j :: 0 <= j < |g| ==>
      w.groups[k][j] < |data| && g[j] == Entry(ds[w.groups[k][j]], data[w.groups[k][j]].conclusion)
  {
    var ps := w.groups[k];
    assert forall j :: 0 <= j < |ps| ==> ps[j] in ps;
    seq(|ps|, j requires 0 <= j < |ps| => Entry(ds[ps[j]], data[ps[j]].conclusion))
  }

  /** The charts drawn for every key, from the dates as `ds` holds them. */
  function ChartsOf(data: seq<Run>, ds: seq<int>, w: Workflows): (c: map<string, Series>)
    requires |ds| == |data| && Layout(ds, w)
    ensures forall k :: k in c <==> k in w.keys
  {
    map k | k in w.keys :: SeriesOf(GroupOf(data, ds, w, k))
  }

  /** Non-empty input yields a dictionary title and the charts can work on. */
  lemma LayoutOfGroups(data: seq<Run>)
    requires |data| > 0
    ensures Layout(StartTimes(data), GroupsOf(data))
  {
    GroupsWellFormed(data);
    assert data[0].name in Names(data);
  }

  /** The title's range and the charts, both from the dates as `ds` holds them. */
  function RenderOver(data: seq<Run>, ds: seq<int>, w: Workflows): Rendering
    requires |ds| == |data| && Layout(ds, w)
  {
    Rendering(GlobalRange(ds, w), ChartsOf(data, ds, w))
  }

  /** What maybeProcessData evidently means to show for non-empty input. */
  function Rendered(data: seq<Run>): (r: Rendering)
    requires |data| > 0
    ensures forall n :: n in r.charts <==> n in Names(data)
  {
    LayoutOfGroups(data);
    RenderOver(data, StartTimes(data), GroupsOf(data))
  }

  /** What maybeProcessData as written shows for non-empty input. */
  function RenderedAsWritten(data: seq<Run>): (r: Rendering)
    requires |data| > 0
    ensures forall n :: n in r.charts <==> n in Names(data)
  {
    LayoutOfGroups(data);
    var w, ds := GroupsOf(data), StartTimes(data);
    Rendering(TitleShown(ds, w), ChartsOf(data, AfterTitle(ds, w), w))
  }

  /** `Object.keys(workflows).map(name => createChart(name, workflows[name]))`. */
  method DrawCharts(data: seq<Run>, ds: seq<int>, w: Workflows) returns (charts: map<string, Series>)
    requires |ds| == |data| && Layout(ds, w)
    ensures charts == ChartsOf(data, ds, w)
  {
    charts := map[];
    var i := 0;
    while i < |w.keys|
      invariant 0 <= i <= |w.keys|
      invariant forall k :: k in charts <==> k in w.keys[..i]
      invariant forall k :: k in charts ==> k in w.keys && charts[k] == SeriesOf(GroupOf(data, ds, w, k))
    {
      var name := w.keys[i];
      var s := CreateChart(GroupOf(data, ds, w, name));
      charts := charts[name := s];
      assert w.keys[..i + 1] == w.keys[..i] + [name];
      i := i + 1;
    }
    assert w.keys[..i] == w.keys;
  }

  /**
   * maybeProcessData with the title computed on copies of the dates: no
   * title and no chart for empty input, otherwise the intended rendering.
   */
  method ProcessData(data: seq<Run>) returns (r: Option<Rendering>)
    ensures r.None? <==> |data| == 0
    ensures r.Some? ==> |data| > 0 && r.value == Rendered(data)
  {
    var w := GroupRuns(data);
    if |data| == 0 {
      return None;
    }
    LayoutOfGroups(data);
    var ds := StartTimes(data);
    var range := GlobalRange(ds, w);
    var charts := DrawCharts(data, ds, w);
    r := Some(Rendering(range, charts));
  }

  /**
   * maybeProcessData as written: the entries' Date objects live in one
   * array, title changes two of them in place, and the charts are drawn
   * from the changed array.
   */
  method ProcessDataAsWritten(data: seq<Run>) returns (r: Option<Rendering>)
    ensures r.None? <==> |data| == 0
    ensures r.Some? ==> |data| > 0 && r.value == RenderedAsWritten(data)
  {
    var w := GroupRuns(data);
    if |data| == 0 {
      return None;
    }
    LayoutOfGroups(data);
    var dates := new int[|data|](i requires 0 <= i < |data| => data[i].startedAt);
    assert dates[..] == StartTimes(data);
    var from, to := TitleInPlace(dates, w);
    var charts := DrawCharts(data, dates[..], w);
    r := Some(Rendering((from, to), charts));
  }

  /**
   * The intended title spans every chart: no chart starts before the
   * title's first day or ends after its last; the chart of the workflow
   * holding the earliest run starts on the first day, and the chart of the
   * one holding the latest run ends on the last day.
   */
  lemma TitleSpansCharts(data: seq<Run>, ds: seq<int>, w: Workflows)
    requires |ds| == |data| && Layout(ds, w)
    ensures var r, c := GlobalRange(ds, w), ChartsOf(data, ds, w);
      && (forall k :: k in w.keys ==> var s := c[k]; r.0 <= s.labels[0] && s.labels[|s.labels| - 1] <= r.1)
      && c[MinKey(ds, w)].labels[0] == r.0
      && var s := c[MaxKey(ds, w)]; s.labels[|s.labels| - 1] == r.1
  {
    ChartsWithinRange(data, ds, w);
    FirstChartStartsTitle(data, ds, w);
    LastChartEndsTitle(data, ds, w);
  }

  lemma ChartsWithinRange(data: seq<Run>, ds: seq<int>, w: Workflows)
    requires |ds| == |data| && Layout(ds, w)
    ensures var r, charts := GlobalRange(ds, w), ChartsOf(data, ds, w);
      forall k :: k in w.keys ==> var s := charts[k]; r.0 <= s.labels[0] && s.labels[|s.labels| - 1] <= r.1
  {
    var r, charts := GlobalRange(ds, w), ChartsOf(data, ds, w);
    forall k | k in w.keys
      ensures var s := charts[k]; r.0 <= s.labels[0] && s.labels[|s.labels| - 1] <= r.1
    {
      ChartWithinRange(data, ds, w, k);
    }
  }

  lemma ChartWithinRange(data: seq<Run>, ds: seq<int>, w: Workflows, k: string)
    requires |ds| == |data| && Layout(ds, w) && k in w.keys
    ensures var r, s := GlobalRange(ds, w), SeriesOf(GroupOf(data, ds, w, k));
      r.0 <= s.labels[0] && s.labels[|s.labels| - 1] <= r.1
  {
    LabelsSpanRange(GroupOf(data, ds, w, k));
    GroupWithinRange(data, ds, w, k);
  }

  lemma FirstChartStartsTitle(data: seq<Run>, ds: seq<int>, w: Workflows)
    requires |ds| == |data| && Layout(ds, w)
    ensures ChartsOf(data, ds, w)[MinKey(ds, w)].labels[0] == GlobalRange(ds, w).0
  {
    var k := MinKey(ds, w);
    LabelsSpanRange(GroupOf(data, ds, w, k));
    GroupStartsAt(data, ds, w, k, MinPos(ds, w));
  }

  lemma LastChartEndsTitle(data: seq<Run>, ds: seq<int>, w: Workflows)
    requires |ds| == |data| && Layout(ds, w)
    ensures var s := ChartsOf(data, ds, w)[MaxKey(ds, w)]; s.labels[|s.labels| - 1] == GlobalRange(ds, w).1
  {
    var k := MaxKey(ds, w);
    LabelsSpanRange(GroupOf(data, ds, w, k));
    GroupEndsAt(data, ds, w, k, MaxPos(ds, w));
  }

  /** One group's day range lies within the title's range. */
  lemma GroupWithinRange(data: seq<Run>, ds: seq<int>, w: Workflows, k: string)
    requires |ds| == |data| && Layout(ds, w) && k in w.keys
    ensures var g, r := GroupOf(data, ds, w, k), GlobalRange(ds, w);
      r.0 <= Lower(g) && Upper(g) <= r.1
  {
    var g := GroupOf(data, ds, w, k);
    var lo, hi := MinPos(ds, w), MaxPos(ds, w);
    var e, l := EarliestIndex(Dates(g)), LatestIndex(Dates(g));
    assert w.groups[k][e] in w.groups[k] && w.groups[k][l] in w.groups[k];
    FloorMonotone(ds[lo], g[e].date);
    FloorMonotone(g[l].date, ds[hi]);
  }

  /** The group holding the globally earliest entry starts on the title's first day. */
  lemma GroupStartsAt(data: seq<Run>, ds: seq<int>, w: Workflows, k: string, p: nat)
    requires |ds| == |data| && Layout(ds, w) && k in w.keys && p in w.groups[k] && p == MinPos(ds, w)
    ensures Lower(GroupOf(data, ds, w, k)) == GlobalRange(ds, w).0
  {
    var g := GroupOf(data, ds, w, k);
    var j :| 0 <= j < |w.groups[k]| && w.groups[k][j] == p;
    var e := EarliestIndex(Dates(g));
    assert w.groups[k][e] in w.groups[k];
    assert g[e].date <= g[j].date == ds[p] <= g[e].date;
  }

  /** The group holding the globally latest entry ends on the title's last day. */
  lemma GroupEndsAt(data: seq<Run>, ds: seq<int>, w: Workflows, k: string, p: nat)
    requires |ds| == |data| && Layout(ds, w) && k in w.keys && p in w.groups[k] && p == MaxPos(ds, w)
    ensures Upper(GroupOf(data, ds, w, k)) == GlobalRange(ds, w).1
  {
    var g := GroupOf(data, ds, w, k);
    var j :| 0 <= j < |w.groups[k]| && w.groups[k][j] == p;
    var l := LatestIndex(Dates(g));
    assert w.groups[k][l] in w.groups[k];
    assert g[l].date >= g[j].date == ds[p] >= g[l].date;
  }

  /**
   * In the intended rendering every run is counted in its workflow's chart
   * on the day it started: the chart has a label for that midnight, and a
   * success or failure run adds at least one to that day's count.
   */
  lemma RunCountedOnItsDay(data: seq<Run>, i: nat)
    requires i < |data|
    ensures var s := Rendered(data).charts[data[i].name];
      exists b :: 0 <= b < |s.labels| - 1 && s.labels[b] == Floor(data[i].startedAt)
        && (data[i].conclusion == Success ==> s.success[b] >= 1)
        && (data[i].conclusion == Failure ==> s.failure[b] >= 1)
  {
    LayoutOfGroups(data);
    var n := data[i].name;
    var ds, w := StartTimes(data), GroupsOf(data);
    assert n in Names(data);
    EveryRunInItsGroup(data, i, n);
    EntryCountedInChart(data, ds, w, n, i);
    assert Rendered(data).charts == ChartsOf(data, ds, w);
  }

  /** An entry of group `n` is counted in that group's chart on the day its date falls in. */
  lemma EntryCountedInChart(data: seq<Run>, ds: seq<int>, w: Workflows, n: string, i: nat)
    requires |ds| == |data| && Layout(ds, w) && n in w.keys && i in w.groups[n]
    ensures var s := ChartsOf(data, ds, w)[n];
      exists b :: 0 <= b < |s.labels| - 1 && s.labels[b] == Floor(ds[i])
        && (data[i].conclusion == Success ==> s.success[b] >= 1)
        && (data[i].conclusion == Failure ==> s.failure[b] >= 1)
  {
    var g := GroupOf(data, ds, w, n);
    var j :| 0 <= j < |w.groups[n]| && w.groups[n][j] == i;
    assert g[j] == Entry(ds[i], data[i].conclusion);
    EntryCountedOnItsDay(g, j);
    var s := ChartsOf(data, ds, w)[n];
    assert s == SeriesOf(g);
    var b := (Floor(g[j].date) - Lower(g)) / Day;
    assert 0 <= b < |s.labels| - 1 && s.labels[b] == Floor(ds[i]);
  }
}
