/**
 * `createChart` without the DOM: the earliest and latest entry of a group,
 * the day labels from the floored earliest start to the day after the floored
 * latest start, and the per-day success and failure counts.
 */
module Chart {
  import opened Runs

  /** The start instants of a group's entries, in order. */
  function Dates(g: seq<Entry>): (ts: seq<int>)
    ensures |ts| == |g| && forall i :: 0 <= i < |g| ==> ts[i] == g[i].date
  {
    seq(|g|, i requires 0 <= i < |g| => g[i].date)
  }

  /**
   * The reduce `pre && pre.date < cur.date ? pre : cur`: the index of an
   * earliest instant; of several equal ones, the last.
   */
  function EarliestIndex(ts: seq<int>): (r: nat)
    requires |ts| > 0
    ensures r < |ts|
    ensures forall k :: 0 <= k < |ts| ==> ts[r] <= ts[k]
    ensures forall k :: r < k < |ts| ==> ts[r] < ts[k]
  {
    if |ts| == 1 then 0
    else
      var pre := EarliestIndex(ts[..|ts| - 1]);
      if ts[pre] < ts[|ts| - 1] then pre else |ts| - 1
  }

  /**
   * The reduce `pre && pre.date > cur.date ? pre : cur`: the index of a
   * latest instant; of several equal ones, the last.
   */
  function LatestIndex(ts: seq<int>): (r: nat)
    requires |ts| > 0
    ensures r < |ts|
    ensures forall k :: 0 <= k < |ts| ==> ts[k] <= ts[r]
    ensures forall k :: r < k < |ts| ==> ts[k] < ts[r]
  {
    if |ts| == 1 then 0
    else
      var pre := LatestIndex(ts[..|ts| - 1]);
      if ts[pre] > ts[|ts| - 1] then pre else |ts| - 1
  }

  /** The first day label: the earliest start, floored to midnight. */
  function Lower(g: seq<Entry>): (r: int)
    requires |g| > 0
    ensures r % Day == 0
  {
    Floor(g[EarliestIndex(Dates(g))].date)
  }

  /** The last day label: the latest start, floored to midnight, plus one day. */
  function Upper(g: seq<Entry>): (r: int)
    requires |g| > 0
    ensures r % Day == 0
  {
    Floor(g[LatestIndex(Dates(g))].date) + Day
  }

  /** Both ends are midnights, at least a day apart, and every entry starts in between. */
  lemma {:induction false} RangeIsDayAligned(g: seq<Entry>)
    requires |g| > 0
    ensures Lower(g) % Day == 0 && Upper(g) % Day == 0
    ensures Lower(g) + Day <= Upper(g)
    ensures forall k :: 0 <= k < |g| ==> Lower(g) <= g[k].date < Upper(g)
  {
    var ts := Dates(g);
    var lo, hi := EarliestIndex(ts), LatestIndex(ts);
    assert ts[lo] <= ts[hi];
    FloorMonotone(ts[lo], ts[hi]);
  }

  /**
   * The counting reduce: how many entries have conclusion `c` and start in
   * `[from, to)`; createChart asks it for windows `[d, d + Day)`.
   */
  function CountIn(g: seq<Entry>, c: Conclusion, from: int, to: int): (r: nat)
    ensures r <= |g|
  {
    if |g| == 0 then 0
    else
      var last := g[|g| - 1];
      CountIn(g[..|g| - 1], c, from, to) + (if last.conclusion == c && from <= last.date < to then 1 else 0)
  }

  /** The number of entries, of any conclusion, that start in `[from, to)`. */
  function Present(g: seq<Entry>, from: int, to: int): (r: nat)
    ensures r <= |g|
  {
    if |g| == 0 then 0
    else
      var last := g[|g| - 1];
      Present(g[..|g| - 1], from, to) + (if from <= last.date < to then 1 else 0)
  }

  /** The number of entries that finished neither in success nor in failure and start in `[from, to)`. */
  function Uncounted(g: seq<Entry>, from: int, to: int): (r: nat)
    ensures r <= |g|
  {
    if |g| == 0 then 0
    else
      var last := g[|g| - 1];
      Uncounted(g[..|g| - 1], from, to)
        + (if last.conclusion !in {Success, Failure} && from <= last.date < to then 1 else 0)
  }

  /** The number of entries with conclusion `c`, whenever they started. */
  function Total(g: seq<Entry>, c: Conclusion): (r: nat)
    ensures r <= |g|
  {
    if |g| == 0 then 0
    else Total(g[..|g| - 1], c) + (if g[|g| - 1].conclusion == c then 1 else 0)
  }

  /** The two data series of one chart, indexed by the day labels. */
  datatype Series = Series(labels: seq<int>, success: seq<nat>, failure: seq<nat>)

  /** The number of day labels: from Lower to Upper inclusive, one per day. */
  function LabelCount(g: seq<Entry>): (n: nat)
    requires |g| > 0
    ensures n >= 2 && Upper(g) == Lower(g) + (n - 1) * Day
  {
    RangeIsDayAligned(g);
    (Upper(g) - Lower(g)) / Day + 1
  }

  /** Per-day counts of conclusion `c` for `n` consecutive days from midnight `lo`. */
  function Bucketed(g: seq<Entry>, c: Conclusion, lo: int, n: nat): seq<nat>
  {
    seq(n, i => CountIn(g, c, lo + i * Day, lo + i * Day + Day))
  }

  /** The chart over `n` consecutive days from `lo`: one label per day and that day's counts. */
  function ChartOver(g: seq<Entry>, lo: int, n: nat): Series
  {
    Series(seq(n, i => lo + i * Day), Bucketed(g, Success, lo, n), Bucketed(g, Failure, lo, n))
  }

  /** The chart createChart draws for a non-empty group. */
  function SeriesOf(g: seq<Entry>): (s: Series)
    requires |g| > 0
    ensures |s.labels| >= 2 && |s.success| == |s.labels| && |s.failure| == |s.labels|
  {
    ChartOver(g, Lower(g), LabelCount(g))
  }

  /**
   * The `for` loop of createChart: one label per day from `minDate` to
   * `maxDate` inclusive, with that day's success and failure counts.
   */
  method WalkDays(g: seq<Entry>, minDate: int, maxDate: int) returns (s: Series)
    requires minDate <= maxDate && (maxDate - minDate) % Day == 0
    ensures s == ChartOver(g, minDate, (maxDate - minDate) / Day + 1)
  {
    ghost var n := (maxDate - minDate) / Day + 1;
    assert maxDate == minDate + (n - 1) * Day;
    var labels, success, failure := [], [], [];
    var date := minDate;
    while date <= maxDate
      invariant |labels| <= n
      invariant date == minDate + |labels| * Day
      invariant |success| == |labels| && |failure| == |labels|
      invariant forall i :: 0 <= i < |labels| ==> labels[i] == minDate + i * Day
      invariant forall i :: 0 <= i < |labels| ==> success[i] == CountIn(g, Success, labels[i], labels[i] + Day)
      invariant forall i :: 0 <= i < |labels| ==> failure[i] == CountIn(g, Failure, labels[i], labels[i] + Day)
      decreases maxDate - date
    {
      labels := labels + [date];
      success := success + [CountIn(g, Success, date, date + Day)];
      failure := failure + [CountIn(g, Failure, date, date + Day)];
      date := date + Day;
    }
    s := Series(labels, success, failure);
    assert labels == ChartOver(g, minDate, n).labels;
    assert success == ChartOver(g, minDate, n).success;
    assert failure == ChartOver(g, minDate, n).failure;
  }

  /** createChart for a non-empty group, without the panel and the chart object. */
  method CreateChart(g: seq<Entry>) returns (s: Series)
    requires |g| > 0
    ensures s == SeriesOf(g)
  {
    RangeIsDayAligned(g);
    var minDate := Floor(g[EarliestIndex(Dates(g))].date);
    var maxDate := Floor(g[LatestIndex(Dates(g))].date) + Day;
    s := WalkDays(g, minDate, maxDate);
  }

  /** The sum of a sequence of counts. */
  function Sum(s: seq<nat>): nat
  {
    if |s| == 0 then 0 else Sum(s[..|s| - 1]) + s[|s| - 1]
  }

  /** Counting over two adjacent windows is counting over their union. */
  lemma {:induction false} CountInSplit(g: seq<Entry>, c: Conclusion, a: int, b: int, e: int)
    requires a <= b <= e
    ensures CountIn(g, c, a, b) + CountIn(g, c, b, e) == CountIn(g, c, a, e)
  {
    if |g| > 0 {
      CountInSplit(g[..|g| - 1], c, a, b, e);
    }
  }

  /** A window that holds every entry counts all entries of the conclusion. */
  lemma {:induction false} CountInWhole(g: seq<Entry>, c: Conclusion, a: int, b: int)
    requires forall k :: 0 <= k < |g| ==> a <= g[k].date < b
    ensures CountIn(g, c, a, b) == Total(g, c)
  {
    if |g| > 0 {
      CountInWhole(g[..|g| - 1], c, a, b);
    }
  }

  /** A window that holds no entry counts nothing. */
  lemma {:induction false} CountInEmpty(g: seq<Entry>, c: Conclusion, a: int, b: int)
    requires forall k :: 0 <= k < |g| ==> !(a <= g[k].date < b)
    ensures CountIn(g, c, a, b) == 0
  {
    if |g| > 0 {
      CountInEmpty(g[..|g| - 1], c, a, b);
    }
  }

  /** A window holding an entry of conclusion `c` counts at least one. */
  lemma {:induction false} CountInHolds(g: seq<Entry>, c: Conclusion, a: int, b: int, k: nat)
    requires k < |g| && g[k].conclusion == c && a <= g[k].date < b
    ensures CountIn(g, c, a, b) >= 1
  {
    if k < |g| - 1 {
      CountInHolds(g[..|g| - 1], c, a, b, k);
    }
  }

  /** Within one window, successes, failures and the rest together are all entries of that window. */
  lemma {:induction false} WindowPartition(g: seq<Entry>, a: int, b: int)
    ensures CountIn(g, Success, a, b) + CountIn(g, Failure, a, b) + Uncounted(g, a, b) == Present(g, a, b)
  {
    if |g| > 0 {
      WindowPartition(g[..|g| - 1], a, b);
    }
  }

  /** Consecutive day buckets add up to the count over the days they span. */
  lemma {:induction false} BucketedSum(g: seq<Entry>, c: Conclusion, lo: int, n: nat)
    ensures Sum(Bucketed(g, c, lo, n)) == CountIn(g, c, lo, lo + n * Day)
  {
    if n > 0 {
      var b := Bucketed(g, c, lo, n);
      assert b[..n - 1] == Bucketed(g, c, lo, n - 1);
      BucketedSum(g, c, lo, n - 1);
      CountInSplit(g, c, lo, lo + (n - 1) * Day, lo + n * Day);
    } else {
      assert Bucketed(g, c, lo, n) == [];
      CountInEmpty(g, c, lo, lo);
    }
  }

  /**
   * In any chart over consecutive days, a day's success and failure counts
   * together never exceed the entries of that day, and reach them exactly
   * when no entry of that day has another conclusion.
   */
  lemma BucketBound(g: seq<Entry>, lo: int, n: nat, i: nat)
    requires i < n
    ensures var s := ChartOver(g, lo, n); var d := s.labels[i];
      && s.success[i] == CountIn(g, Success, d, d + Day)
      && s.failure[i] == CountIn(g, Failure, d, d + Day)
      && s.success[i] + s.failure[i] <= Present(g, d, d + Day)
      && (s.success[i] + s.failure[i] == Present(g, d, d + Day) <==> Uncounted(g, d, d + Day) == 0)
  {
    WindowPartition(g, lo + i * Day, lo + i * Day + Day);
  }

  /** Buckets over days that hold every entry add up to all entries of the conclusion. */
  lemma BucketsCoverAll(g: seq<Entry>, c: Conclusion, lo: int, n: nat)
    requires forall k :: 0 <= k < |g| ==> lo <= g[k].date < lo + n * Day
    ensures Sum(Bucketed(g, c, lo, n)) == Total(g, c)
  {
    BucketedSum(g, c, lo, n);
    CountInWhole(g, c, lo, lo + n * Day);
  }

  /**
   * The labels start at the floored earliest start, end one day past the
   * floored latest start, step by one day, and so number
   * (floor(latest) - floor(earliest)) / Day + 2.
   */
  lemma LabelsSpanRange(g: seq<Entry>)
    requires |g| > 0
    ensures var s, lo, hi := SeriesOf(g), Lower(g), Upper(g);
      && |s.labels| == (hi - Day - lo) / Day + 2
      && |s.success| == |s.labels| && |s.failure| == |s.labels|
      && s.labels[0] == lo
      && s.labels[|s.labels| - 1] == hi
      && (forall i :: 0 < i < |s.labels| ==> s.labels[i] == s.labels[i - 1] + Day)
      && (forall i, j :: 0 <= i < j < |s.labels| ==> s.labels[i] < s.labels[j])
  {
    RangeIsDayAligned(g);
  }

  /** The last day bucket lies after every start, so it counts no success and no failure. */
  lemma LastBucketEmpty(g: seq<Entry>)
    requires |g| > 0
    ensures var s := SeriesOf(g);
      s.success[|s.success| - 1] == 0 && s.failure[|s.failure| - 1] == 0
  {
    RangeIsDayAligned(g);
    var last := Upper(g);
    CountInEmpty(g, Success, last, last + Day);
    CountInEmpty(g, Failure, last, last + Day);
  }

  /**
   * The day buckets cover every entry, so the successes over all days are all
   * the successes of the group, and likewise the failures.
   */
  lemma BucketsCoverGroup(g: seq<Entry>)
    requires |g| > 0
    ensures Sum(SeriesOf(g).success) == Total(g, Success)
    ensures Sum(SeriesOf(g).failure) == Total(g, Failure)
  {
    RangeIsDayAligned(g);
    BucketsCoverAll(g, Success, Lower(g), LabelCount(g));
    BucketsCoverAll(g, Failure, Lower(g), LabelCount(g));
  }

  /**
   * The buckets are disjoint: every entry starts within exactly one day
   * bucket, the one of its own floored start, and that is never the last.
   */
  lemma EachEntryInOneBucket(g: seq<Entry>, k: nat)
    requires k < |g|
    ensures var s := SeriesOf(g); var i := (Floor(g[k].date) - Lower(g)) / Day;
      && 0 <= i < |s.labels| - 1
      && s.labels[i] <= g[k].date < s.labels[i] + Day
      && (forall j :: 0 <= j < |s.labels| && s.labels[j] <= g[k].date < s.labels[j] + Day ==> j == i)
  {
    RangeIsDayAligned(g);
    var s := SeriesOf(g);
    var lo := Lower(g);
    var t := g[k].date;
    FloorMonotone(lo, t);
    var i := (Floor(t) - lo) / Day;
    assert Floor(t) == lo + i * Day;
    forall j | 0 <= j < |s.labels| && s.labels[j] <= t < s.labels[j] + Day
      ensures j == i
    {
      assert lo + j * Day <= t < lo + j * Day + Day;
      assert lo + i * Day <= t < lo + i * Day + Day;
    }
  }

  /**
   * Every entry is counted on its own day: the bucket of its floored start
   * counts at least one entry of its conclusion, when that is a success or a
   * failure.
   */
  lemma EntryCountedOnItsDay(g: seq<Entry>, k: nat)
    requires k < |g|
    ensures var s := SeriesOf(g); var i := (Floor(g[k].date) - Lower(g)) / Day;
      && 0 <= i < |s.labels| - 1
      && s.labels[i] == Floor(g[k].date)
      && (g[k].conclusion == Success ==> s.success[i] >= 1)
      && (g[k].conclusion == Failure ==> s.failure[i] >= 1)
  {
    EachEntryInOneBucket(g, k);
    var lo, n := Lower(g), LabelCount(g);
    var i := (Floor(g[k].date) - lo) / Day;
    RangeIsDayAligned(g);
    FloorMonotone(lo, g[k].date);
    assert Floor(g[k].date) == lo + i * Day;
    CountedInWindow(g, lo, n, i, k);
  }

  /** In any chart over consecutive days, an entry inside day `i` is counted there. */
  lemma CountedInWindow(g: seq<Entry>, lo: int, n: nat, i: nat, k: nat)
    requires i < n && k < |g| && lo + i * Day <= g[k].date < lo + i * Day + Day
    ensures var s := ChartOver(g, lo, n);
      && (g[k].conclusion == Success ==> s.success[i] >= 1)
      && (g[k].conclusion == Failure ==> s.failure[i] >= 1)
  {
    var d := lo + i * Day;
    if g[k].conclusion == Success {
      CountInHolds(g, Success, d, d + Day, k);
    }
    if g[k].conclusion == Failure {
      CountInHolds(g, Failure, d, d + Day, k);
    }
  }
}
