/**
 * `title`: the date range over all workflows. Its two nested reduces pick the
 * entry with the globally earliest and the one with the globally latest
 * start; title then floors the first one's Date object to midnight and moves
 * the second one's to the following midnight. Those Date objects are the
 * entries' own, so the entries change too. Here the entries' dates are the
 * cells of a sequence (or of an array, for the method), indexed by position.
 */
module Title {
  import opened Runs
  import opened Grouping
  import opened Chart

  /** What title's callers guarantee: at least one key, and every key's group non-empty. */
  predicate Layout(ds: seq<int>, w: Workflows)
  {
    |w.keys| > 0 && WellFormed(w, |ds|)
  }

  /** Position `q` is an entry of some group of `w`. */
  ghost predicate InGroups(w: Workflows, q: nat)
  {
    exists k :: k in w.keys && k in w.groups && q in w.groups[k]
  }

  /** The current dates of the entries at positions `ps`, in order. */
  function GroupDates(ds: seq<int>, ps: seq<nat>): (ts: seq<int>)
    requires forall j :: 0 <= j < |ps| ==> ps[j] < |ds|
    ensures |ts| == |ps| && forall j :: 0 <= j < |ps| ==> ts[j] == ds[ps[j]]
  {
    seq(|ps|, j requires 0 <= j < |ps| => ds[ps[j]])
  }

  /** The entry the inner reduce for minDate settles on, in the group of key number `j`. */
  function EarliestOf(ds: seq<int>, w: Workflows, j: nat): (p: nat)
    requires Layout(ds, w) && j < |w.keys|
    ensures p in w.groups[w.keys[j]] && p < |ds|
    ensures forall q :: q in w.groups[w.keys[j]] ==> ds[p] <= ds[q]
  {
    var ps := w.groups[w.keys[j]];
    assert forall i :: 0 <= i < |ps| ==> ps[i] in ps;
    var ts := GroupDates(ds, ps);
    var i := EarliestIndex(ts);
    assert forall q :: q in ps ==> exists k :: 0 <= k < |ps| && ps[k] == q && ts[k] == ds[q];
    ps[i]
  }

  /** The entry the inner reduce for maxDate settles on, in the group of key number `j`. */
  function LatestOf(ds: seq<int>, w: Workflows, j: nat): (p: nat)
    requires Layout(ds, w) && j < |w.keys|
    ensures p in w.groups[w.keys[j]] && p < |ds|
    ensures forall q :: q in w.groups[w.keys[j]] ==> ds[q] <= ds[p]
  {
    var ps := w.groups[w.keys[j]];
    assert forall i :: 0 <= i < |ps| ==> ps[i] in ps;
    var ts := GroupDates(ds, ps);
    var i := LatestIndex(ts);
    assert forall q :: q in ps ==> exists k :: 0 <= k < |ps| && ps[k] == q && ts[k] == ds[q];
    ps[i]
  }

  /** Per key, in key order, the date of the entry the inner reduce for minDate settles on. */
  function KeyEarliest(ds: seq<int>, w: Workflows): (ts: seq<int>)
    requires Layout(ds, w)
    ensures |ts| == |w.keys| > 0
  {
    seq(|w.keys|, j requires 0 <= j < |w.keys| => ds[EarliestOf(ds, w, j)])
  }

  /** Per key, in key order, the date of the entry the inner reduce for maxDate settles on. */
  function KeyLatest(ds: seq<int>, w: Workflows): (ts: seq<int>)
    requires Layout(ds, w)
    ensures |ts| == |w.keys| > 0
  {
    seq(|w.keys|, j requires 0 <= j < |w.keys| => ds[LatestOf(ds, w, j)])
  }

  /**
   * The position of the Date object title's minDate is. The outer reduce
   * `pre && pre < value.date ? pre : value.date` has the tie rule of
   * createChart's, so it is EarliestIndex over the keys' earliest dates.
   */
  function MinPos(ds: seq<int>, w: Workflows): (p: nat)
    requires Layout(ds, w)
    ensures p < |ds| && InGroups(w, p)
    ensures forall k, q :: k in w.keys && q in w.groups[k] ==> ds[p] <= ds[q]
  {
    var r := EarliestIndex(KeyEarliest(ds, w));
    var p := EarliestOf(ds, w, r);
    MinPosIsEarliest(ds, w, r, p);
    p
  }

  lemma MinPosIsEarliest(ds: seq<int>, w: Workflows, r: nat, p: nat)
    requires Layout(ds, w) && r < |w.keys|
    requires r == EarliestIndex(KeyEarliest(ds, w)) && p == EarliestOf(ds, w, r)
    ensures InGroups(w, p)
    ensures forall k, q :: k in w.keys && q in w.groups[k] ==> ds[p] <= ds[q]
  {
    assert w.keys[r] in w.keys;
    var ts := KeyEarliest(ds, w);
    forall k, q | k in w.keys && q in w.groups[k]
      ensures ds[p] <= ds[q]
    {
      var j :| 0 <= j < |w.keys| && w.keys[j] == k;
      assert ts[r] <= ts[j];
    }
  }

  /**
   * The position of the Date object title's maxDate is (on the dates as they
   * are when the reduce runs): LatestIndex over the keys' latest dates.
   */
  function MaxPos(ds: seq<int>, w: Workflows): (p: nat)
    requires Layout(ds, w)
    ensures p < |ds| && InGroups(w, p)
    ensures forall k, q :: k in w.keys && q in w.groups[k] ==> ds[q] <= ds[p]
  {
    var r := LatestIndex(KeyLatest(ds, w));
    var p := LatestOf(ds, w, r);
    MaxPosIsLatest(ds, w, r, p);
    p
  }

  lemma MaxPosIsLatest(ds: seq<int>, w: Workflows, r: nat, p: nat)
    requires Layout(ds, w) && r < |w.keys|
    requires r == LatestIndex(KeyLatest(ds, w)) && p == LatestOf(ds, w, r)
    ensures InGroups(w, p)
    ensures forall k, q :: k in w.keys && q in w.groups[k] ==> ds[q] <= ds[p]
  {
    assert w.keys[r] in w.keys;
    var ts := KeyLatest(ds, w);
    forall k, q | k in w.keys && q in w.groups[k]
      ensures ds[q] <= ds[p]
    {
      var j :| 0 <= j < |w.keys| && w.keys[j] == k;
      assert ts[j] <= ts[r];
    }
  }

  /**
   * title's tie rule for minDate: the outer reduce keeps the later of equal
   * keys, so every entry of a later key starts strictly after minDate; the
   * inner reduce keeps the later of equal entries, so no entry after minDate
   * in its group starts as early.
   */
  lemma MinPosTies(ds: seq<int>, w: Workflows)
    requires Layout(ds, w)
    ensures var p, ps := MinPos(ds, w), w.groups[MinKey(ds, w)];
      && (exists r :: 0 <= r < |w.keys| && w.keys[r] == MinKey(ds, w)
            && forall l, q :: r < l < |w.keys| && q in w.groups[w.keys[l]] ==> ds[p] < ds[q])
      && (exists i :: 0 <= i < |ps| && ps[i] == p && forall l :: i < l < |ps| ==> ps[l] < |ds| && ds[p] < ds[ps[l]])
  {
    var ts := KeyEarliest(ds, w);
    var r := EarliestIndex(ts);
    var p := EarliestOf(ds, w, r);
    assert MinPos(ds, w) == p && MinKey(ds, w) == w.keys[r];
    forall l, q | r < l < |w.keys| && q in w.groups[w.keys[l]]
      ensures ds[p] < ds[q]
    {
      assert ts[r] < ts[l] == ds[EarliestOf(ds, w, l)] <= ds[q];
    }
    var ps := w.groups[w.keys[r]];
    assert forall j :: 0 <= j < |ps| ==> ps[j] in ps;
    var gd := GroupDates(ds, ps);
    var i := EarliestIndex(gd);
    assert p == ps[i];
    forall l | i < l < |ps|
      ensures ps[l] < |ds| && ds[p] < ds[ps[l]]
    {
      assert gd[i] < gd[l];
    }
  }

  /**
   * title's tie rule for maxDate: every entry of a later key starts strictly
   * before maxDate, and no entry after maxDate in its group starts as late.
   */
  lemma MaxPosTies(ds: seq<int>, w: Workflows)
    requires Layout(ds, w)
    ensures var p, ps := MaxPos(ds, w), w.groups[MaxKey(ds, w)];
      && (exists r :: 0 <= r < |w.keys| && w.keys[r] == MaxKey(ds, w)
            && forall l, q :: r < l < |w.keys| && q in w.groups[w.keys[l]] ==> ds[q] < ds[p])
      && (exists i :: 0 <= i < |ps| && ps[i] == p && forall l :: i < l < |ps| ==> ps[l] < |ds| && ds[ps[l]] < ds[p])
  {
    var ts := KeyLatest(ds, w);
    var r := LatestIndex(ts);
    var p := LatestOf(ds, w, r);
    assert MaxPos(ds, w) == p && MaxKey(ds, w) == w.keys[r];
    forall l, q | r < l < |w.keys| && q in w.groups[w.keys[l]]
      ensures ds[q] < ds[p]
    {
      assert ds[q] <= ds[LatestOf(ds, w, l)] == ts[l] < ts[r];
    }
    var ps := w.groups[w.keys[r]];
    assert forall j :: 0 <= j < |ps| ==> ps[j] in ps;
    var gd := GroupDates(ds, ps);
    var i := LatestIndex(gd);
    assert p == ps[i];
    forall l | i < l < |ps|
      ensures ps[l] < |ds| && ds[ps[l]] < ds[p]
    {
      assert gd[l] < gd[i];
    }
  }

  /** The key whose group holds the entry MinPos picks: the key the outer reduce for minDate settles on. */
  function MinKey(ds: seq<int>, w: Workflows): (k: string)
    requires Layout(ds, w)
    ensures k in w.keys && MinPos(ds, w) in w.groups[k]
  {
    w.keys[EarliestIndex(KeyEarliest(ds, w))]
  }

  /** The key whose group holds the entry MaxPos picks: the key the outer reduce for maxDate settles on. */
  function MaxKey(ds: seq<int>, w: Workflows): (k: string)
    requires Layout(ds, w)
    ensures k in w.keys && MaxPos(ds, w) in w.groups[k]
  {
    w.keys[LatestIndex(KeyLatest(ds, w))]
  }

  /**
   * title's range computed on copies of the Date objects: from the midnight
   * of the earliest start to the midnight after the latest start.
   */
  function GlobalRange(ds: seq<int>, w: Workflows): (r: (int, int))
    requires Layout(ds, w)
    ensures r.0 % Day == 0 && r.1 % Day == 0
  {
    var lo, hi := MinPos(ds, w), MaxPos(ds, w);
    NextMidnight(Floor(ds[hi]));
    (Floor(ds[lo]), Floor(ds[hi]) + Day)
  }

  /** Every entry of every group starts within the range. */
  lemma RangeCoversEntries(ds: seq<int>, w: Workflows)
    requires Layout(ds, w)
    ensures var r := GlobalRange(ds, w);
      forall k, q :: k in w.keys && q in w.groups[k] ==> 0 <= q < |ds| && r.0 <= ds[q] < r.1
  {
    var lo, hi := MinPos(ds, w), MaxPos(ds, w);
    forall k, q | k in w.keys && q in w.groups[k]
      ensures 0 <= q < |ds| && Floor(ds[lo]) <= ds[q] < Floor(ds[hi]) + Day
    {
      assert ds[lo] <= ds[q] <= ds[hi];
    }
  }

  /** The range is tight: some entry starts on its first day, and some on the day before its end. */
  lemma RangeIsTight(ds: seq<int>, w: Workflows)
    requires Layout(ds, w)
    ensures var r := GlobalRange(ds, w);
      && (exists q :: 0 <= q < |ds| && InGroups(w, q) && ds[q] < r.0 + Day)
      && (exists q :: 0 <= q < |ds| && InGroups(w, q) && r.1 - Day <= ds[q])
  {
    var lo, hi := MinPos(ds, w), MaxPos(ds, w);
    assert ds[lo] < Floor(ds[lo]) + Day && InGroups(w, lo);
    assert Floor(ds[hi]) <= ds[hi] && InGroups(w, hi);
  }

  /**
   * The entries' dates after title as written: the earliest entry's Date is
   * floored in place, then the latest one, picked on the changed dates, is
   * floored and moved one day on in place.
   */
  function AfterTitle(ds: seq<int>, w: Workflows): (ds': seq<int>)
    requires Layout(ds, w)
    ensures |ds'| == |ds|
  {
    var m := MinPos(ds, w);
    var ds1 := ds[m := Floor(ds[m])];
    var M := MaxPos(ds1, w);
    ds1[M := Floor(ds1[M]) + Day]
  }

  /** Changing the date of one entry keeps the layout. */
  lemma LayoutKept(ds: seq<int>, w: Workflows, m: nat, v: int)
    requires Layout(ds, w) && m < |ds|
    ensures Layout(ds[m := v], w)
  {
  }

  /** The range title as written shows: the values its two Date objects hold once both updates are done. */
  function TitleShown(ds: seq<int>, w: Workflows): (r: (int, int))
    requires Layout(ds, w)
    ensures r.0 % Day == 0 && r.1 % Day == 0
  {
    var m := MinPos(ds, w);
    var bottom := Floor(ds[m]);
    var ds1 := ds[m := bottom];
    LayoutKept(ds, w, m, bottom);
    var M := MaxPos(ds1, w);
    NextMidnight(Floor(ds1[M]));
    var top := Floor(ds1[M]) + Day;
    (if m == M then top else bottom, top)
  }

  /**
   * title as written, over the entries' Date objects held in `dates`: the
   * updates land in the array the charts are drawn from afterwards.
   */
  method TitleInPlace(dates: array<int>, w: Workflows) returns (from: int, to: int)
    requires Layout(dates[..], w)
    modifies dates
    ensures dates[..] == AfterTitle(old(dates[..]), w)
    ensures (from, to) == TitleShown(old(dates[..]), w)
  {
    ghost var ds := dates[..];
    var minDate := MinPos(dates[..], w);
    dates[minDate] := Floor(dates[minDate]);
    ghost var ds1 := dates[..];
    assert ds1 == ds[minDate := Floor(ds[minDate])];
    var maxDate := MaxPos(dates[..], w);
    dates[maxDate] := Floor(dates[maxDate]) + Day;
    assert dates[..] == ds1[maxDate := Floor(ds1[maxDate]) + Day];
    from, to := dates[minDate], dates[maxDate];
  }

  /**
   * What title as written does to the entries: the latest entry ends on the
   * upper end of the range, one day past its own midnight; the earliest one
   * ends on the lower end unless it is the same entry; no other entry
   * changes. The upper end shown is right; the lower end shown is the upper
   * end when one Date object is both.
   */
  lemma TitleMovesLatestEntry(ds: seq<int>, w: Workflows)
    requires Layout(ds, w)
    ensures var ds2, r := AfterTitle(ds, w), GlobalRange(ds, w);
      var m := MinPos(ds, w);
      var M := MaxPos(ds[m := Floor(ds[m])], w);
      && ds2[M] == r.1
      && (m != M ==> ds2[m] == r.0)
      && (forall q :: 0 <= q < |ds| && q != m && q != M ==> ds2[q] == ds[q])
      && TitleShown(ds, w) == (if m == M then r.1 else r.0, r.1)
  {
    var m := MinPos(ds, w);
    var ds1 := ds[m := Floor(ds[m])];
    LatestAfterFlooring(ds, ds1, w, m);
  }

  /**
   * Flooring one entry does not move the latest entry off its day: the
   * latest entry of the changed dates has the midnight of the original latest.
   */
  lemma LatestAfterFlooring(ds: seq<int>, ds1: seq<int>, w: Workflows, m: nat)
    requires Layout(ds, w) && m < |ds| && ds1 == ds[m := Floor(ds[m])]
    ensures Floor(ds1[MaxPos(ds1, w)]) == Floor(ds[MaxPos(ds, w)])
  {
    var M := MaxPos(ds1, w);
    var P := MaxPos(ds, w);
    var kP :| kP in w.keys && kP in w.groups && P in w.groups[kP];
    var kM :| kM in w.keys && kM in w.groups && M in w.groups[kM];
    assert ds1[P] >= Floor(ds[P]);
    assert ds1[M] >= ds1[P];
    assert ds1[M] <= ds[M] <= ds[P];
    FloorWithinDay(Floor(ds[P]), ds1[M]);
  }
}
