/**
 * The bookkeeping of `render`: whether the static snapshot is shown, whether
 * the cached snapshot is used, and the fetch loop over the pages of the
 * workflow-runs listing. The network, the clock and the cache slot are
 * inputs: the replies to successive requests are a given sequence, each with
 * the clock reading at which its snapshot is stored.
 */
module Fetch {
  import opened Runs

  /** The cache is fresh for one hour: 1000 * 60 * 60 * 1 ms. */
  const FreshFor: int := 1000 * 60 * 60 * 1

  /** What the cache slot holds: when it was written, the runs, the total count and the next page. */
  datatype Snapshot = Snapshot(date: int, data: seq<Run>, totalCount: int, page: int)

  /** One reply of the listing: `total_count`, `workflow_runs`, and the clock when its snapshot is stored. */
  datatype Response = Response(totalCount: int, runs: seq<Run>, at: int)

  /** The loop's state: the runs gathered so far, the last total count and the next page to request. */
  datatype Cursor = Cursor(data: seq<Run>, totalCount: int, page: int)

  /** The cached snapshot is younger than an hour at `now`. */
  predicate IsFresh(stored: Option<Snapshot>, now: int): (b: bool)
    ensures b <==> stored.Some? && now < stored.value.date + 3600000
  {
    stored.Some? && now - stored.value.date < FreshFor
  }

  /**
   * The state the loop starts from: a fresh cached snapshot replaces the
   * static data, the total (0) and the page (0); a stale or missing one
   * leaves them.
   */
  function Start(staticData: seq<Run>, stored: Option<Snapshot>, now: int): (c: Cursor)
    ensures stored.Some? && now - stored.value.date < FreshFor
      ==> c == Cursor(stored.value.data, stored.value.totalCount, stored.value.page)
    ensures stored.None? || now - stored.value.date >= FreshFor
      ==> c == Cursor(staticData, 0, 0)
  {
    if IsFresh(stored, now) then Cursor(stored.value.data, stored.value.totalCount, stored.value.page)
    else Cursor(staticData, 0, 0)
  }

  /** The threshold is strict: 59 minutes old is fresh, 60 and 61 minutes old are stale. */
  lemma FreshnessBoundary(s: Snapshot, staticData: seq<Run>)
    ensures Start(staticData, Some(s), s.date + 59 * 60000) == Cursor(s.data, s.totalCount, s.page)
    ensures Start(staticData, Some(s), s.date + 60 * 60000) == Cursor(staticData, 0, 0)
    ensures Start(staticData, Some(s), s.date + 61 * 60000) == Cursor(staticData, 0, 0)
  {
  }

  /** The runs of `runs` whose head branch is `main`, in order. */
  function MainOnly(runs: seq<Run>): (r: seq<Run>)
    ensures |r| <= |runs|
    ensures forall x :: x in r <==> x in runs && x.branch == "main"
  {
    if |runs| == 0 then []
    else
      var last := runs[|runs| - 1];
      MainOnly(runs[..|runs| - 1]) + (if last.branch == "main" then [last] else [])
  }

  /** Filtering is done run by run, so it keeps order: filtering two pieces is filtering their concatenation. */
  lemma {:induction false} MainOnlyAppend(a: seq<Run>, b: seq<Run>)
    ensures MainOnly(a + b) == MainOnly(a) + MainOnly(b)
  {
    if |b| > 0 {
      var init := b[..|b| - 1];
      assert (a + b)[..|a + b| - 1] == a + init;
      MainOnlyAppend(a, init);
    } else {
      assert a + b == a;
    }
  }

  /** The `forEach` over one reply: every run on `main` is pushed onto `data`. */
  method AppendMain(data: seq<Run>, runs: seq<Run>) returns (d: seq<Run>)
    ensures d == data + MainOnly(runs)
  {
    d := data;
    var i := 0;
    while i < |runs|
      invariant 0 <= i <= |runs|
      invariant d == data + MainOnly(runs[..i])
    {
      assert runs[..i + 1][..i] == runs[..i];
      if runs[i].branch == "main" {
        d := d + [runs[i]];
      }
      i := i + 1;
    }
    assert runs[..i] == runs;
  }

  /** The number of runs the replies `rs` list, on any branch. */
  function RunCount(rs: seq<Response>): nat
  {
    if |rs| == 0 then 0 else RunCount(rs[..|rs| - 1]) + |rs[|rs| - 1].runs|
  }

  /** The runs gathered after the replies `rs`, starting from `d0`: never fewer, never more than the replies list. */
  function Accumulate(d0: seq<Run>, rs: seq<Response>): (d: seq<Run>)
    ensures |d0| <= |d| <= |d0| + RunCount(rs)
  {
    if |rs| == 0 then d0
    else Accumulate(d0, rs[..|rs| - 1]) + MainOnly(rs[|rs| - 1].runs)
  }

  /** The loop only appends: `d0` stays as it was, and every run after it is on `main`. */
  lemma {:induction false} AccumulateAppendsMain(d0: seq<Run>, rs: seq<Response>)
    ensures var d := Accumulate(d0, rs);
      && |d0| <= |d| && d[..|d0|] == d0
      && forall i :: |d0| <= i < |d| ==> d[i].branch == "main"
  {
    if |rs| > 0 {
      var prev := Accumulate(d0, rs[..|rs| - 1]);
      var added := MainOnly(rs[|rs| - 1].runs);
      AccumulateAppendsMain(d0, rs[..|rs| - 1]);
      assert forall i :: |prev| <= i < |prev + added| ==> (prev + added)[i] in added;
    }
  }

  /** Later replies only append: what was gathered after `j` replies is a prefix of what is gathered after all. */
  lemma {:induction false} AccumulateExtends(d0: seq<Run>, rs: seq<Response>, j: nat)
    requires j <= |rs|
    ensures var a, b := Accumulate(d0, rs[..j]), Accumulate(d0, rs);
      |a| <= |b| && b[..|a|] == a
  {
    if j < |rs| {
      var init := rs[..|rs| - 1];
      assert init[..j] == rs[..j];
      AccumulateExtends(d0, init, j);
    } else {
      assert rs[..j] == rs;
    }
  }

  /** `data.length < total_count && data.length`: the do-while goes on. */
  predicate MoreToFetch(data: seq<Run>, totalCount: int): (b: bool)
    ensures b <==> 0 < |data| < totalCount
  {
    |data| < totalCount && |data| != 0
  }

  /**
   * What render did: either it showed the static snapshot and returned, or it
   * ran the fetch loop. Then `shown` are the run lists drawn at the top of
   * each iteration, `requests` the number of replies consumed, `data`, `totalCount`
   * and `page` the loop's final state, `stored` the cache slot afterwards,
   * and `exhausted` says the loop wanted one more page than the replies given.
   */
  datatype Outcome =
    | Static(staticShown: seq<Run>)
    | Fetched(shown: seq<seq<Run>>, data: seq<Run>, totalCount: int, page: int,
              requests: nat, stored: Option<Snapshot>, exhausted: bool)

  /**
   * The body of render. `live` is whether the page's query has `live`,
   * `stored` the cache slot, `now` the clock when it is read and
   * `responses[k]` the reply to the k-th request.
   */
  method Render(staticData: seq<Run>, live: bool, stored: Option<Snapshot>, now: int, responses: seq<Response>)
    returns (out: Outcome)
    ensures out.Static? <==> !live && |staticData| > 0
    ensures out.Static? ==> out.staticShown == staticData
    ensures out.Fetched? ==> FetchedFrom(out, Start(staticData, stored, now), stored, responses)
  {
    if !live && |staticData| > 0 {
      return Static(staticData);
    }
    var c := Start(staticData, stored, now);
    out := FetchLoop(c, stored, responses);
  }

  /** The loop's state after the replies `rs`: their main runs gathered, the last total, one page per reply. */
  function After(c: Cursor, rs: seq<Response>): (r: Cursor)
    ensures r.page == c.page + |rs| && |c.data| <= |r.data|
  {
    Cursor(Accumulate(c.data, rs), if |rs| == 0 then c.totalCount else rs[|rs| - 1].totalCount, c.page + |rs|)
  }

  /**
   * What the fetch loop, started from `c` with the cache slot `stored`, did
   * once it is over: `n` replies consumed, one page requested per reply from
   * `c.page` on, the replies' main runs appended in order, the cache slot
   * holding the last snapshot, the list drawn before each request, and the
   * loop gone on exactly while MoreToFetch held.
   */
  ghost predicate FetchedFrom(out: Outcome, c: Cursor, stored: Option<Snapshot>, responses: seq<Response>)
    requires out.Fetched?
  {
    var n := out.requests;
    && n <= |responses|
    && Cursor(out.data, out.totalCount, out.page) == After(c, responses[..n])
    && out.stored == (if n == 0 then stored else Some(Snapshot(responses[n - 1].at, out.data, out.totalCount, out.page)))
    && |out.shown| == (if out.exhausted then n + 1 else n)
    && (forall j :: 0 <= j < |out.shown| ==> out.shown[j] == Accumulate(c.data, responses[..j]))
    && (forall j :: 0 < j < n ==> MoreToFetch(Accumulate(c.data, responses[..j]), responses[j - 1].totalCount))
    && (out.exhausted ==> n == |responses| && (n == 0 || MoreToFetch(out.data, out.totalCount)))
    && (!out.exhausted ==> n > 0 && !MoreToFetch(out.data, out.totalCount))
  }

  /** One iteration's request: the reply's main runs appended, its total taken, the page moved on. */
  method Request(cur: Cursor, reply: Response) returns (next: Cursor)
    ensures next == Cursor(cur.data + MainOnly(reply.runs), reply.totalCount, cur.page + 1)
  {
    var data := AppendMain(cur.data, reply.runs);
    next := Cursor(data, reply.totalCount, cur.page + 1);
  }

  /** After one more reply the state is one Request further on. */
  lemma AfterStep(c: Cursor, rs: seq<Response>, k: nat)
    requires k < |rs|
    ensures var a := After(c, rs[..k]);
      After(c, rs[..k + 1]) == Cursor(a.data + MainOnly(rs[k].runs), rs[k].totalCount, a.page + 1)
  {
    assert rs[..k + 1][..k] == rs[..k];
  }

  /**
   * The fetch loop's invariant after `k` replies: the state is After them,
   * the list drawn before each of them is recorded, the cache slot holds the
   * last snapshot, and the loop went on after every reply but the last.
   */
  ghost predicate LoopInv(c: Cursor, stored: Option<Snapshot>, responses: seq<Response>,
                          k: nat, cur: Cursor, shown: seq<seq<Run>>, slot: Option<Snapshot>)
  {
    && k <= |responses|
    && cur == After(c, responses[..k])
    && slot == (if k == 0 then stored else Some(Snapshot(responses[k - 1].at, cur.data, cur.totalCount, cur.page)))
    && |shown| == k && (forall j :: 0 <= j < k ==> shown[j] == Accumulate(c.data, responses[..j]))
    && (forall j :: 0 < j < k ==> MoreToFetch(Accumulate(c.data, responses[..j]), responses[j - 1].totalCount))
  }

  /** One iteration that gets a reply keeps the invariant. */
  lemma LoopStep(c: Cursor, stored: Option<Snapshot>, responses: seq<Response>,
                 k: nat, cur: Cursor, shown: seq<seq<Run>>, slot: Option<Snapshot>)
    requires LoopInv(c, stored, responses, k, cur, shown, slot)
    requires k < |responses| && (k == 0 || MoreToFetch(cur.data, cur.totalCount))
    ensures var next := Cursor(cur.data + MainOnly(responses[k].runs), responses[k].totalCount, cur.page + 1);
      LoopInv(c, stored, responses, k + 1, next, shown + [cur.data],
              Some(Snapshot(responses[k].at, next.data, next.totalCount, next.page)))
  {
    AfterStep(c, responses, k);
    var shown' := shown + [cur.data];
    assert forall j :: 0 <= j < k ==> shown'[j] == shown[j];
  }

  /** An iteration that finds no reply left ends the loop as exhausted. */
  lemma LoopExhausted(c: Cursor, stored: Option<Snapshot>, responses: seq<Response>,
                      k: nat, cur: Cursor, shown: seq<seq<Run>>, slot: Option<Snapshot>)
    requires LoopInv(c, stored, responses, k, cur, shown, slot)
    requires k == |responses| && (k == 0 || MoreToFetch(cur.data, cur.totalCount))
    ensures FetchedFrom(Fetched(shown + [cur.data], cur.data, cur.totalCount, cur.page, k, slot, true), c, stored, responses)
  {
    var shown' := shown + [cur.data];
    assert forall j :: 0 <= j < k ==> shown'[j] == shown[j];
  }

  /** The loop condition failing after a reply ends the loop normally. */
  lemma LoopDone(c: Cursor, stored: Option<Snapshot>, responses: seq<Response>,
                 k: nat, cur: Cursor, shown: seq<seq<Run>>, slot: Option<Snapshot>)
    requires LoopInv(c, stored, responses, k, cur, shown, slot)
    requires k > 0 && !MoreToFetch(cur.data, cur.totalCount)
    ensures FetchedFrom(Fetched(shown, cur.data, cur.totalCount, cur.page, k, slot, false), c, stored, responses)
  {
  }

  /** The do-while of render, from the state `c` and the cache slot `stored`. */
  method FetchLoop(c: Cursor, stored: Option<Snapshot>, responses: seq<Response>) returns (out: Outcome)
    ensures out.Fetched? && FetchedFrom(out, c, stored, responses)
  {
    var cur := c;
    var shown: seq<seq<Run>> := [];
    var slot := stored;
    var k := 0;
    var going := true;
    assert responses[..0] == [];
    while going
      invariant LoopInv(c, stored, responses, k, cur, shown, slot)
      invariant going <==> k == 0 || MoreToFetch(cur.data, cur.totalCount)
      decreases |responses| - k
    {
      if k == |responses| {
        LoopExhausted(c, stored, responses, k, cur, shown, slot);
        return Fetched(shown + [cur.data], cur.data, cur.totalCount, cur.page, k, slot, true);
      }
      LoopStep(c, stored, responses, k, cur, shown, slot);
      shown := shown + [cur.data];
      var reply := responses[k];
      cur := Request(cur, reply);
      slot := Some(Snapshot(reply.at, cur.data, cur.totalCount, cur.page));
      k := k + 1;
      going := MoreToFetch(cur.data, cur.totalCount);
    }
    LoopDone(c, stored, responses, k, cur, shown, slot);
    out := Fetched(shown, cur.data, cur.totalCount, cur.page, k, slot, false);
  }
}
