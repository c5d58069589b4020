/**
 * The grouping half of `maybeProcessData`: the flat list of runs becomes a
 * dictionary from workflow name to the list of that workflow's entries.
 * An entry is identified by the position of the run it was made from, so
 * that a group is the list of positions of its runs.
 */
module Grouping {
  import opened Runs

  /** The dictionary: its keys in insertion order, and the positions each key holds. */
  datatype Workflows = Workflows(keys: seq<string>, groups: map<string, seq<nat>>)

  /** The workflow names of `data`, each once, in order of first appearance. */
  function Names(data: seq<Run>): (ks: seq<string>)
    ensures forall i, j :: 0 <= i < j < |ks| ==> ks[i] != ks[j]
    ensures forall n :: n in ks <==> exists i :: 0 <= i < |data| && data[i].name == n
  {
    if |data| == 0 then []
    else
      var ks := Names(data[..|data| - 1]);
      var n := data[|data| - 1].name;
      if n in ks then ks else ks + [n]
  }

  /**
   * The keys come in order of first appearance: if key i precedes key j,
   * every run named key j has a run named key i before it.
   */
  lemma {:induction false} NamesInFirstOrder(data: seq<Run>, i: nat, j: nat, q: nat)
    requires i < j < |Names(data)| && q < |data| && data[q].name == Names(data)[j]
    ensures exists p :: 0 <= p < q && data[p].name == Names(data)[i]
  {
    var init := data[..|data| - 1];
    var ks := Names(init);
    assert Names(data) == ks || Names(data) == ks + [data[|data| - 1].name];
    if q < |data| - 1 && j < |ks| {
      assert init[q] == data[q];
      NamesInFirstOrder(init, i, j, q);
      var p :| 0 <= p < q && init[p].name == ks[i];
      assert data[p] == init[p];
    } else if j < |ks| {
      var q' :| 0 <= q' < |init| && init[q'].name == ks[j];
      NamesInFirstOrder(init, i, j, q');
      var p :| 0 <= p < q' && init[p].name == ks[i];
      assert data[p] == init[p];
    } else {
      assert Names(data) == ks + [data[|data| - 1].name] && Names(data)[i] == ks[i] && ks[i] in ks;
      var p :| 0 <= p < |init| && init[p].name == ks[i];
      assert data[p] == init[p];
      if q < |data| - 1 {
        assert false;
      }
    }
  }

  /** The positions of the runs named `n`, in input order. */
  function Positions(data: seq<Run>, n: string): (ps: seq<nat>)
    ensures forall j :: 0 <= j < |ps| ==> ps[j] < |data| && data[ps[j]].name == n
    ensures forall j, k :: 0 <= j < k < |ps| ==> ps[j] < ps[k]
    ensures forall i :: 0 <= i < |data| && data[i].name == n ==> i in ps
  {
    if |data| == 0 then []
    else
      var ps := Positions(data[..|data| - 1], n);
      if data[|data| - 1].name == n then ps + [|data| - 1] else ps
  }

  /** Taking one more run into account extends only the group of its own name. */
  lemma PositionsStep(data: seq<Run>, i: nat, n: string)
    requires i < |data|
    ensures Positions(data[..i + 1], n)
         == Positions(data[..i], n) + (if data[i].name == n then [i] else [])
  {
    assert data[..i + 1][..i] == data[..i];
  }

  /** A name that occurs nowhere has no positions. */
  lemma PositionsOfUnseen(data: seq<Run>, n: string)
    requires n !in Names(data)
    ensures Positions(data, n) == []
  {
  }

  /** The dictionary maybeProcessData builds from `data`. */
  function GroupsOf(data: seq<Run>): (w: Workflows)
    ensures forall n :: n in w.groups <==> n in w.keys
  {
    Workflows(Names(data), map n | n in Names(data) :: Positions(data, n))
  }

  /** The dictionary after the first `i` runs: the names seen so far, each with its positions so far. */
  ghost predicate GroupInv(data: seq<Run>, i: nat, keys: seq<string>, groups: map<string, seq<nat>>)
    requires i <= |data|
  {
    && keys == Names(data[..i])
    && (forall n :: n in groups <==> n in keys)
    && (forall n :: n in groups ==> groups[n] == Positions(data[..i], n))
  }

  /** Pushing run `i` onto its name's list, creating the list first if the name is new, keeps GroupInv. */
  lemma GroupStep(data: seq<Run>, i: nat, keys: seq<string>, groups: map<string, seq<nat>>)
    requires i < |data| && GroupInv(data, i, keys, groups)
    ensures var name := data[i].name;
      GroupInv(data, i + 1,
               if name in groups then keys else keys + [name],
               groups[name := (if name in groups then groups[name] else []) + [i]])
  {
    assert data[..i + 1][..i] == data[..i];
    var name := data[i].name;
    if name !in groups {
      PositionsOfUnseen(data[..i], name);
    }
    var groups' := groups[name := (if name in groups then groups[name] else []) + [i]];
    forall n | n in groups'
      ensures groups'[n] == Positions(data[..i + 1], n)
    {
      PositionsStep(data, i, n);
    }
  }

  /**
   * The `forEach` of maybeProcessData: a key is added the first time its
   * name is seen, and every run's position is pushed onto its name's list.
   */
  method GroupRuns(data: seq<Run>) returns (w: Workflows)
    ensures w == GroupsOf(data)
  {
    var keys: seq<string> := [];
    var groups: map<string, seq<nat>> := map[];
    var i := 0;
    while i < |data|
      invariant 0 <= i <= |data|
      invariant GroupInv(data, i, keys, groups)
    {
      GroupStep(data, i, keys, groups);
      var name := data[i].name;
      if name !in groups {
        groups := groups[name := []];
        keys := keys + [name];
      }
      groups := groups[name := groups[name] + [i]];
      i := i + 1;
    }
    assert data[..i] == data;
    w := Workflows(keys, groups);
    assert groups == GroupsOf(data).groups;
  }

  /** A dictionary whose keys all hold a non-empty list of positions below `size`. */
  predicate WellFormed(w: Workflows, size: nat)
  {
    forall n :: n in w.keys ==> n in w.groups && |w.groups[n]| > 0 && forall p :: p in w.groups[n] ==> p < size
  }

  /**
   * Every run lies in the group of its own name and in no other, exactly
   * once, and every group is non-empty.
   */
  lemma {:induction false} EveryRunInItsGroup(data: seq<Run>, i: nat, n: string)
    requires i < |data| && n in Names(data)
    ensures var g := GroupsOf(data).groups[n];
      && |g| > 0
      && (i in g <==> data[i].name == n)
      && (forall j, k :: 0 <= j < k < |g| ==> g[j] != g[k])
  {
    var g := GroupsOf(data).groups[n];
    var m :| 0 <= m < |data| && data[m].name == n;
    assert m in g;
  }

  /** The dictionary built from any input is well formed over that input. */
  lemma GroupsWellFormed(data: seq<Run>)
    ensures WellFormed(GroupsOf(data), |data|)
  {
    var w := GroupsOf(data);
    forall n | n in w.keys
      ensures n in w.groups && |w.groups[n]| > 0
    {
      var m :| 0 <= m < |data| && data[m].name == n;
      assert m in w.groups[n];
    }
  }

  /** The sum of the group sizes of the keys `ks`. */
  function SizeSum(data: seq<Run>, ks: seq<string>): nat
  {
    if |ks| == 0 then 0 else SizeSum(data, ks[..|ks| - 1]) + |Positions(data, ks[|ks| - 1])|
  }

  /** Appending one run adds one to the size of its own group and to no other. */
  lemma {:induction false} SizeSumGrows(data: seq<Run>, r: Run, ks: seq<string>)
    requires forall i, j :: 0 <= i < j < |ks| ==> ks[i] != ks[j]
    ensures SizeSum(data + [r], ks) == SizeSum(data, ks) + (if r.name in ks then 1 else 0)
  {
    if |ks| > 0 {
      var init := ks[..|ks| - 1];
      SizeSumGrows(data, r, init);
      assert (data + [r])[..|data|] == data;
      assert r.name in ks <==> r.name in init || r.name == ks[|ks| - 1];
      assert r.name == ks[|ks| - 1] ==> r.name !in init;
    }
  }

  /** The group sizes add up to the number of input runs. */
  lemma {:induction false} GroupSizesSum(data: seq<Run>)
    ensures SizeSum(data, Names(data)) == |data|
  {
    if |data| > 0 {
      var init, r := data[..|data| - 1], data[|data| - 1];
      assert data == init + [r];
      GroupSizesSum(init);
      var ks := Names(init);
      SizeSumGrows(init, r, ks);
      if r.name !in ks {
        SizeSumNewName(init, r);
      }
    }
  }

  /** A run with a new name adds a key whose group is that one run. */
  lemma SizeSumNewName(init: seq<Run>, r: Run)
    requires r.name !in Names(init)
    ensures Names(init + [r]) == Names(init) + [r.name]
    ensures SizeSum(init + [r], Names(init + [r])) == SizeSum(init + [r], Names(init)) + 1
  {
    var data, ks := init + [r], Names(init);
    assert data[..|data| - 1] == init;
    assert (ks + [r.name])[..|ks|] == ks;
    PositionsOfUnseen(init, r.name);
    assert Positions(data, r.name) == [|data| - 1];
  }
}
