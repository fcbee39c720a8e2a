/**
  Refresh as written depends on the order in which it visits dependencies: bottom up it is right on every graph, and on
  the diamond of `SyncDiamond`, which it gets wrong top down, for all functions and inputs.
 */
module SyncOrder {
  import opened Basics
  import opened SyncGraph
  import opened SyncInvariant
  import opened SyncPull
  import opened SyncCoherence
  import opened SyncRuns
  import opened SyncCareful
  import opened SyncDiamond

  ghost predicate Ascends<V>(env: Env<V>, ds: seq<Id>) {
    forall i, j :: 0 <= i < j < |ds| ==> env.rank(ds[i]) <= env.rank(ds[j])
  }

  /** Every iteration over a set of dependencies visits a node after what it depends on. */
  ghost predicate BottomUp<V>(env: Env<V>) {
    forall t, s :: Ascends(env, env.enum(t, s))
  }

  // ---------------------------------------------------------------- no change reported, no change made

  lemma {:induction false} ComputeKeepsValue<V(!new)>(env: Env<V>, g: Graph<V>, x: Id, hist: seq<V>, busy: set<Id>)
    requires Inv(env, g, busy) && x in g.slots && x in busy && (forall b :: b in busy ==> env.rank(b) >= env.rank(x))
    requires ReadsDone(env, g, x, hist)
    ensures RunCompute(env, g, x, hist).0.slots[x].value == g.slots[x].value
    decreases env.limit(x) - |hist|
  {
    if env.prog(x, hist).Read? {
      var d := env.prog(x, hist).dep;
      RunComputeTurns(env, g, x, hist);
      GetViaOk(env, g, d, x, hist, busy);
      if d in g.slots {
        TrackToOk(env, g, d, x, busy);
        RefreshOk(env, TrackTo(g, d, x), d, busy);
        FrameUp(env, TrackTo(g, d, x), GetVia(env, g, d, x).0, d, x);
      }
      ComputeKeepsValue(env, GetVia(env, g, d, x).0, x, hist + [GetVia(env, g, d, x).1], busy);
    }
  }

  lemma RecomputeKeeps<V(!new)>(env: Env<V>, g: Graph<V>, x: Id, busy: set<Id>)
    requires Inv(env, g, busy) && x in g.slots && !g.slots[x].cached && BusyAbove(env, busy, env.rank(x))
    requires g.slots[x].value.Some? && !Recompute(env, g, x).1
    ensures Recompute(env, g, x).0.slots[x].value == g.slots[x].value
  {
    DetachOk(env, g, x, busy);
    ComputeKeepsValue(env, Detach(g, x), x, [], busy + {x});
  }

  /** A refresh that reports no change of a slot with a value has not changed it. */
  lemma QuietKeeps<V(!new)>(env: Env<V>, g: Graph<V>, x: Id, busy: set<Id>)
    requires Inv(env, g, busy) && x in g.slots && BusyAbove(env, busy, env.rank(x))
    requires g.slots[x].value.Some? && !Refresh(env, g, x).1
    ensures Refresh(env, g, x).0.slots[x].value == g.slots[x].value
  {
    if !g.slots[x].cached {
      if g.slots[x].force { RecomputeKeeps(env, g, x, busy); } else { LoopThenKeeps(env, g, x, busy); }
    }
  }

  lemma LoopThenKeeps<V(!new)>(env: Env<V>, g: Graph<V>, x: Id, busy: set<Id>)
    requires Inv(env, g, busy) && x in g.slots && BusyAbove(env, busy, env.rank(x))
    requires g.slots[x].value.Some? && !g.slots[x].cached && !g.slots[x].force && !Refresh(env, g, x).1
    ensures Refresh(env, g, x).0.slots[x].value == g.slots[x].value
  {
    var ds := env.enum(g.tick, g.slots[x].deps);
    TickedOk(env, g, busy);
    RefreshAllOk(env, Ticked(g), x, ds, busy);
    RefreshDecides(env, g, x, ds);
    DecideKeeps(env, RefreshAll(env, Ticked(g), x, ds), x, busy);
  }

  lemma DecideKeeps<V(!new)>(env: Env<V>, r: (Graph<V>, bool), x: Id, busy: set<Id>)
    requires Inv(env, r.0, busy) && x in r.0.slots && BusyAbove(env, busy, env.rank(x))
    requires r.0.slots[x].value.Some? && !r.0.slots[x].cached && !Decide(env, r.0, x, r.1).1
    ensures Decide(env, r.0, x, r.1).0.slots[x].value == r.0.slots[x].value
  {
    if r.1 || (env.retest && r.0.slots[x].force) { RecomputeKeeps(env, r.0, x, busy); }
  }

  /** The slots of `ds` have the same values in `g'`. */
  ghost predicate Kept<V>(g: Graph<V>, g': Graph<V>, ds: seq<Id>) {
    forall d :: d in ds && d in g.slots && d in g'.slots ==> g'.slots[d].value == g.slots[d].value
  }

  /** The refresh of the first and lowest of `ds` leaves the values of the others. */
  lemma OthersKept<V(!new)>(env: Env<V>, g: Graph<V>, g1: Graph<V>, ds: seq<Id>)
    requires ds != [] && Ascends(env, ds) && Frame(env, g, g1, ds[0]) && Valued(g, ds)
    requires ds[0] in g.slots && g1.slots[ds[0]].value == g.slots[ds[0]].value
    ensures Kept(g, g1, ds) && Valued(g1, ds[1..])
  {
    forall d | d in ds && d in g.slots ensures g1.slots[d].value == g.slots[d].value {
      if d != ds[0] { assert Above(g.slots[d], g1.slots[d]); }
    }
  }

  lemma KeptOn<V(!new)>(env: Env<V>, g: Graph<V>, g1: Graph<V>, g2: Graph<V>, x: Id, ds: seq<Id>)
    requires ds != [] && Kept(g, g1, ds) && Kept(g1, g2, ds[1..]) && Frame(env, g1, g2, x)
             && g1.slots.Keys == g.slots.Keys
    requires ds[0] in g1.slots && g1.slots[ds[0]].cached
    ensures Kept(g, g2, ds)
  {
    assert ds == [ds[0]] + ds[1..];
  }

  lemma {:induction false} LoopKeeps<V(!new)>(env: Env<V>, g: Graph<V>, x: Id, ds: seq<Id>, busy: set<Id>)
    requires Inv(env, g, busy) && x in g.slots && (forall b :: b in busy ==> env.rank(b) >= env.rank(x))
    requires (forall d :: d in ds ==> d in env.inputs(x)) && Ascends(env, ds) && Valued(g, ds)
             && !RefreshAll(env, g, x, ds).1
    ensures Kept(g, RefreshAll(env, g, x, ds).0, ds)
    decreases |ds|
  {
    if ds != [] {
      RefreshAllTurns(env, g, x, ds);
      assert ds[0] in env.inputs(x);
      if ds[0] in g.sources {
        LoopKeeps(env, g, x, ds[1..], busy);
        assert ds == [ds[0]] + ds[1..];
      } else {
        LoopKeepsFirst(env, g, x, ds, busy);
      }
    }
  }

  lemma {:induction false} LoopKeepsFirst<V(!new)>(env: Env<V>, g: Graph<V>, x: Id, ds: seq<Id>, busy: set<Id>)
    requires Inv(env, g, busy) && x in g.slots && (forall b :: b in busy ==> env.rank(b) >= env.rank(x))
    requires (forall d :: d in ds ==> d in env.inputs(x)) && Ascends(env, ds) && Valued(g, ds)
    requires ds != [] && ds[0] in g.slots && env.rank(ds[0]) < env.rank(x) && !Refresh(env, g, ds[0]).1
    requires !RefreshAll(env, Refresh(env, g, ds[0]).0, x, ds[1..]).1
    ensures Kept(g, RefreshAll(env, Refresh(env, g, ds[0]).0, x, ds[1..]).0, ds)
    decreases |ds|, 0
  {
    var g1 := FirstKept(env, g, ds, busy);
    LoopKeeps(env, g1, x, ds[1..], busy);
    RefreshAllOk(env, g1, x, ds[1..], busy);
    KeptOn(env, g, g1, RefreshAll(env, g1, x, ds[1..]).0, x, ds);
  }

  lemma FirstKept<V(!new)>(env: Env<V>, g: Graph<V>, ds: seq<Id>, busy: set<Id>) returns (g1: Graph<V>)
    requires Inv(env, g, busy) && ds != [] && ds[0] in g.slots && BusyAbove(env, busy, env.rank(ds[0]))
    requires Ascends(env, ds) && Valued(g, ds) && !Refresh(env, g, ds[0]).1
    ensures g1 == Refresh(env, g, ds[0]).0 && Inv(env, g1, busy) && g1.slots.Keys == g.slots.Keys
            && g1.slots[ds[0]].cached
    ensures Kept(g, g1, ds) && Valued(g1, ds[1..])
  {
    g1 := Refresh(env, g, ds[0]).0;
    RefreshOk(env, g, ds[0], busy);
    assert ds[0] in ds;
    QuietKeeps(env, g, ds[0], busy);
    OthersKept(env, g, g1, ds);
  }

  // ---------------------------------------------------------------- bottom up

  lemma {:induction false} BottomUpIsCareful<V(!new)>(env: Env<V>, g: Graph<V>, x: Id, busy: set<Id>)
    requires Inv(env, g, busy) && x in g.slots && BusyAbove(env, busy, env.rank(x)) && BottomUp(env)
    ensures Careful(env, g, x, false)
    decreases env.rank(x), 3, 0
  {
    var s := g.slots[x];
    if !s.cached {
      if s.value.Some? && !s.force {
        TickedOk(env, g, busy);
        BottomUpLoop(env, Ticked(g), x, env.enum(g.tick, s.deps), busy);
      } else {
        BottomUpRecompute(env, g, x, busy);
      }
    }
  }

  lemma {:induction false} BottomUpLoop<V(!new)>(env: Env<V>, g: Graph<V>, x: Id, ds: seq<Id>, busy: set<Id>)
    requires Inv(env, g, busy) && x in g.slots && BusyAbove(env, busy, env.rank(x)) && BottomUp(env)
    requires g.slots[x].value.Some? && !g.slots[x].cached && Members(ds) == g.slots[x].deps && Ascends(env, ds)
    requires forall d :: d in ds ==> d in env.inputs(x)
    ensures CarefulAll(env, g, x, ds, false) && CarefulDecide(env, g, RefreshAll(env, g, x, ds), x, false)
    decreases env.rank(x), 2, 1
  {
    var r := RefreshAll(env, g, x, ds);
    BottomUpAll(env, g, x, ds, busy);
    RefreshAllOk(env, g, x, ds, busy);
    if r.1 || (env.retest && r.0.slots[x].force) {
      BottomUpRecompute(env, r.0, x, busy);
    } else {
      assert SlotOk(env, g, x);
      LoopKeeps(env, g, x, ds, busy);
      forall d | d in g.slots[x].deps && d in g.slots ensures r.0.slots[d].value == g.slots[d].value {
        assert d in Members(ds);
      }
    }
  }

  lemma {:induction false} BottomUpAll<V(!new)>(env: Env<V>, g: Graph<V>, x: Id, ds: seq<Id>, busy: set<Id>)
    requires Inv(env, g, busy) && x in g.slots && (forall b :: b in busy ==> env.rank(b) >= env.rank(x))
             && BottomUp(env)
    requires forall d :: d in ds ==> d in env.inputs(x)
    ensures CarefulAll(env, g, x, ds, false)
    decreases env.rank(x), 0, |ds|
  {
    if ds != [] {
      assert ds[0] in env.inputs(x);
      if ds[0] in g.sources {
        BottomUpAll(env, g, x, ds[1..], busy);
      } else {
        BottomUpIsCareful(env, g, ds[0], busy);
        RefreshOk(env, g, ds[0], busy);
        BottomUpAll(env, Refresh(env, g, ds[0]).0, x, ds[1..], busy);
      }
    }
  }

  lemma {:induction false} BottomUpRecompute<V(!new)>(env: Env<V>, g: Graph<V>, x: Id, busy: set<Id>)
    requires Inv(env, g, busy) && x in g.slots && !g.slots[x].cached && BusyAbove(env, busy, env.rank(x))
             && BottomUp(env)
    ensures CarefulRecompute(env, g, x, false)
    decreases env.rank(x), 2, 0
  {
    DetachOk(env, g, x, busy);
    BottomUpCompute(env, Detach(g, x), x, [], busy + {x});
  }

  lemma {:induction false} BottomUpCompute<V(!new)>(env: Env<V>, g: Graph<V>, x: Id, hist: seq<V>, busy: set<Id>)
    requires Inv(env, g, busy) && x in g.slots && x in busy && (forall b :: b in busy ==> env.rank(b) >= env.rank(x))
    requires ReadsDone(env, g, x, hist) && BottomUp(env)
    ensures CarefulCompute(env, g, x, hist, false)
    decreases env.rank(x), 1, env.limit(x) - |hist|
  {
    match env.prog(x, hist)
    case Done(_) =>
    case Read(d) =>
      if d !in g.sources {
        TrackToOk(env, g, d, x, busy);
        BottomUpIsCareful(env, TrackTo(g, d, x), d, busy);
      }
      GetViaOk(env, g, d, x, hist, busy);
      BottomUpCompute(env, GetVia(env, g, d, x).0, x, hist + [GetVia(env, g, d, x).1], busy);
  }

  /** On every graph a pull is right if dependencies are always visited bottom up. */
  lemma BottomUpPullIsRight<V(!new)>(env: Env<V>, steps: seq<Step<V>>, states: seq<Graph<V>>, n: nat, x: Id)
    requires IsRun(env, steps, states) && BottomUp(env) && n <= |steps| && states[n].depth == 0 && x in states[n].slots
    ensures Sane(env, states[n])
    ensures Refresh(env, states[n], x).0.slots[x].value == Some(EvalNode(env, states[n], x))
  {
    forall k | 0 <= k < n && steps[k].Get? ensures Careful(env, states[k], steps[k].slot, false) {
      RunsAreQuiescent(env, steps, states, k);
      BottomUpIsCareful(env, states[k], steps[k].slot, {});
    }
    RunsAreQuiescent(env, steps, states, n);
    BottomUpIsCareful(env, states[n], x, {});
    CarefulPullIsRight(env, steps, states, n, x, false);
  }

  // ---------------------------------------------------------------- the diamond

  ghost function Ascending(s: set<nat>): (r: seq<nat>)
    ensures (forall d :: d in r <==> d in s) && forall i, j :: 0 <= i < j < |r| ==> r[i] <= r[j]
  {
    if s == {} then [] else
      var m := Largest(s);
      Ascending(s - {m}) + [m]
  }

  /** The diamond, visited the other way round. */
  ghost function Upright<V(!new)>(f: Funs<V>): Env<V> {
    Diamond(f).(enum := (t: nat, s: set<Id>) => Ascending(s))
  }

  lemma PullWritePull<V(!new)>(env: Env<V>, g0: Graph<V>, a: V, b: V) returns (g1: Graph<V>, g2: Graph<V>)
    requires Fresh(env, g0) && Sane(env, g0) && BottomUp(env) && S in g0.slots && g0.sources == map[A := a]
    ensures IsRun(env, [Get(S), Set(A, b)], [g0, g1, g2])
    ensures g2.depth == 0 && g2.sources == map[A := b] && S in g2.slots && Sane(env, g2)
    ensures Refresh(env, g2, S).0.slots[S].value == Some(EvalNode(env, g2, S))
  {
    g1 := Refresh(env, g0, S).0;
    g2 := Write(env, g1, A, b);
    assert map[A := a][A := b] == map[A := b];
    RunOfThree(env, g0, g1, g2, b);
    var steps, states := [Get(S), Set(A, b)], [g0, g1, g2];
    RunsAreQuiescent(env, steps, states, 2);
    BottomUpPullIsRight(env, steps, states, 2, S);
  }

  /** The run of `DiamondPull`, with the dependencies of `S` visited `D2` first: right for all functions and inputs. */
  lemma UprightPull<V(!new)>(f: Funs<V>, a: V, b: V) returns (steps: seq<Step<V>>, states: seq<Graph<V>>)
    ensures IsRun(Upright(f), steps, states) && steps == [Get(S), Set(A, b)] && states[0] == FreshDiamond(a)
    ensures states[2].depth == 0 && states[2].sources == map[A := b] && S in states[2].slots
            && Sane(Upright(f), states[2])
    ensures Refresh(Upright(f), states[2], S).0.slots[S].value == Some(EvalNode(Upright(f), states[2], S))
  {
    UprightWires(f, a);
    var g1, g2 := PullWritePull(Upright(f), FreshDiamond(a), a, b);
    steps, states := [Get(S), Set(A, b)], [FreshDiamond(a), g1, g2];
  }

  lemma UprightWires<V(!new)>(f: Funs<V>, a: V)
    ensures Fresh(Upright(f), FreshDiamond(a)) && Sane(Upright(f), FreshDiamond(a)) && BottomUp(Upright(f))
  {
  }
}
