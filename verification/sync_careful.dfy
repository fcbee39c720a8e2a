/** Exactly which pulls of refresh as written go wrong, on every graph. */
module SyncCareful {
  import opened Basics
  import opened SyncGraph
  import opened SyncInvariant
  import opened SyncPull
  import opened SyncCoherence
  import opened SyncRuns

  // ---------------------------------------------------------------- the guard

  /** No slot that `x` depends on got another value between `g` and `g'`. */
  ghost predicate SameReads<V>(g: Graph<V>, g': Graph<V>, x: Id)
    requires x in g.slots
  {
    forall d :: d in g.slots[x].deps && d in g.slots && d in g'.slots ==> g'.slots[d].value == g.slots[d].value
  }

  /**
    A pull of `x` never takes the failing branch: it cleans no slot as unchanged after a dependency loop that gave a
    slot it depends on another value or, in the strict reading, that raised its forceRecompute.
   */
  ghost predicate Careful<V(!new)>(env: Env<V>, g: Graph<V>, x: Id, strict: bool)
    requires Sane(env, g) && x in g.slots
    decreases env.rank(x), 3, 0
  {
    var s := g.slots[x];
    if s.cached then true
    else if s.value.Some? && !s.force then
      var ds := env.enum(g.tick, s.deps);
      CarefulAll(env, Ticked(g), x, ds, strict)
          && CarefulDecide(env, Ticked(g), RefreshAll(env, Ticked(g), x, ds), x, strict)
    else CarefulRecompute(env, g, x, strict)
  }

  /** `g` is the state before the dependency loop, `r` its result. */
  ghost predicate CarefulDecide<V(!new)>(env: Env<V>, g: Graph<V>, r: (Graph<V>, bool), x: Id, strict: bool)
    requires Sane(env, r.0) && x in g.slots && x in r.0.slots
    decreases env.rank(x), 2, 1
  {
    if r.1 || (env.retest && r.0.slots[x].force) then CarefulRecompute(env, r.0, x, strict)
    else if strict then !r.0.slots[x].force
    else SameReads(g, r.0, x)
  }

  ghost predicate CarefulAll<V(!new)>(env: Env<V>, g: Graph<V>, x: Id, ds: seq<Id>, strict: bool)
    requires Sane(env, g) && x in g.slots && forall d :: d in ds ==> d in env.inputs(x)
    decreases env.rank(x), 0, |ds|
  {
    if ds == [] then true
    else if ds[0] in g.sources then CarefulAll(env, g, x, ds[1..], strict)
    else Careful(env, g, ds[0], strict) && CarefulAll(env, Refresh(env, g, ds[0]).0, x, ds[1..], strict)
  }

  ghost predicate CarefulRecompute<V(!new)>(env: Env<V>, g: Graph<V>, x: Id, strict: bool)
    requires Sane(env, g) && x in g.slots
    decreases env.rank(x), 2, 0
  {
    CarefulCompute(env, Detach(g, x), x, [], strict)
  }

  ghost predicate CarefulCompute<V(!new)>(env: Env<V>, g: Graph<V>, x: Id, hist: seq<V>, strict: bool)
    requires Sane(env, g) && x in g.slots
    decreases env.rank(x), 1, env.limit(x) - |hist|
  {
    match env.prog(x, hist)
    case Done(_) => true
    case Read(d) =>
      var r := GetVia(env, g, d, x);
      CarefulGet(env, g, d, x, strict) && CarefulCompute(env, r.0, x, hist + [r.1], strict)
  }

  ghost predicate CarefulGet<V(!new)>(env: Env<V>, g: Graph<V>, d: Id, x: Id, strict: bool)
    requires Sane(env, g) && x in g.slots && d in env.inputs(x)
    decreases env.rank(x), 0, 0
  {
    d in g.sources || Careful(env, TrackTo(g, d, x), d, strict)
  }

  // ---------------------------------------------------------------- every slot sound

  /** The same graph under a refresh that tests forceRecompute again after its loop: every slot is sound. */
  function Retested<V>(env: Env<V>): Env<V> {
    env.(retest := true)
  }

  /**
    Between steps, and every value is the result of its trace, which matches what was read unless the slot is forced.
   */
  ghost predicate Traced<V(!new)>(env: Env<V>, g: Graph<V>, busy: set<Id>) {
    Inv(Retested(env), g, busy)
  }

  lemma TracedInv<V(!new)>(env: Env<V>, g: Graph<V>, busy: set<Id>)
    requires Traced(env, g, busy)
    ensures Inv(env, g, busy)
  {
    forall y | y in g.slots && y !in busy ensures SlotOk(env, g, y) { TracedSlot(env, g, y, busy); }
  }

  lemma TracedSlot<V(!new)>(env: Env<V>, g: Graph<V>, y: Id, busy: set<Id>)
    requires Traced(env, g, busy) && y in g.slots && y !in busy
    ensures SlotOk(env, g, y) && (g.slots[y].value.Some? ==> TraceOk(env, g, y))
  {
    assert SlotOk(Retested(env), g, y);
    var t := g.slots[y].trace;
    if g.slots[y].value.Some? {
      assert TraceOk(Retested(env), g, y);
      forall i | 0 <= i < |t| ensures ReadOk(env, g, y, t, i) { assert ReadOk(Retested(env), g, y, t, i); }
    }
  }

  lemma {:induction false} MarkConeRetested<V>(env: Env<V>, g: Graph<V>, stack: seq<Mark>)
    requires Tidy(env, g) && Tidy(Retested(env), g) && Enumerates(env) && Enumerates(Retested(env))
    requires forall m :: m in stack ==> m.node in g.slots
    ensures MarkCone(Retested(env), g, stack) == MarkCone(env, g, stack)
    decreases Unmarked(g), |stack|
  {
    if stack != [] {
      var (g1, stack1) := MarkStep(env, g, stack);
      assert MarkStep(Retested(env), g, stack) == (g1, stack1);
      MarkConeRetested(env, g1, stack1);
    }
  }

  lemma MarkDependentsRetested<V>(env: Env<V>, g: Graph<V>, x: Id)
    requires Tidy(env, g) && Tidy(Retested(env), g) && Enumerates(env) && Enumerates(Retested(env))
    ensures MarkDependents(Retested(env), g, x) == MarkDependents(env, g, x)
  {
    MarkConeRetested(env, Ticked(g), Roots(env, g, x));
  }

  lemma FinishRetested<V(!new)>(env: Env<V>, g: Graph<V>, x: Id, hist: seq<V>)
    requires Sane(env, g) && Sane(Retested(env), g) && x in g.slots && env.prog(x, hist).Done?
    ensures Finish(Retested(env), g, x, hist) == Finish(env, g, x, hist)
  {
    MarkDependentsRetested(env, Store(g, x, env.prog(x, hist).result, hist), x);
  }

  // ---------------------------------------------------------------- careful pulls keep every trace

  lemma {:induction false} CarefulOk<V(!new)>(env: Env<V>, g: Graph<V>, x: Id, busy: set<Id>, strict: bool)
    requires Traced(env, g, busy) && x in g.slots && BusyAbove(env, busy, env.rank(x)) && Careful(env, g, x, strict)
    ensures Traced(env, Refresh(env, g, x).0, busy)
    decreases env.rank(x), 3, 0
  {
    var s := g.slots[x];
    if !s.cached {
      if s.value.Some? && !s.force {
        TickedOk(Retested(env), g, busy);
        CarefulAllOk(env, Ticked(g), x, env.enum(g.tick, s.deps), busy, strict);
        CarefulDecideOk(env, Ticked(g), x, env.enum(g.tick, s.deps), busy, strict);
      } else {
        CarefulRecomputeOk(env, g, x, busy, strict);
      }
    }
  }

  lemma {:induction false} CarefulDecideOk<V(!new)>(env: Env<V>, g: Graph<V>, x: Id, ds: seq<Id>, busy: set<Id>,
          strict: bool)
    requires Traced(env, g, busy) && x in g.slots && BusyAbove(env, busy, env.rank(x))
    requires g.slots[x].value.Some? && !g.slots[x].force && !g.slots[x].cached && Members(ds) == g.slots[x].deps
    requires forall d :: d in ds ==> d in env.inputs(x)
    requires Traced(env, RefreshAll(env, g, x, ds).0, busy)
             && CarefulDecide(env, g, RefreshAll(env, g, x, ds), x, strict)
    ensures var r := RefreshAll(env, g, x, ds); Traced(env, Decide(env, r.0, x, r.1).0, busy)
    decreases env.rank(x), 2, 1
  {
    var r := RefreshAll(env, g, x, ds);
    TracedInv(env, g, busy);
    RefreshAllOk(env, g, x, ds, busy);
    if r.1 || (env.retest && r.0.slots[x].force) {
      CarefulRecomputeOk(env, r.0, x, busy, strict);
    } else {
      TracedSlot(env, g, x, busy);
      TracedSlot(env, r.0, x, busy);
      CleanTraced(env, g, r.0, x, busy, strict);
    }
  }

  /** A slot that was not forced and whose reads hold the same values can be cleaned, whatever its flag says now. */
  lemma CleanTraced<V(!new)>(env: Env<V>, g: Graph<V>, g1: Graph<V>, x: Id, busy: set<Id>, strict: bool)
    requires Traced(env, g1, busy) && x in g.slots && x in g1.slots && x !in busy && Above(g.slots[x], g1.slots[x])
    requires g.slots[x].value.Some? && !g.slots[x].force && TraceOk(env, g, x) && Current(g1, g1.slots[x].deps)
             && Grows(g, g1)
    requires if strict then !g1.slots[x].force else SameReads(g, g1, x)
    ensures Traced(env, Put(g1, x, Clean(g1.slots[x])), busy)
  {
    var r, g' := Retested(env), Put(g1, x, Clean(g1.slots[x]));
    CleanShape(r, g1, x, busy);
    forall y | y in g'.slots && y !in busy ensures SlotOk(r, g', y) {
      assert SlotOk(r, g1, y);
      if y != x || !g1.slots[x].force {
        SlotOkKept(r, g1, g', y);
      } else {
        var t := g.slots[x].trace;
        forall i | 0 <= i < |t| ensures ReadOk(r, g', x, t, i) { assert ReadOk(env, g, x, t, i); }
      }
    }
  }

  lemma {:induction false} CarefulAllOk<V(!new)>(env: Env<V>, g: Graph<V>, x: Id, ds: seq<Id>, busy: set<Id>,
          strict: bool)
    requires Traced(env, g, busy) && x in g.slots && (forall b :: b in busy ==> env.rank(b) >= env.rank(x))
    requires (forall d :: d in ds ==> d in env.inputs(x)) && CarefulAll(env, g, x, ds, strict)
    ensures Traced(env, RefreshAll(env, g, x, ds).0, busy)
    decreases env.rank(x), 0, |ds|
  {
    if ds != [] {
      RefreshAllTurns(env, g, x, ds);
      assert ds[0] in env.inputs(x);
      if ds[0] in g.sources {
        CarefulAllOk(env, g, x, ds[1..], busy, strict);
      } else {
        CarefulOk(env, g, ds[0], busy, strict);
        CarefulAllOk(env, Refresh(env, g, ds[0]).0, x, ds[1..], busy, strict);
      }
    }
  }

  lemma {:induction false} CarefulRecomputeOk<V(!new)>(env: Env<V>, g: Graph<V>, x: Id, busy: set<Id>, strict: bool)
    requires Traced(env, g, busy) && x in g.slots && !g.slots[x].cached && BusyAbove(env, busy, env.rank(x))
    requires CarefulRecompute(env, g, x, strict)
    ensures Traced(env, Recompute(env, g, x).0, busy)
    decreases env.rank(x), 2, 0
  {
    DetachOk(Retested(env), g, x, busy);
    CarefulComputeOk(env, Detach(g, x), x, [], busy + {x}, strict);
    var (g1, hist) := RunCompute(env, Detach(g, x), x, []);
    ReadsDoneRetested(env, g1, x, hist);
    FinishOk(Retested(env), g1, x, hist, busy);
    FinishRetested(env, g1, x, hist);
  }

  lemma ReadsDoneRetested<V(!new)>(env: Env<V>, g: Graph<V>, x: Id, hist: seq<V>)
    requires x in g.slots && ReadsDone(env, g, x, hist)
    ensures ReadsDone(Retested(env), g, x, hist)
  {
    forall i | 0 <= i < |hist| ensures ReadDone(Retested(env), g, x, hist, i) { assert ReadDone(env, g, x, hist, i); }
  }

  lemma {:induction false} CarefulComputeOk<V(!new)>(env: Env<V>, g: Graph<V>, x: Id, hist: seq<V>, busy: set<Id>,
          strict: bool)
    requires Traced(env, g, busy) && x in g.slots && x in busy && (forall b :: b in busy ==> env.rank(b) >= env.rank(x))
    requires ReadsDone(env, g, x, hist) && CarefulCompute(env, g, x, hist, strict)
    ensures var (g', hist') := RunCompute(env, g, x, hist); Traced(env, g', busy) && ReadsDone(env, g', x, hist')
    decreases env.rank(x), 1, env.limit(x) - |hist|
  {
    match env.prog(x, hist)
    case Done(_) =>
    case Read(d) =>
      RunComputeTurns(env, g, x, hist);
      TracedInv(env, g, busy);
      GetViaOk(env, g, d, x, hist, busy);
      CarefulGetOk(env, g, d, x, busy, strict);
      var (g2, v) := GetVia(env, g, d, x);
      CarefulComputeOk(env, g2, x, hist + [v], busy, strict);
  }

  lemma {:induction false} CarefulGetOk<V(!new)>(env: Env<V>, g: Graph<V>, d: Id, x: Id, busy: set<Id>, strict: bool)
    requires Traced(env, g, busy) && x in g.slots && x in busy && (forall b :: b in busy ==> env.rank(b) >= env.rank(x))
    requires d in env.inputs(x) && CarefulGet(env, g, d, x, strict)
    ensures Traced(env, GetVia(env, g, d, x).0, busy)
    decreases env.rank(x), 0, 0
  {
    TrackToOk(Retested(env), g, d, x, busy);
    if d !in g.sources { CarefulOk(env, TrackTo(g, d, x), d, busy, strict); }
  }

  // ---------------------------------------------------------------- a careless pull leaves a stale read

  /** `y` counts as current, but a current slot it read holds another value than the one it saw. */
  ghost predicate Misread<V>(env: Env<V>, g: Graph<V>, y: Id) {
    && y in g.slots && g.slots[y].cached
    && exists i :: 0 <= i < |g.slots[y].trace| && Missed(env, g, y, g.slots[y].trace, i)
  }

  ghost predicate Missed<V>(env: Env<V>, g: Graph<V>, y: Id, hist: seq<V>, i: nat)
    requires i < |hist|
  {
    var a := env.prog(y, hist[..i]);
    a.Read? && a.dep in g.slots && g.slots[a.dep].cached && g.slots[a.dep].value != Some(hist[i])
  }

  lemma MisreadStays<V>(env: Env<V>, g: Graph<V>, g': Graph<V>, x: Id, y: Id)
    requires Frame(env, g, g', x) && Misread(env, g, y)
    ensures Misread(env, g', y)
  {
    var t := g.slots[y].trace;
    assert g'.slots[y] == g.slots[y];
    var i :| 0 <= i < |t| && Missed(env, g, y, t, i);
    var d := env.prog(y, t[..i]).dep;
    assert g'.slots[d] == g.slots[d];
    assert Missed(env, g', y, t, i);
  }

  lemma {:induction false} CarelessMisreads<V(!new)>(env: Env<V>, g: Graph<V>, x: Id, busy: set<Id>) returns (y: Id)
    requires Traced(env, g, busy) && x in g.slots && BusyAbove(env, busy, env.rank(x)) && !Careful(env, g, x, false)
    ensures Misread(env, Refresh(env, g, x).0, y)
    decreases env.rank(x), 3, 0
  {
    var s := g.slots[x];
    if s.value.Some? && !s.force {
      TickedOk(Retested(env), g, busy);
      y := CarelessLoop(env, Ticked(g), x, env.enum(g.tick, s.deps), busy);
    } else {
      y := CarelessRecompute(env, g, x, busy);
    }
  }

  lemma {:induction false} CarelessLoop<V(!new)>(env: Env<V>, g: Graph<V>, x: Id, ds: seq<Id>, busy: set<Id>)
          returns (y: Id)
    requires Traced(env, g, busy) && x in g.slots && BusyAbove(env, busy, env.rank(x))
    requires g.slots[x].value.Some? && !g.slots[x].force && !g.slots[x].cached && Members(ds) == g.slots[x].deps
    requires forall d :: d in ds ==> d in env.inputs(x)
    requires !CarefulAll(env, g, x, ds, false) || !CarefulDecide(env, g, RefreshAll(env, g, x, ds), x, false)
    ensures var r := RefreshAll(env, g, x, ds); Misread(env, Decide(env, r.0, x, r.1).0, y)
    decreases env.rank(x), 2, 2
  {
    var r := RefreshAll(env, g, x, ds);
    TracedInv(env, g, busy);
    RefreshAllOk(env, g, x, ds, busy);
    TracedSlot(env, g, x, busy);
    if !CarefulAll(env, g, x, ds, false) {
      y := CarelessAll(env, g, x, ds, busy);
      DecideFrame(env, g, r, x, ds, busy);
      MisreadStays(env, r.0, Decide(env, r.0, x, r.1).0, x, y);
    } else {
      CarefulAllOk(env, g, x, ds, busy, false);
      if r.1 || (env.retest && r.0.slots[x].force) {
        y := CarelessRecompute(env, r.0, x, busy);
      } else {
        y := x;
        SkipMisreads(env, g, r, x, ds, busy);
      }
    }
  }

  lemma DecideFrame<V(!new)>(env: Env<V>, g: Graph<V>, r: (Graph<V>, bool), x: Id, ds: seq<Id>, busy: set<Id>)
    requires x in g.slots && BusyAbove(env, busy, env.rank(x)) && LoopDone(env, g, r, x, ds, busy)
    requires Members(ds) == g.slots[x].deps && g.slots[x].value.Some? && !g.slots[x].cached
    ensures Frame(env, r.0, Decide(env, r.0, x, r.1).0, x)
  {
    if !r.1 && !(env.retest && r.0.slots[x].force) {
      CleanShape(env, r.0, x, busy);
    } else {
      RecomputeOk(env, r.0, x, busy);
    }
  }

  /** The failing branch itself. */
  lemma SkipMisreads<V(!new)>(env: Env<V>, g: Graph<V>, r: (Graph<V>, bool), x: Id, ds: seq<Id>, busy: set<Id>)
    requires x in g.slots && x !in busy && LoopDone(env, g, r, x, ds, busy) && Members(ds) == g.slots[x].deps
    requires g.slots[x].value.Some? && !g.slots[x].force && SlotOk(env, g, x) && TraceOk(env, g, x) && Sane(env, g)
    requires !r.1 && !(env.retest && r.0.slots[x].force) && !SameReads(g, r.0, x)
    ensures Misread(env, Decide(env, r.0, x, r.1).0, x)
  {
    var g', t := Decide(env, r.0, x, r.1).0, g.slots[x].trace;
    var d :| d in g.slots[x].deps && d in g.slots && d in r.0.slots && r.0.slots[d].value != g.slots[d].value;
    assert DepsRead(env, x, g.slots[x].deps, t);
    var i :| 0 <= i < |t| && env.prog(x, t[..i]) == Read(d);
    assert ReadOk(env, g, x, t, i);
    assert d in Members(ds) && r.0.slots[d].cached && d in env.inputs(x);
    assert Missed(env, g', x, t, i);
  }

  lemma {:induction false} CarelessAll<V(!new)>(env: Env<V>, g: Graph<V>, x: Id, ds: seq<Id>, busy: set<Id>)
          returns (y: Id)
    requires Traced(env, g, busy) && x in g.slots && (forall b :: b in busy ==> env.rank(b) >= env.rank(x))
    requires (forall d :: d in ds ==> d in env.inputs(x)) && !CarefulAll(env, g, x, ds, false)
    ensures Misread(env, RefreshAll(env, g, x, ds).0, y)
    decreases env.rank(x), 0, |ds|
  {
    RefreshAllTurns(env, g, x, ds);
    assert ds[0] in env.inputs(x);
    if ds[0] in g.sources {
      y := CarelessAll(env, g, x, ds[1..], busy);
    } else {
      var g1 := Refresh(env, g, ds[0]).0;
      if Careful(env, g, ds[0], false) {
        CarefulOk(env, g, ds[0], busy, false);
        y := CarelessAll(env, g1, x, ds[1..], busy);
      } else {
        y := CarelessMisreads(env, g, ds[0], busy);
        TracedInv(env, g, busy);
        RefreshOk(env, g, ds[0], busy);
        RefreshAllOk(env, g1, x, ds[1..], busy);
        MisreadStays(env, g1, RefreshAll(env, g1, x, ds[1..]).0, x, y);
      }
    }
  }

  lemma {:induction false} CarelessRecompute<V(!new)>(env: Env<V>, g: Graph<V>, x: Id, busy: set<Id>) returns (y: Id)
    requires Traced(env, g, busy) && x in g.slots && !g.slots[x].cached && BusyAbove(env, busy, env.rank(x))
    requires !CarefulRecompute(env, g, x, false)
    ensures Misread(env, Recompute(env, g, x).0, y)
    decreases env.rank(x), 2, 0
  {
    DetachOk(Retested(env), g, x, busy);
    y := CarelessCompute(env, Detach(g, x), x, [], busy + {x});
    TracedInv(env, Detach(g, x), busy + {x});
    RunComputeOk(env, Detach(g, x), x, [], busy + {x});
    var (g1, hist) := RunCompute(env, Detach(g, x), x, []);
    FinishOk(env, g1, x, hist, busy);
    MisreadStays(env, g1, Finish(env, g1, x, hist).0, x, y);
  }

  lemma {:induction false} CarelessCompute<V(!new)>(env: Env<V>, g: Graph<V>, x: Id, hist: seq<V>, busy: set<Id>)
          returns (y: Id)
    requires Traced(env, g, busy) && x in g.slots && x in busy && (forall b :: b in busy ==> env.rank(b) >= env.rank(x))
    requires ReadsDone(env, g, x, hist) && !CarefulCompute(env, g, x, hist, false)
    ensures Misread(env, RunCompute(env, g, x, hist).0, y)
    decreases env.rank(x), 1, env.limit(x) - |hist|
  {
    RunComputeTurns(env, g, x, hist);
    var d := env.prog(x, hist).dep;
    TracedInv(env, g, busy);
    GetViaOk(env, g, d, x, hist, busy);
    var (g2, v) := GetVia(env, g, d, x);
    if CarefulGet(env, g, d, x, false) {
      CarefulGetOk(env, g, d, x, busy, false);
      y := CarelessCompute(env, g2, x, hist + [v], busy);
    } else {
      TrackToOk(Retested(env), g, d, x, busy);
      y := CarelessMisreads(env, TrackTo(g, d, x), d, busy);
      RunComputeOk(env, g2, x, hist + [v], busy);
      MisreadStays(env, g2, RunCompute(env, g2, x, hist + [v]).0, x, y);
    }
  }

  // ---------------------------------------------------------------- runs

  /** Every pull among the first `n` steps was careful. */
  ghost predicate CarefulSoFar<V(!new)>(env: Env<V>, steps: seq<Step<V>>, states: seq<Graph<V>>, n: nat, strict: bool)
    requires IsRun(env, steps, states) && n <= |steps|
  {
    forall k :: 0 <= k < n && steps[k].Get? ==> Careful(env, states[k], steps[k].slot, strict)
  }

  /** No current slot has read anything but current values. */
  ghost predicate Coherent<V>(env: Env<V>, g: Graph<V>) {
    forall y :: !Misread(env, g, y)
  }

  lemma TracedIsCoherent<V(!new)>(env: Env<V>, g: Graph<V>)
    requires Traced(env, g, {})
    ensures Coherent(env, g)
  {
    forall y | y in g.slots && g.slots[y].cached ensures !Misread(env, g, y) {
      TracedSlot(env, g, y, {});
      var t := g.slots[y].trace;
      forall i | 0 <= i < |t| ensures !Missed(env, g, y, t, i) { assert ReadOk(env, g, y, t, i); }
    }
  }

  lemma {:induction false} FlushRetested<V(!new)>(env: Env<V>, g: Graph<V>, cells: seq<Id>)
    requires Tidy(env, g) && Tidy(Retested(env), g) && Enumerates(env) && Enumerates(Retested(env))
    ensures Flush(Retested(env), g, cells) == Flush(env, g, cells)
    decreases |cells|
  {
    if cells != [] {
      MarkDependentsRetested(env, g, cells[0]);
      FlushRetested(env, MarkDependents(env, g, cells[0]), cells[1..]);
    }
  }

  lemma TakeRetested<V(!new)>(env: Env<V>, g: Graph<V>, step: Step<V>)
    requires Sane(env, g) && Sane(Retested(env), g) && Enabled(g, step) && !step.Get?
    ensures Take(Retested(env), g, step) == Take(env, g, step)
  {
    match step
    case Set(a, v) =>
      if g.sources[a] != v && g.depth == 0 { MarkDependentsRetested(env, g.(sources := g.sources[a := v]), a); }
    case BatchBegin =>
    case BatchEnd =>
      if g.depth == 1 { FlushRetested(env, Ticked(g).(depth := 0, batched := {}), env.enum(g.tick, g.batched)); }
  }

  lemma CarefulStep<V(!new)>(env: Env<V>, g: Graph<V>, step: Step<V>, strict: bool)
    requires Quiescent(Retested(env), g) && Sane(env, g) && Enabled(g, step)
    requires step.Get? ==> Careful(env, g, step.slot, strict)
    ensures Quiescent(Retested(env), Take(env, g, step))
  {
    if step.Get? {
      CarefulOk(env, g, step.slot, {}, strict);
    } else {
      TakeRetested(env, g, step);
      StepOk(Retested(env), g, step);
    }
  }

  lemma {:induction false} CarefulRunIsTraced<V(!new)>(env: Env<V>, steps: seq<Step<V>>, states: seq<Graph<V>>, n: nat,
          strict: bool)
    requires IsRun(env, steps, states) && n <= |steps| && CarefulSoFar(env, steps, states, n, strict)
    ensures Quiescent(Retested(env), states[n])
  {
    if n == 0 {
      var g := states[0];
      forall y | y in g.slots ensures SlotOk(Retested(env), g, y) {}
    } else {
      assert CarefulSoFar(env, steps, states, n - 1, strict);
      CarefulRunIsTraced(env, steps, states, n - 1, strict);
      CarefulStep(env, states[n - 1], steps[n - 1], strict);
    }
  }

  /**
    The guard is exact, on every graph and for every run: all slots that count as current have read nothing but current
    values, in every state of the run, if and only if no pull of the run took the failing branch.
   */
  lemma CarefulIsCoherent<V(!new)>(env: Env<V>, steps: seq<Step<V>>, states: seq<Graph<V>>, n: nat)
    requires IsRun(env, steps, states) && n <= |steps|
    ensures CarefulSoFar(env, steps, states, n, false) <==> forall k :: 0 <= k <= n ==> Coherent(env, states[k])
    decreases n
  {
    if n == 0 {
      CarefulRunIsTraced(env, steps, states, 0, false);
      TracedIsCoherent(env, states[0]);
    } else {
      CarefulIsCoherent(env, steps, states, n - 1);
      if CarefulSoFar(env, steps, states, n - 1, false) {
        NextIsCoherent(env, steps, states, n);
      }
    }
  }

  lemma NextIsCoherent<V(!new)>(env: Env<V>, steps: seq<Step<V>>, states: seq<Graph<V>>, n: nat)
    requires IsRun(env, steps, states) && 0 < n <= |steps| && CarefulSoFar(env, steps, states, n - 1, false)
    ensures CarefulSoFar(env, steps, states, n, false) <==> Coherent(env, states[n])
  {
    var g, step := states[n - 1], steps[n - 1];
    CarefulRunIsTraced(env, steps, states, n - 1, false);
    if step.Get? && !Careful(env, g, step.slot, false) {
      var y := CarelessMisreads(env, g, step.slot, {});
      assert Misread(env, states[n], y);
    } else {
      CarefulRunIsTraced(env, steps, states, n, false);
      TracedIsCoherent(env, states[n]);
    }
  }

  // ---------------------------------------------------------------- what a pull returns

  lemma {:induction false} EvalRetested<V(!new)>(env: Env<V>, g: Graph<V>, x: Id, hist: seq<V>)
    requires Wired(env, g) && Wired(Retested(env), g) && x in g.slots
    ensures EvalFrom(Retested(env), g, x, hist) == EvalFrom(env, g, x, hist)
    decreases env.rank(x), env.limit(x) - |hist|
  {
    match env.prog(x, hist)
    case Done(_) =>
    case Read(d) =>
      if d !in g.sources { EvalRetested(env, g, d, []); }
      EvalRetested(env, g, x, hist + [EvalNode(env, g, d)]);
  }

  /**
    On every graph: if no pull so far cleaned a slot as unchanged after a loop that changed what it reads or, in the
    strict reading, raised its flag, and neither does this one, then this pull returns the from-scratch value.
   */
  lemma CarefulPullIsRight<V(!new)>(env: Env<V>, steps: seq<Step<V>>, states: seq<Graph<V>>, n: nat, x: Id,
          strict: bool)
    requires IsRun(env, steps, states) && n <= |steps| && CarefulSoFar(env, steps, states, n, strict)
    requires states[n].depth == 0 && x in states[n].slots
    ensures Sane(env, states[n])
    ensures Careful(env, states[n], x, strict) ==>
              Refresh(env, states[n], x).0.slots[x].value == Some(EvalNode(env, states[n], x))
  {
    var g := states[n];
    CarefulRunIsTraced(env, steps, states, n, strict);
    TracedInv(env, g, {});
    if Careful(env, g, x, strict) {
      var g' := Refresh(env, g, x).0;
      CarefulOk(env, g, x, {}, strict);
      RefreshOk(env, g, x, {});
      var c := g'.slots.Keys;
      forall y | y in c ensures SoundAt(Retested(env), y) {}
      CachedIsEval(Retested(env), g', c, x);
      EvalRetested(env, g', x, []);
      EvalSame(env, g, g', x, []);
    }
  }
}
