/** Writes, batches and pulls in any order: what a pull returns. */
module SyncRuns {
  import opened Basics
  import opened SyncGraph
  import opened SyncInvariant
  import opened SyncCoherence

  // ---------------------------------------------------------------- from scratch

  /** The value of node `d` when every compute is run from scratch. */
  ghost function EvalNode<V(!new)>(env: Env<V>, g: Graph<V>, d: Id): V
    requires Wired(env, g) && (d in g.sources || d in g.slots)
    decreases env.rank(d), 1, 0
  {
    if d in g.sources then g.sources[d] else EvalFrom(env, g, d, [])
  }

  /** The result of the compute of `x` once it has read `hist`. */
  ghost function EvalFrom<V(!new)>(env: Env<V>, g: Graph<V>, x: Id, hist: seq<V>): V
    requires Wired(env, g) && x in g.slots
    decreases env.rank(x), 0, env.limit(x) - |hist|
  {
    match env.prog(x, hist)
    case Done(v) => v
    case Read(d) => EvalFrom(env, g, x, hist + [EvalNode(env, g, d)])
  }

  /** The slots of `c` are sound and read nothing but sources and one another. */
  ghost predicate SoundSet<V>(env: Env<V>, g: Graph<V>, c: set<Id>) {
    forall y {:trigger SoundAt(env, y)} :: y in c ==> SoundAt(env, y) && forall d ::
        d in env.inputs(y) && d in g.slots ==> d in c
  }

  /** A current slot of a sound set holds its from-scratch value. */
  lemma {:induction false} CachedIsEval<V(!new)>(env: Env<V>, g: Graph<V>, c: set<Id>, x: Id)
    requires Inv(env, g, {}) && g.batched == {} && x in g.slots && g.slots[x].cached && SoundSet(env, g, c) && x in c
    ensures g.slots[x].value == Some(EvalNode(env, g, x))
    decreases env.rank(x), 1, 0
  {
    assert SlotOk(env, g, x) && SoundAt(env, x);
    EvalFollowsTrace(env, g, c, x, 0);
    assert g.slots[x].trace[..0] == [];
  }

  lemma {:induction false} EvalFollowsTrace<V(!new)>(env: Env<V>, g: Graph<V>, c: set<Id>, x: Id, i: nat)
    requires Inv(env, g, {}) && g.batched == {} && x in g.slots && g.slots[x].cached && i <= |g.slots[x].trace|
    requires SoundSet(env, g, c) && x in c
    ensures g.slots[x].value == Some(EvalFrom(env, g, x, g.slots[x].trace[..i]))
    decreases env.rank(x), 0, |g.slots[x].trace| - i
  {
    assert SlotOk(env, g, x) && SoundAt(env, x);
    var t := g.slots[x].trace;
    if i == |t| {
      assert t[..i] == t;
    } else {
      assert ReadOk(env, g, x, t, i);
      var d := env.prog(x, t[..i]).dep;
      if d in g.slots {
        assert Edge(g, d, x);
        assert !Stale(g, d);
        CachedIsEval(env, g, c, d);
      }
      assert t[..i] + [t[i]] == t[..i + 1];
      EvalFollowsTrace(env, g, c, x, i + 1);
    }
  }

  // ---------------------------------------------------------------- writes and batches

  datatype Step<V> = Set(id: Id, value: V) | Get(slot: Id) | BatchBegin | BatchEnd

  /** Source.Set outside and inside a batch. */
  function Write<V(==)>(env: Env<V>, g: Graph<V>, a: Id, v: V): (g': Graph<V>)
    requires Tidy(env, g) && Enumerates(env) && a in g.sources
  {
    if g.sources[a] == v then g
    else
      var g1 := g.(sources := g.sources[a := v]);
      if g.depth > 0 then g1.(batched := g.batched + {a}) else MarkDependents(env, g1, a)
  }

  /** Invalidates the queued sources one after the other. */
  function Flush<V>(env: Env<V>, g: Graph<V>, cells: seq<Id>): (g': Graph<V>)
    requires Tidy(env, g) && Enumerates(env)
    decreases |cells|
  {
    if cells == [] then g else Flush(env, MarkDependents(env, g, cells[0]), cells[1..])
  }

  function EndBatch<V>(env: Env<V>, g: Graph<V>): (g': Graph<V>)
    requires Tidy(env, g) && Enumerates(env) && g.depth > 0
  {
    if g.depth > 1 then g.(depth := g.depth - 1)
    else Flush(env, Ticked(g).(depth := 0, batched := {}), env.enum(g.tick, g.batched))
  }

  predicate Enabled<V>(g: Graph<V>, step: Step<V>) {
    match step
    case Set(a, _) => a in g.sources
    case Get(x) => x in g.slots
    case BatchBegin => true
    case BatchEnd => g.depth > 0
  }

  function Take<V(==,!new)>(env: Env<V>, g: Graph<V>, step: Step<V>): Graph<V>
    requires Sane(env, g) && Enabled(g, step)
  {
    match step
    case Set(a, v) => Write(env, g, a, v)
    case Get(x) => Refresh(env, g, x).0
    case BatchBegin => g.(depth := g.depth + 1)
    case BatchEnd => EndBatch(env, g)
  }

  /** Between steps. */
  ghost predicate Quiescent<V(!new)>(env: Env<V>, g: Graph<V>) {
    Inv(env, g, {}) && (g.depth == 0 ==> g.batched == {}) && g.batched <= g.sources.Keys
  }

  // ---------------------------------------------------------------- marking and the queue

  /** The walk does not look at the queue or the depth. */
  lemma {:induction false} MarkConeBlind<V>(env: Env<V>, g: Graph<V>, h: Graph<V>, stack: seq<Mark>)
    requires Tidy(env, g) && Tidy(env, h) && Enumerates(env) && forall m :: m in stack ==> m.node in g.slots
    requires h == g.(batched := h.batched, depth := h.depth)
    ensures MarkCone(env, h, stack) == MarkCone(env, g, stack).(batched := h.batched, depth := h.depth)
    decreases Unmarked(g), |stack|
  {
    if stack != [] {
      var (g1, stack1) := MarkStep(env, g, stack);
      var (h1, stack2) := MarkStep(env, h, stack);
      assert h1 == g1.(batched := h.batched, depth := h.depth) && stack1 == stack2;
      MarkConeBlind(env, g1, h1, stack1);
    }
  }

  lemma MarkDependentsBlind<V>(env: Env<V>, g: Graph<V>, h: Graph<V>, a: Id)
    requires Tidy(env, g) && Tidy(env, h) && Enumerates(env) && h == g.(batched := h.batched, depth := h.depth)
    ensures MarkDependents(env, h, a) == MarkDependents(env, g, a).(batched := h.batched, depth := h.depth)
  {
    MarkConeBlind(env, Ticked(g), Ticked(h), Roots(env, g, a));
    assert Roots(env, h, a) == Roots(env, g, a);
  }

  /** Queueing a written source: nothing that reads it is believed any more. */
  lemma QueueOk<V(!new)>(env: Env<V>, g: Graph<V>, g': Graph<V>, a: Id)
    requires Inv(env, g, {}) && a in g.sources && a in g'.batched && g.batched <= g'.batched
    requires a in g'.sources && g' == g.(sources := g.sources[a := g'.sources[a]], batched := g'.batched)
    ensures Inv(env, g', {})
  {
    assert g'.sources.Keys == g.sources.Keys;
    forall y, d | y in g'.slots ensures d in g'.slots[y].deps <==> Edge(g', d, y) {
      assert Edge(g, d, y) || !Edge(g, d, y);
    }
    forall d, y | Stale(g', d) && Edge(g', d, y) ensures Stale(g', y) { assert Edge(g, d, y); }
    forall y | y in g'.slots ensures SlotOk(env, g', y) {
      assert SlotOk(env, g, y);
      var t := g.slots[y].trace;
      if g.slots[y].value.Some? && SoundAt(env, y) {
        forall i | 0 <= i < |t| ensures ReadOk(env, g', y, t, i) { assert ReadOk(env, g, y, t, i); }
      }
    }
  }

  /** Marking the dependents of a queued source takes it off the queue. */
  lemma UnqueueOk<V(!new)>(env: Env<V>, g: Graph<V>, a: Id)
    requires Inv(env, g, {}) && a in g.sources
    ensures Inv(env, MarkDependents(env, g, a).(batched := g.batched - {a}), {})
  {
    forall d, y {:trigger Edge(g, d, y)} | Stale(g, d) && Edge(g, d, y)
        ensures Stale(g, y) || y in Of(g.dependents, a) {}
    MarkDependentsMeans(env, g, a);
    var g1 := MarkDependents(env, g, a);
    var g' := g1.(batched := g.batched - {a});
    forall y, d | y in g'.slots ensures d in g'.slots[y].deps <==> Edge(g', d, y) {
      assert SlotMarks(g.slots[y], g1.slots[y]);
      assert Edge(g, d, y) || !Edge(g, d, y);
    }
    forall d, y | Stale(g', d) && Edge(g', d, y) ensures Stale(g', y) { assert Edge(g1, d, y); }
    forall y | y in g'.slots ensures SlotOk(env, g', y) { UnqueuedSlotOk(env, g, a, y); }
  }

  lemma UnqueuedSlotOk<V(!new)>(env: Env<V>, g: Graph<V>, a: Id, y: Id)
    requires Inv(env, g, {}) && a in g.sources && y in g.slots && OnlyMarks(g, MarkDependents(env, g, a))
    ensures SlotOk(env, MarkDependents(env, g, a).(batched := g.batched - {a}), y)
  {
    var g1 := MarkDependents(env, g, a);
    var g' := g1.(batched := g.batched - {a});
    assert SlotOk(env, g, y);
    MarkDependentsForces(env, g, a, y);
    assert SlotMarks(g.slots[y], g1.slots[y]);
    assert Edge(g, a, y) <==> a in g.slots[y].deps;
    var t := g.slots[y].trace;
    if g.slots[y].value.Some? && SoundAt(env, y) {
      forall i | 0 <= i < |t| ensures ReadOk(env, g', y, t, i) {
        assert ReadOk(env, g, y, t, i);
        var d := env.prog(y, t[..i]).dep;
        if d in g.slots { assert SlotMarks(g.slots[d], g1.slots[d]); }
      }
      forall d | d in g'.slots[y].deps && d in g'.slots ensures g'.slots[d].value.Some? {
        assert SlotMarks(g.slots[d], g1.slots[d]);
      }
    }
  }

  lemma WriteOk<V(!new)>(env: Env<V>, g: Graph<V>, a: Id, v: V)
    requires Quiescent(env, g) && a in g.sources
    ensures Quiescent(env, Write(env, g, a, v))
  {
    if g.sources[a] != v {
      var g1 := g.(sources := g.sources[a := v], batched := g.batched + {a});
      QueueOk(env, g, g1, a);
      if g.depth == 0 {
        UnqueueOk(env, g1, a);
        MarkDependentsBlind(env, g1, g.(sources := g.sources[a := v]), a);
        assert g1.batched - {a} == {};
        MarkDependentsMeans(env, g1, a);
      }
    }
  }

  lemma {:induction false} FlushOk<V(!new)>(env: Env<V>, g: Graph<V>, cells: seq<Id>)
    requires Inv(env, g.(batched := Members(cells)), {}) && g.batched == {} && Members(cells) <= g.sources.Keys
    ensures Inv(env, Flush(env, g, cells), {}) && Flush(env, g, cells).batched == {}
            && Flush(env, g, cells).depth == g.depth
    ensures Flush(env, g, cells).sources == g.sources
    decreases |cells|
  {
    if cells == [] {
      assert g.(batched := Members(cells)) == g;
    } else {
      var a := cells[0];
      assert cells == [a] + cells[1..];
      var q := g.(batched := Members(cells));
      UnqueueOk(env, q, a);
      MarkDependentsBlind(env, q, g, a);
      var g1 := MarkDependents(env, g, a);
      var h := MarkDependents(env, q, a).(batched := Members(cells) - {a});
      assert h == g1.(batched := Members(cells) - {a});
      FewerQueued(env, g1, Members(cells) - {a}, Members(cells[1..]));
      FlushOk(env, g1, cells[1..]);
    }
  }

  lemma FewerQueued<V(!new)>(env: Env<V>, g: Graph<V>, p: set<Id>, q: set<Id>)
    requires Inv(env, g.(batched := p), {}) && p <= q
    ensures Inv(env, g.(batched := q), {})
  {
    var g0, g' := g.(batched := p), g.(batched := q);
    forall y, d | y in g'.slots ensures d in g'.slots[y].deps <==> Edge(g', d, y) {
      assert Edge(g0, d, y) || !Edge(g0, d, y);
    }
    forall d, y | Stale(g', d) && Edge(g', d, y) ensures Stale(g', y) { assert Edge(g0, d, y); }
    forall y | y in g'.slots ensures SlotOk(env, g', y) {
      assert SlotOk(env, g0, y);
      var t := g.slots[y].trace;
      if g.slots[y].value.Some? && SoundAt(env, y) {
        forall i | 0 <= i < |t| ensures ReadOk(env, g', y, t, i) { assert ReadOk(env, g0, y, t, i); }
      }
    }
  }

  lemma DepthDoesNotMatter<V(!new)>(env: Env<V>, g: Graph<V>, g': Graph<V>)
    requires Inv(env, g, {}) && g' == g.(depth := g'.depth, tick := g'.tick)
    ensures Inv(env, g', {})
  {
    forall y, d | y in g'.slots ensures d in g'.slots[y].deps <==> Edge(g', d, y) {
      assert Edge(g, d, y) || !Edge(g, d, y);
    }
    forall d, y | Stale(g', d) && Edge(g', d, y) ensures Stale(g', y) { assert Edge(g, d, y); }
    forall y | y in g'.slots ensures SlotOk(env, g', y) {
      assert SlotOk(env, g, y);
      var t := g.slots[y].trace;
      if g.slots[y].value.Some? && SoundAt(env, y) {
        forall i | 0 <= i < |t| ensures ReadOk(env, g', y, t, i) { assert ReadOk(env, g, y, t, i); }
      }
    }
  }

  lemma EndBatchOk<V(!new)>(env: Env<V>, g: Graph<V>)
    requires Quiescent(env, g) && g.depth > 0
    ensures Quiescent(env, EndBatch(env, g))
  {
    if g.depth > 1 {
      DepthDoesNotMatter(env, g, g.(depth := g.depth - 1));
    } else {
      var cells := env.enum(g.tick, g.batched);
      var g0 := Ticked(g).(depth := 0, batched := {});
      DepthDoesNotMatter(env, g, Ticked(g).(depth := 0));
      assert Members(cells) == g.batched;
      assert g0.(batched := Members(cells)) == Ticked(g).(depth := 0);
      FlushOk(env, g0, cells);
    }
  }

  lemma StepOk<V(!new)>(env: Env<V>, g: Graph<V>, step: Step<V>)
    requires Quiescent(env, g) && Enabled(g, step)
    ensures Quiescent(env, Take(env, g, step))
  {
    match step
    case Set(a, v) => WriteOk(env, g, a, v);
    case Get(x) => RefreshOk(env, g, x, {});
    case BatchBegin => DepthDoesNotMatter(env, g, g.(depth := g.depth + 1));
    case BatchEnd => EndBatchOk(env, g);
  }

  // ---------------------------------------------------------------- runs

  /** A graph in which nothing has been computed yet. */
  ghost predicate Fresh<V(!new)>(env: Env<V>, g: Graph<V>) {
    && Wired(env, g) && g.dependents == map[] && g.depth == 0 && g.batched == {}
    && (forall x :: x in g.slots ==> g.slots[x] == Slot(None, false, false, false, {}, []))
  }

  ghost predicate IsRun<V(!new)>(env: Env<V>, steps: seq<Step<V>>, states: seq<Graph<V>>) {
    && |states| == |steps| + 1 && Fresh(env, states[0])
    && forall i :: 0 <= i < |steps| ==>
         Sane(env, states[i]) && Enabled(states[i], steps[i]) && states[i + 1] == Take(env, states[i], steps[i])
  }

  lemma {:induction false} RunsAreQuiescent<V(!new)>(env: Env<V>, steps: seq<Step<V>>, states: seq<Graph<V>>, n: nat)
    requires IsRun(env, steps, states) && n < |states|
    ensures Quiescent(env, states[n])
  {
    if n == 0 {
      var g := states[0];
      forall y | y in g.slots ensures SlotOk(env, g, y) {}
    } else {
      RunsAreQuiescent(env, steps, states, n - 1);
      StepOk(env, states[n - 1], steps[n - 1]);
    }
  }

  /**
    Coherence.  After any run of writes, batches and pulls, a pull outside a batch returns the from-scratch value of a
    slot whose reads, directly and indirectly, stay among sound slots: slots that read no two nodes one of which can
    hide a change of the other.  What the rest of the graph looks like does not matter.  For a refresh that tests
    forceRecompute again after its loop every slot is sound.
   */
  lemma PullIsCoherent<V(!new)>(env: Env<V>, steps: seq<Step<V>>, states: seq<Graph<V>>, n: nat, c: set<Id>, x: Id)
    requires IsRun(env, steps, states) && n < |states| && states[n].depth == 0 && x in states[n].slots
    requires SoundSet(env, states[n], c) && x in c
    ensures Sane(env, states[n])
    ensures Refresh(env, states[n], x).0.slots[x].value == Some(EvalNode(env, states[n], x))
  {
    RunsAreQuiescent(env, steps, states, n);
    PullIsEval(env, states[n], c, x);
  }

  lemma PullIsEval<V(!new)>(env: Env<V>, g: Graph<V>, c: set<Id>, x: Id)
    requires Quiescent(env, g) && g.depth == 0 && x in g.slots && SoundSet(env, g, c) && x in c
    ensures Refresh(env, g, x).0.slots[x].value == Some(EvalNode(env, g, x))
  {
    RefreshOk(env, g, x, {});
    var g' := Refresh(env, g, x).0;
    forall y | y in c ensures SoundAt(env, y) && forall d :: d in env.inputs(y) && d in g'.slots ==> d in c {
      assert SoundAt(env, y);
    }
    CachedIsEval(env, g', c, x);
    EvalSame(env, g, g', x, []);
  }

  /** From-scratch values depend on the sources only. */
  lemma {:induction false} EvalSame<V(!new)>(env: Env<V>, g: Graph<V>, g': Graph<V>, x: Id, hist: seq<V>)
    requires Wired(env, g) && Wired(env, g') && g'.sources == g.sources && g'.slots.Keys == g.slots.Keys && x in g.slots
    ensures EvalFrom(env, g', x, hist) == EvalFrom(env, g, x, hist)
    decreases env.rank(x), env.limit(x) - |hist|
  {
    match env.prog(x, hist)
    case Done(_) =>
    case Read(d) =>
      if d !in g.sources { EvalSame(env, g, g', d, []); }
      EvalSame(env, g, g', x, hist + [EvalNode(env, g, d)]);
  }

  // ---------------------------------------------------------------- graphs with sound slots

  /** A set of unguarded slots is sound, whatever its shape. */
  lemma UnguardedIsSound<V(!new)>(env: Env<V>, g: Graph<V>, c: set<Id>)
    requires Wired(env, g) && forall y :: y in c ==> y in g.slots && !env.guarded(y) && forall d ::
             d in env.inputs(y) && d in g.slots ==> d in c
    requires forall d :: d in g.sources ==> env.inputs(d) == {}
    ensures SoundSet(env, g, c)
  {
    forall y | y in c ensures SoundAt(env, y) {
      forall r, d | r in env.inputs(y) && d in env.inputs(y) ensures !Masked(env, r, d) {
        NeverMasked(env, g, c, r, d);
      }
    }
  }

  lemma {:induction false} NeverMasked<V(!new)>(env: Env<V>, g: Graph<V>, c: set<Id>, r: Id, d: Id)
    requires Wired(env, g) && forall y :: y in c ==> y in g.slots && !env.guarded(y) && forall d ::
             d in env.inputs(y) && d in g.slots ==> d in c
    requires forall d :: d in g.sources ==> env.inputs(d) == {}
    requires r in c || r in g.sources
    ensures !Masked(env, r, d)
    decreases env.rank(r)
  {
    forall e | e in env.inputs(r) && env.rank(e) < env.rank(r) ensures !Masked(env, e, d) {
      NeverMasked(env, g, c, e, d);
    }
    if r in g.sources { assert !Below(env, r, d); }
  }

  /** So is a slot that reads no two nodes one of which depends on the other. */
  lemma IndependentReadsAreSound<V(!new)>(env: Env<V>, x: Id)
    requires forall r, d :: r in env.inputs(x) && d in env.inputs(x) ==> !Below(env, r, d)
    ensures SoundAt(env, x)
  {
    forall r, d | r in env.inputs(x) && d in env.inputs(x) ensures !Masked(env, r, d) {
      if Masked(env, r, d) { MaskedIsBelow(env, r, d); }
    }
  }

  lemma {:induction false} MaskedIsBelow<V(!new)>(env: Env<V>, r: Id, d: Id)
    requires Masked(env, r, d)
    ensures Below(env, r, d)
    decreases env.rank(r)
  {
    if !(env.guarded(r) && Below(env, r, d)) {
      var e :| e in env.inputs(r) && env.rank(e) < env.rank(r) && Masked(env, e, d);
      MaskedIsBelow(env, e, d);
    }
  }
}
