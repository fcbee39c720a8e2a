/** The invariant of the synchronous graph, and what the mark walk does to it. */
module SyncInvariant {
  import opened Basics
  import opened SyncGraph

  // ---------------------------------------------------------------- what the graph shape allows

  /** `r` depends on `d`, directly or through other slots. */
  ghost predicate Below<V>(env: Env<V>, r: Id, d: Id)
    decreases env.rank(r)
  {
    exists e :: e in env.inputs(r) && env.rank(e) < env.rank(r) && (e == d || Below(env, e, d))
  }

  /** A guarded slot lies between `r` (inclusive) and `d`: a change of `d` can be hidden from readers of `r`. */
  ghost predicate Masked<V>(env: Env<V>, r: Id, d: Id)
    decreases env.rank(r)
  {
    || (env.guarded(r) && Below(env, r, d))
    || exists e :: e in env.inputs(r) && env.rank(e) < env.rank(r) && Masked(env, e, d)
  }

  /** `x` reads no two nodes, one of which can hide a change of the other, or refresh tests the flag again. */
  ghost predicate SoundAt<V>(env: Env<V>, x: Id) {
    env.retest || forall r, d :: r in env.inputs(x) && d in env.inputs(x) ==> !Masked(env, r, d)
  }

  // ---------------------------------------------------------------- the invariant

  /** Node `d` holds value `v`; a queued source promises nothing until the batch is flushed. */
  ghost predicate Holds<V>(g: Graph<V>, d: Id, v: V) {
    && (d in g.sources ==> g.sources[d] == v || d in g.batched)
    && (d in g.slots ==> g.slots[d].value == Some(v))
  }

  ghost predicate ReadOk<V>(env: Env<V>, g: Graph<V>, x: Id, hist: seq<V>, i: nat)
    requires x in g.slots && i < |hist|
  {
    var a := env.prog(x, hist[..i]);
    a.Read? && a.dep in g.slots[x].deps && (!g.slots[x].force ==> Holds(g, a.dep, hist[i]))
  }

  /**
    What a slot has read holds values.  The value of a sound slot is the result of its trace and, unless the slot is
    forced, the trace still matches what was read; nothing is claimed of the value of any other slot.
   */
  ghost predicate SlotOk<V>(env: Env<V>, g: Graph<V>, x: Id)
    requires x in g.slots
  {
    var s := g.slots[x];
    s.value.Some? ==>
      && (forall d :: d in s.deps && d in g.slots ==> g.slots[d].value.Some?)
      && DepsRead(env, x, s.deps, s.trace)
      && (SoundAt(env, x) ==> TraceOk(env, g, x))
  }

  /** Every dependency was read. */
  ghost predicate DepsRead<V>(env: Env<V>, x: Id, deps: set<Id>, hist: seq<V>) {
    forall d :: d in deps ==> exists i :: 0 <= i < |hist| && env.prog(x, hist[..i]) == Read(d)
  }

  ghost predicate TraceOk<V>(env: Env<V>, g: Graph<V>, x: Id)
    requires x in g.slots
  {
    var s := g.slots[x];
    && s.value.Some? && env.prog(x, s.trace) == Done(s.value.value)
    && (forall i {:trigger ReadOk(env, g, x, s.trace, i)} :: 0 <= i < |s.trace| ==> ReadOk(env, g, x, s.trace, i))
  }

  ghost predicate Edge<V>(g: Graph<V>, d: Id, x: Id) {
    x in Of(g.dependents, d)
  }

  ghost predicate EdgesOk<V>(g: Graph<V>) {
    forall x, d {:trigger Edge(g, d, x)} :: x in g.slots ==> (d in g.slots[x].deps <==> Edge(g, d, x))
  }

  ghost predicate Stale<V>(g: Graph<V>, x: Id) {
    x in g.slots && !g.slots[x].cached
  }

  ghost predicate FlagsOk<V>(g: Graph<V>) {
    forall x {:trigger g.slots[x]} :: x in g.slots ==>
      (g.slots[x].dirty ==> !g.slots[x].cached) && (g.slots[x].cached ==> !g.slots[x].force)
  }

  /** Staleness reaches every dependent, except those in `pending`. */
  ghost predicate StaleUp<V>(g: Graph<V>, pending: set<Id>) {
    forall d, x {:trigger Edge(g, d, x)} :: Stale(g, d) && Edge(g, d, x) ==> Stale(g, x) || x in pending
  }

  /** `busy` are the slots whose compute is running. */
  ghost predicate Inv<V(!new)>(env: Env<V>, g: Graph<V>, busy: set<Id>) {
    && Sane(env, g) && EdgesOk(g) && FlagsOk(g) && StaleUp(g, {})
    && (forall x :: x in busy ==> Stale(g, x))
    && (forall x {:trigger SlotOk(env, g, x)} :: x in g.slots && x !in busy ==> SlotOk(env, g, x))
  }

  // ---------------------------------------------------------------- the mark walk

  /** Only flags changed, and only from fresh to stale. */
  ghost predicate OnlyMarks<V>(g: Graph<V>, g': Graph<V>) {
    && g' == g.(slots := g'.slots, tick := g'.tick)
    && g'.slots.Keys == g.slots.Keys
    && (forall x {:trigger g'.slots[x]} {:trigger g.slots[x]} :: x in g.slots ==> SlotMarks(g.slots[x], g'.slots[x]))
  }

  ghost predicate SlotMarks<V>(s: Slot<V>, s': Slot<V>) {
    && s' == s.(cached := s'.cached, dirty := s'.dirty, force := s'.force)
    && (s.force ==> s'.force) && (s'.cached ==> s' == s) && (s.dirty ==> s'.dirty)
  }

  function StackNodes(stack: seq<Mark>): set<Id> {
    set m | m in stack :: m.node
  }

  lemma OnlyMarksTwice<V>(g: Graph<V>, g1: Graph<V>, g2: Graph<V>)
    requires OnlyMarks(g, g1) && OnlyMarks(g1, g2)
    ensures OnlyMarks(g, g2)
  {
    forall x | x in g.slots ensures SlotMarks(g.slots[x], g2.slots[x]) {
      assert SlotMarks(g.slots[x], g1.slots[x]) && SlotMarks(g1.slots[x], g2.slots[x]);
    }
  }

  lemma {:induction false} MarkConeMarks<V>(env: Env<V>, g: Graph<V>, stack: seq<Mark>)
    requires Tidy(env, g) && Enumerates(env) && FlagsOk(g)
    requires forall m :: m in stack ==> m.node in g.slots
    ensures OnlyMarks(g, MarkCone(env, g, stack)) && FlagsOk(MarkCone(env, g, stack))
    decreases Unmarked(g), |stack|
  {
    if stack != [] {
      var (g1, stack1) := MarkStep(env, g, stack);
      assert OnlyMarks(g, g1);
      MarkConeMarks(env, g1, stack1);
      OnlyMarksTwice(g, g1, MarkCone(env, g1, stack1));
    }
  }

  lemma MarkStepForces<V>(env: Env<V>, g: Graph<V>, stack: seq<Mark>, x: Id)
    requires Tidy(env, g) && Enumerates(env) && x in g.slots && stack != []
    requires forall m :: m in stack ==> m.node in g.slots
    ensures var (g1, stack1) := MarkStep(env, g, stack);
            g1.slots[x].force || Mark(x, true) in stack1 <==> g.slots[x].force || Mark(x, true) in stack
  {
    assert stack == stack[..|stack| - 1] + [stack[|stack| - 1]];
  }

  /** Exactly the forced entries of the stack become forced. */
  lemma {:induction false} MarkConeForces<V>(env: Env<V>, g: Graph<V>, stack: seq<Mark>, x: Id)
    requires Tidy(env, g) && Enumerates(env) && x in g.slots
    requires forall m :: m in stack ==> m.node in g.slots
    ensures MarkCone(env, g, stack).slots[x].force <==> g.slots[x].force || Mark(x, true) in stack
    decreases Unmarked(g), |stack|
  {
    if stack != [] {
      var (g1, stack1) := MarkStep(env, g, stack);
      MarkStepForces(env, g, stack, x);
      MarkConeForces(env, g1, stack1, x);
    }
  }

  lemma MarkStepStales<V>(env: Env<V>, g: Graph<V>, stack: seq<Mark>)
    requires Tidy(env, g) && Enumerates(env) && FlagsOk(g) && stack != []
    requires forall m :: m in stack ==> m.node in g.slots
    requires StaleUp(g, StackNodes(stack))
    ensures StaleUp(MarkStep(env, g, stack).0, StackNodes(MarkStep(env, g, stack).1))
  {
    var m := stack[|stack| - 1];
    var rest := stack[..|stack| - 1];
    assert stack == rest + [m];
    var (g1, stack1) := MarkStep(env, g, stack);
    forall d, x | Stale(g1, d) && Edge(g1, d, x) ensures Stale(g1, x) || x in StackNodes(stack1) {
      assert Edge(g, d, x);
      StackSplits(rest, m, x);
      StackJoins(rest, stack1, x);
      if d == m.node && Learns(g.slots[m.node], m.force) { assert Mark(x, false) in stack1; }
    }
  }

  /** The walk leaves no dependent of a stale slot fresh, although it stops at slots already marked. */
  lemma {:induction false} MarkConeStales<V>(env: Env<V>, g: Graph<V>, stack: seq<Mark>)
    requires Tidy(env, g) && Enumerates(env) && FlagsOk(g)
    requires forall m :: m in stack ==> m.node in g.slots
    requires StaleUp(g, StackNodes(stack))
    ensures StaleUp(MarkCone(env, g, stack), {})
    decreases Unmarked(g), |stack|
  {
    if stack != [] {
      var (g1, stack1) := MarkStep(env, g, stack);
      MarkStepStales(env, g, stack);
      assert FlagsOk(g1);
      MarkConeStales(env, g1, stack1);
    }
  }

  lemma StackSplits(rest: seq<Mark>, m: Mark, x: Id)
    ensures x in StackNodes(rest + [m]) <==> x == m.node || x in StackNodes(rest)
  {
    assert m in rest + [m];
  }

  lemma StackJoins(rest: seq<Mark>, more: seq<Mark>, x: Id)
    requires forall m :: m in rest ==> m in more
    ensures x in StackNodes(rest) ==> x in StackNodes(more)
  {
  }

  lemma TickedStales<V>(env: Env<V>, g: Graph<V>, x: Id)
    requires Enumerates(env) && StaleUp(g, Of(g.dependents, x))
    ensures StaleUp(Ticked(g), StackNodes(Roots(env, g, x)))
  {
    forall d, y | Stale(Ticked(g), d) && Edge(Ticked(g), d, y)
        ensures Stale(Ticked(g), y) || y in StackNodes(Roots(env, g, x)) {
      assert Edge(g, d, y);
      if y in Of(g.dependents, x) { assert Mark(y, true) in Roots(env, g, x); }
    }
  }

  /** What a changed node does to the flags of the slots above it. */
  lemma MarkDependentsMeans<V>(env: Env<V>, g: Graph<V>, x: Id)
    requires Tidy(env, g) && Enumerates(env) && FlagsOk(g)
    requires StaleUp(g, Of(g.dependents, x))
    ensures OnlyMarks(g, MarkDependents(env, g, x)) && FlagsOk(MarkDependents(env, g, x))
    ensures StaleUp(MarkDependents(env, g, x), {})
  {
    MarkConeMarks(env, Ticked(g), Roots(env, g, x));
    OnlyMarksTwice(g, Ticked(g), MarkDependents(env, g, x));
    TickedStales(env, g, x);
    MarkConeStales(env, Ticked(g), Roots(env, g, x));
  }

  lemma MarkDependentsForces<V>(env: Env<V>, g: Graph<V>, x: Id, y: Id)
    requires Tidy(env, g) && Enumerates(env) && y in g.slots
    ensures MarkDependents(env, g, x).slots[y].force <==> g.slots[y].force || Edge(g, x, y)
  {
    MarkConeForces(env, Ticked(g), Roots(env, g, x), y);
  }

  lemma MarkStepSpares<V>(env: Env<V>, g: Graph<V>, stack: seq<Mark>)
    requires Tidy(env, g) && Enumerates(env) && StaleUp(g, {}) && stack != []
    requires forall m :: m in stack ==> m.node in g.slots && Stale(g, m.node)
    ensures var (g1, stack1) := MarkStep(env, g, stack);
            && StaleUp(g1, {}) && (forall m :: m in stack1 ==> Stale(g1, m.node))
            && (forall y :: y in g.slots && g.slots[y].cached ==> g1.slots[y] == g.slots[y])
  {
    var (g1, stack1) := MarkStep(env, g, stack);
    var m := stack[|stack| - 1];
    forall d, x | Stale(g1, d) && Edge(g1, d, x) ensures Stale(g1, x) { assert Edge(g, d, x); }
    forall k | k in stack1 ensures Stale(g1, k.node) {
      if k !in stack { assert Edge(g, m.node, k.node); }
    }
  }

  /** When everything above is already stale, nothing loses its cache. */
  lemma {:induction false} MarkConeSpares<V>(env: Env<V>, g: Graph<V>, stack: seq<Mark>, y: Id)
    requires Tidy(env, g) && Enumerates(env) && StaleUp(g, {}) && y in g.slots && g.slots[y].cached
    requires forall m :: m in stack ==> m.node in g.slots && Stale(g, m.node)
    ensures MarkCone(env, g, stack).slots[y] == g.slots[y]
    decreases Unmarked(g), |stack|
  {
    if stack != [] {
      var (g1, stack1) := MarkStep(env, g, stack);
      MarkStepSpares(env, g, stack);
      MarkConeSpares(env, g1, stack1, y);
    }
  }

  lemma MarkDependentsSpares<V>(env: Env<V>, g: Graph<V>, x: Id, y: Id)
    requires Tidy(env, g) && Enumerates(env) && StaleUp(g, {}) && y in g.slots && g.slots[y].cached
    requires forall d :: d in Of(g.dependents, x) ==> Stale(g, d)
    ensures MarkDependents(env, g, x).slots[y] == g.slots[y]
  {
    forall d, z | Stale(Ticked(g), d) && Edge(Ticked(g), d, z) ensures Stale(Ticked(g), z) { assert Edge(g, d, z); }
    MarkConeSpares(env, Ticked(g), Roots(env, g, x), y);
  }
}
