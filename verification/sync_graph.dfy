/**
  The synchronous reactive graph: cached slots, the non-consuming mark walk that follows a write, and the
  pull that brings a stale slot up to date.

  A compute is a deterministic read program, as in the asynchronous graph, but its reads cannot fail.  Go visits
  the members of a map in any order, so every visit here asks `enum` for an order; `tick` counts the visits, which
  lets each of them have an order of its own.
 */
module SyncGraph {
  import opened Basics

  type Id = nat

  datatype Action<V> = Read(dep: Id) | Done(result: V)

  /** `trace` (the values behind `value`) is a history variable. */
  datatype Slot<V> = Slot(value: Option<V>, cached: bool, dirty: bool, force: bool, deps: set<Id>, trace: seq<V>)

  /** `log` lists the slots whose compute has run: a history variable. */
  datatype Graph<V> = Graph(sources: map<Id, V>, slots: map<Id, Slot<V>>, dependents: map<Id, set<Id>>,
                            depth: nat, batched: set<Id>, tick: nat, log: seq<Id>)

  /**
    The shape of a graph.  `inputs` bounds what a slot may read, `rank` witnesses that reads are acyclic and
    `limit` that computes stop.  `retest` chooses between refresh as written (false) and a refresh that looks at
    forceRecompute again after its dependency loop (true).
   */
  datatype Env<!V> = Env(prog: (Id, seq<V>) -> Action<V>, guarded: Id -> bool, inputs: Id -> set<Id>, rank: Id -> nat,
                         limit: Id -> nat, enum: (nat, set<Id>) -> seq<Id>, retest: bool)

  function Of(m: map<Id, set<Id>>, x: Id): set<Id> {
    if x in m then m[x] else {}
  }

  ghost predicate Enumerates<V>(env: Env<V>) {
    forall t, s, d :: d in env.enum(t, s) <==> d in s
  }

  ghost predicate Wired<V(!new)>(env: Env<V>, g: Graph<V>) {
    && (forall x, d :: d in env.inputs(x) ==> env.rank(d) < env.rank(x))
    && (forall x, d :: x in g.slots && d in env.inputs(x) ==> d in g.sources || d in g.slots)
    && (forall x, hist :: env.prog(x, hist).Read? ==> env.prog(x, hist).dep in env.inputs(x) && |hist| < env.limit(x))
    && Enumerates(env)
    && g.sources.Keys !! g.slots.Keys
  }

  /** Edges join slots to what they may read. */
  ghost predicate Tidy<V>(env: Env<V>, g: Graph<V>) {
    && (forall x {:trigger g.slots[x]} :: x in g.slots ==>
          g.slots[x].deps <= env.inputs(x) && (g.slots[x].cached ==> g.slots[x].value.Some?))
    && (forall d {:trigger g.dependents[d]} :: d in g.dependents ==> g.dependents[d] <= g.slots.Keys)
  }

  ghost predicate Sane<V(!new)>(env: Env<V>, g: Graph<V>) {
    Wired(env, g) && Tidy(env, g)
  }

  /** No node disappears and no value is dropped. */
  ghost predicate Grows<V>(g: Graph<V>, g': Graph<V>) {
    && g'.sources == g.sources && g'.slots.Keys == g.slots.Keys && g'.depth == g.depth && g'.batched == g.batched
    && (forall x {:trigger g'.slots[x]} {:trigger g.slots[x]} :: x in g.slots && g.slots[x].value.Some? ==>
        g'.slots[x].value.Some?)
  }

  // ---------------------------------------------------------------- the mark walk

  datatype Mark = Mark(node: Id, force: bool)

  function NotDirty<V>(g: Graph<V>): set<Id> {
    set x | x in g.slots && !g.slots[x].dirty
  }

  function NotForced<V>(g: Graph<V>): set<Id> {
    set x | x in g.slots && !g.slots[x].force
  }

  function Unmarked<V>(g: Graph<V>): nat {
    |NotDirty(g)| + |NotForced(g)|
  }

  function Forces(ids: seq<Id>, force: bool): (r: seq<Mark>)
    ensures forall m :: m in r <==> m.force == force && m.node in ids
  {
    var r := seq(|ids|, i requires 0 <= i < |ids| => Mark(ids[i], force));
    assert forall i :: 0 <= i < |ids| ==> r[i] == Mark(ids[i], force);
    r
  }

  predicate Learns<V>(s: Slot<V>, force: bool) {
    !s.dirty || (force && !s.force)
  }

  function MarkSlot<V>(s: Slot<V>, force: bool): Slot<V> {
    s.(force := s.force || force, dirty := true, cached := false)
  }

  function MarkOne<V>(g: Graph<V>, m: Mark): Graph<V>
    requires m.node in g.slots
  {
    g.(slots := g.slots[m.node := MarkSlot(g.slots[m.node], m.force)])
  }

  lemma MarkOneLearns<V>(g: Graph<V>, m: Mark)
    requires m.node in g.slots
    ensures if Learns(g.slots[m.node], m.force) then Unmarked(MarkOne(g, m)) < Unmarked(g)
            else Unmarked(MarkOne(g, m)) == Unmarked(g)
  {
    var g' := MarkOne(g, m);
    assert NotDirty(g') == NotDirty(g) - {m.node};
    assert NotForced(g') == if m.force then NotForced(g) - {m.node} else NotForced(g);
    Fewer(NotDirty(g), m.node);
    Fewer(NotForced(g), m.node);
  }

  lemma Fewer<T>(s: set<T>, x: T)
    ensures if x in s then |s - {x}| == |s| - 1 else s - {x} == s
  {
  }

  function Ticked<V>(g: Graph<V>): Graph<V> {
    g.(tick := g.tick + 1)
  }

  /** One turn of markCone: mark the top of the stack, and push its dependents if it learned something. */
  function MarkStep<V>(env: Env<V>, g: Graph<V>, stack: seq<Mark>): (r: (Graph<V>, seq<Mark>))
    requires Tidy(env, g) && Enumerates(env) && stack != []
    requires forall m :: m in stack ==> m.node in g.slots
    ensures Tidy(env, r.0) && Grows(g, r.0) && r.0.dependents == g.dependents
    ensures forall m :: m in r.1 ==> m.node in r.0.slots
    ensures Unmarked(r.0) < Unmarked(g) || (Unmarked(r.0) == Unmarked(g) && |r.1| < |stack|)
  {
    var m := stack[|stack| - 1];
    var rest := stack[..|stack| - 1];
    MarkOneLearns(g, m);
    var g1 := MarkOne(g, m);
    if Learns(g.slots[m.node], m.force)
    then (Ticked(g1), rest + Forces(env.enum(g.tick, Of(g.dependents, m.node)), false))
    else (g1, rest)
  }

  /** markCone. */
  function MarkCone<V>(env: Env<V>, g: Graph<V>, stack: seq<Mark>): (g': Graph<V>)
    requires Tidy(env, g) && Enumerates(env)
    requires forall m :: m in stack ==> m.node in g.slots
    ensures Tidy(env, g') && Grows(g, g')
    decreases Unmarked(g), |stack|
  {
    if stack == [] then g
    else
      var (g1, stack1) := MarkStep(env, g, stack);
      MarkCone(env, g1, stack1)
  }

  /** The direct dependents of `x`, to be forced. */
  function Roots<V>(env: Env<V>, g: Graph<V>, x: Id): (r: seq<Mark>)
    requires Enumerates(env)
    ensures forall m :: m in r <==> m.force && m.node in Of(g.dependents, x)
  {
    Forces(env.enum(g.tick, Of(g.dependents, x)), true)
  }

  /** markDependents: the direct dependents of `x` must recompute, everything below them must check. */
  function MarkDependents<V>(env: Env<V>, g: Graph<V>, x: Id): (g': Graph<V>)
    requires Tidy(env, g) && Enumerates(env)
    ensures Tidy(env, g') && Grows(g, g')
  {
    MarkCone(env, Ticked(g), Roots(env, g, x))
  }

  // ---------------------------------------------------------------- the pull

  function Clean<V>(s: Slot<V>): Slot<V> {
    s.(dirty := false, force := false, cached := true)
  }

  function Put<V>(g: Graph<V>, x: Id, s: Slot<V>): Graph<V> {
    g.(slots := g.slots[x := s])
  }

  /** The end of a compute: the slot is clean and holds the result. */
  function Store<V>(g: Graph<V>, x: Id, v: V, hist: seq<V>): Graph<V>
    requires x in g.slots
  {
    Put(g, x, Clean(g.slots[x]).(value := Some(v), trace := hist)).(log := g.log + [x])
  }

  /** detachUpstream. */
  function Detach<V>(g: Graph<V>, x: Id): Graph<V>
    requires x in g.slots
  {
    g.(dependents := map d | d in g.dependents :: if d in g.slots[x].deps then g.dependents[d] - {x}
                                                  else g.dependents[d],
       slots := g.slots[x := g.slots[x].(deps := {})])
  }

  /** trackTo. */
  function TrackTo<V>(g: Graph<V>, d: Id, x: Id): Graph<V>
    requires x in g.slots
  {
    g.(dependents := g.dependents[d := Of(g.dependents, d) + {x}],
       slots := g.slots[x := g.slots[x].(deps := g.slots[x].deps + {d})])
  }

  /** refresh, with whether the value changed. */
  function Refresh<V(==,!new)>(env: Env<V>, g: Graph<V>, x: Id): (r: (Graph<V>, bool))
    requires Sane(env, g) && x in g.slots
    ensures Sane(env, r.0) && Grows(g, r.0) && r.0.slots[x].value.Some?
    decreases env.rank(x), 3, 0
  {
    var s := g.slots[x];
    if s.cached then (g, false)
    else if s.value.Some? && !s.force then
      var ds := env.enum(g.tick, s.deps);
      var (g1, changed) := RefreshAll(env, g.(tick := g.tick + 1), x, ds);
      Decide(env, g1, x, changed)
    else Recompute(env, g, x)
  }

  /** After the dependency loop: the held value is current, or the compute must run. */
  function Decide<V(==,!new)>(env: Env<V>, g: Graph<V>, x: Id, changed: bool): (r: (Graph<V>, bool))
    requires Sane(env, g) && x in g.slots && g.slots[x].value.Some?
    ensures Sane(env, r.0) && Grows(g, r.0) && r.0.slots[x].value.Some?
    decreases env.rank(x), 2, 1
  {
    if !changed && !(env.retest && g.slots[x].force) then (Put(g, x, Clean(g.slots[x])), false)
    else Recompute(env, g, x)
  }

  function RefreshAll<V(==,!new)>(env: Env<V>, g: Graph<V>, x: Id, ds: seq<Id>): (r: (Graph<V>, bool))
    requires Sane(env, g) && x in g.slots && forall d :: d in ds ==> d in env.inputs(x)
    ensures Sane(env, r.0) && Grows(g, r.0)
    decreases env.rank(x), 0, |ds|
  {
    if ds == [] then (g, false)
    else if ds[0] in g.sources then RefreshAll(env, g, x, ds[1..])
    else
      var (g1, c1) := Refresh(env, g, ds[0]);
      var (g2, c2) := RefreshAll(env, g1, x, ds[1..]);
      (g2, c1 || c2)
  }

  /** recomputeNow. */
  function Recompute<V(==,!new)>(env: Env<V>, g: Graph<V>, x: Id): (r: (Graph<V>, bool))
    requires Sane(env, g) && x in g.slots
    ensures Sane(env, r.0) && Grows(g, r.0) && r.0.slots[x].value.Some?
    decreases env.rank(x), 2, 0
  {
    var (g1, hist) := RunCompute(env, Detach(g, x), x, []);
    Finish(env, g1, x, hist)
  }

  /** The result of a compute: a first value, or one its guard calls equal, is stored quietly. */
  function Finish<V(==,!new)>(env: Env<V>, g: Graph<V>, x: Id, hist: seq<V>): (r: (Graph<V>, bool))
    requires Sane(env, g) && x in g.slots && env.prog(x, hist).Done?
    ensures Sane(env, r.0) && Grows(g, r.0) && r.0.slots[x].value.Some?
  {
    var v := env.prog(x, hist).result;
    var s := g.slots[x];
    var g' := Store(g, x, v, hist);
    if s.value.None? || (env.guarded(x) && s.value.value == v) then (g', false)
    else (MarkDependents(env, g', x), true)
  }

  /** The compute of `x` from where it has read `hist`. */
  function RunCompute<V(==,!new)>(env: Env<V>, g: Graph<V>, x: Id, hist: seq<V>): (r: (Graph<V>, seq<V>))
    requires Sane(env, g) && x in g.slots
    ensures Sane(env, r.0) && Grows(g, r.0) && env.prog(x, r.1).Done?
    decreases env.rank(x), 1, env.limit(x) - |hist|
  {
    match env.prog(x, hist)
    case Done(_) => (g, hist)
    case Read(d) =>
      var (g1, v) := GetVia(env, g, d, x);
      RunCompute(env, g1, x, hist + [v])
  }

  /** getVia: a tracked read of `d` by the compute of `x`; the edge is registered first. */
  function GetVia<V(==,!new)>(env: Env<V>, g: Graph<V>, d: Id, x: Id): (r: (Graph<V>, V))
    requires Sane(env, g) && x in g.slots && d in env.inputs(x)
    ensures Sane(env, r.0) && Grows(g, r.0)
    decreases env.rank(x), 0, 0
  {
    var g1 := TrackTo(g, d, x);
    if d in g.sources then (g1, g.sources[d])
    else
      var g2 := Refresh(env, g1, d).0;
      (g2, g2.slots[d].value.value)
  }

  // ---------------------------------------------------------------- unfoldings

  lemma RefreshRecomputes<V(!new)>(env: Env<V>, g: Graph<V>, x: Id)
    requires Sane(env, g) && x in g.slots && !g.slots[x].cached && (g.slots[x].value.None? || g.slots[x].force)
    ensures Refresh(env, g, x) == Recompute(env, g, x)
  {
  }

  lemma RefreshDecides<V(!new)>(env: Env<V>, g: Graph<V>, x: Id, ds: seq<Id>)
    requires Sane(env, g) && x in g.slots && !g.slots[x].cached && g.slots[x].value.Some? && !g.slots[x].force
             && env.enum(g.tick, g.slots[x].deps) == ds
    ensures var r := RefreshAll(env, Ticked(g), x, ds); Refresh(env, g, x) == Decide(env, r.0, x, r.1)
  {
  }

  lemma MarkConeTurns<V>(env: Env<V>, g: Graph<V>, stack: seq<Mark>)
    requires Tidy(env, g) && Enumerates(env) && stack != [] && forall m :: m in stack ==> m.node in g.slots
    ensures var (g1, stack1) := MarkStep(env, g, stack); MarkCone(env, g, stack) == MarkCone(env, g1, stack1)
  {
  }

  lemma RefreshAllTurns<V(!new)>(env: Env<V>, g: Graph<V>, x: Id, ds: seq<Id>)
    requires Sane(env, g) && x in g.slots && ds != [] && forall d :: d in ds ==> d in env.inputs(x)
    ensures ds[0] in g.sources ==> RefreshAll(env, g, x, ds) == RefreshAll(env, g, x, ds[1..])
    ensures ds[0] !in g.sources ==>
              var r := Refresh(env, g, ds[0]);
              var t := RefreshAll(env, r.0, x, ds[1..]);
              RefreshAll(env, g, x, ds) == (t.0, r.1 || t.1)
  {
  }

  lemma RunComputeTurns<V(!new)>(env: Env<V>, g: Graph<V>, x: Id, hist: seq<V>)
    requires Sane(env, g) && x in g.slots && env.prog(x, hist).Read?
    ensures var r := GetVia(env, g, env.prog(x, hist).dep, x);
            RunCompute(env, g, x, hist) == RunCompute(env, r.0, x, hist + [r.1])
  {
  }
}
