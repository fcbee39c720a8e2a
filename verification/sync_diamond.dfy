/**
  The diamond in which refresh as written can keep an old value: an input `A`, a slot `D2` that reads it, a slot
  `D1` that reads `D2`, and a slot `S` that reads `D1` and `D2`, all guarded.  The map of dependencies of `S` is
  visited `D1` first.
 */
module SyncDiamond {
  import opened Basics
  import opened SyncGraph
  import opened SyncInvariant
  import opened SyncPull
  import opened SyncRuns

  const A: Id := 0
  const D2: Id := 1
  const D1: Id := 2
  const S: Id := 3

  /** The members of a set, largest first. */
  ghost function Descending(s: set<nat>): (r: seq<nat>)
    ensures forall d :: d in r <==> d in s
  {
    if s == {} then [] else
      var m := Largest(s);
      [m] + Descending(s - {m})
  }

  ghost function Largest(s: set<nat>): (m: nat)
    requires s != {}
    ensures m in s && forall k :: k in s ==> k <= m
  {
    var x :| x in s;
    if s == {x} then x
    else
      var y := Largest(s - {x});
      assert forall k :: k in s ==> k == x || k in s - {x};
      if x > y then x else y
  }

  datatype Funs<!V> = Funs(f2: V -> V, f1: V -> V, fs: (V, V) -> V, other: V)

  ghost function Diamond<V(!new)>(f: Funs<V>): Env<V> {
    Env((x: Id, hist: seq<V>) =>
          if x == D2 then (if |hist| == 0 then Read(A) else Done(f.f2(hist[0])))
          else if x == D1 then (if |hist| == 0 then Read(D2) else Done(f.f1(hist[0])))
          else if x == S then (if |hist| == 0 then Read(D1) else if |hist| == 1 then Read(D2)
                                                                 else Done(f.fs(hist[0], hist[1])))
          else Done(f.other),
        (x: Id) => true,
        (x: Id) => if x == D2 then {A} else if x == D1 then {D2} else if x == S then {D1, D2} else {},
        (x: Id) => x,
        (x: Id) => 2,
        (t: nat, s: set<Id>) => Descending(s),
        false)
  }

  /** What the lemmas below use of the diamond. */
  ghost predicate IsDiamond<V(!new)>(f: Funs<V>, env: Env<V>) {
    && env.prog(D2, []) == Read(A) && env.prog(D1, []) == Read(D2) && env.prog(S, []) == Read(D1)
    && (forall v :: env.prog(D2, [v]) == Done(f.f2(v)))
    && (forall v :: env.prog(D1, [v]) == Done(f.f1(v)))
    && (forall v :: env.prog(S, [v]) == Read(D2))
    && (forall v, w :: env.prog(S, [v, w]) == Done(f.fs(v, w)))
    && env.guarded(D2) && env.guarded(D1) && env.guarded(S) && !env.retest
    && (forall t :: env.enum(t, {D2}) == [D2]) && (forall t :: env.enum(t, {D1, D2}) == [D1, D2])
  }

  ghost predicate Shaped<V(!new)>(env: Env<V>, g: Graph<V>) {
    Sane(env, g) && g.sources.Keys == {A} && g.slots.Keys == {D2, D1, S}
  }

  /** A slot with everything but its flags. */
  ghost predicate Has<V>(g: Graph<V>, x: Id, v: V, trace: seq<V>, deps: set<Id>) {
    x in g.slots && g.slots[x].value == Some(v) && g.slots[x].trace == trace && g.slots[x].deps == deps
  }

  /** All three slots hold values computed from the input `a`, with all edges in place. */
  ghost predicate Loaded<V(!new)>(f: Funs<V>, env: Env<V>, g: Graph<V>, a: V) {
    && Steady(env, g)
    && Has(g, D2, f.f2(a), [a], {A})
    && Has(g, D1, f.f1(f.f2(a)), [f.f2(a)], {D2})
    && Has(g, S, f.fs(f.f1(f.f2(a)), f.f2(a)), [f.f1(f.f2(a)), f.f2(a)], {D1, D2})
  }

  // ---------------------------------------------------------------- computes

  lemma GetCached<V(!new)>(env: Env<V>, g: Graph<V>, d: Id, x: Id)
    requires Sane(env, g) && x in g.slots && d in env.inputs(x) && d in g.slots && g.slots[d].cached && d != x
    ensures GetVia(env, g, d, x) == (TrackTo(g, d, x), g.slots[d].value.value)
  {
  }

  lemma OneRead<V(!new)>(env: Env<V>, g: Graph<V>, x: Id, hist: seq<V>, d: Id)
    requires Sane(env, g) && x in g.slots && env.prog(x, hist) == Read(d)
    ensures RunCompute(env, g, x, hist) == RunCompute(env, GetVia(env, g, d, x).0, x, hist + [GetVia(env, g, d, x).1])
  {
  }

  lemma GetStale<V(!new)>(env: Env<V>, g: Graph<V>, d: Id, x: Id, h: Graph<V>, changed: bool)
    requires Sane(env, g) && x in g.slots && d in env.inputs(x) && d in g.slots
    requires Refresh(env, TrackTo(g, d, x), d) == (h, changed)
    ensures GetVia(env, g, d, x) == (h, h.slots[d].value.value)
  {
  }

  /** A read of a stale slot, in the middle of a compute. */
  lemma StaleRead<V(!new)>(env: Env<V>, g: Graph<V>, x: Id, hist: seq<V>, d: Id, h: Graph<V>, changed: bool)
    requires Sane(env, g) && x in g.slots && env.prog(x, hist) == Read(d) && d in g.slots
    requires Sane(env, TrackTo(g, d, x)) && Refresh(env, TrackTo(g, d, x), d) == (h, changed)
    ensures RunCompute(env, g, x, hist) == RunCompute(env, h, x, hist + [h.slots[d].value.value])
  {
    GetStale(env, g, d, x, h, changed);
    OneRead(env, g, x, hist, d);
  }

  lemma RecomputeFirst<V(!new)>(env: Env<V>, g: Graph<V>, x: Id, h: Graph<V>, hist: seq<V>)
    requires Sane(env, g) && x in g.slots && RunCompute(env, Detach(g, x), x, []) == (h, hist) && x in h.slots
             && h.slots[x].value.None?
    ensures Recompute(env, g, x) == (Store(h, x, env.prog(x, hist).result, hist), false)
  {
  }

  lemma NoRead<V(!new)>(env: Env<V>, g: Graph<V>, x: Id, hist: seq<V>)
    requires Sane(env, g) && x in g.slots && env.prog(x, hist).Done?
    ensures RunCompute(env, g, x, hist) == (g, hist)
  {
  }

  lemma RunD2<V(!new)>(f: Funs<V>, env: Env<V>, g: Graph<V>)
    requires IsDiamond(f, env) && Shaped(env, g)
    ensures RunCompute(env, g, D2, []) == (TrackTo(g, A, D2), [g.sources[A]])
  {
    OneRead(env, g, D2, [], A);
    assert [] + [g.sources[A]] == [g.sources[A]];
    NoRead(env, GetVia(env, g, A, D2).0, D2, [g.sources[A]]);
  }

  lemma RunD1<V(!new)>(f: Funs<V>, env: Env<V>, g: Graph<V>)
    requires IsDiamond(f, env) && Shaped(env, g) && g.slots[D2].cached
    ensures RunCompute(env, g, D1, []) == (TrackTo(g, D2, D1), [g.slots[D2].value.value])
  {
    OneRead(env, g, D1, [], D2);
    GetCached(env, g, D2, D1);
    assert [] + [g.slots[D2].value.value] == [g.slots[D2].value.value];
    NoRead(env, GetVia(env, g, D2, D1).0, D1, [g.slots[D2].value.value]);
  }

  lemma RunS<V(!new)>(f: Funs<V>, env: Env<V>, g: Graph<V>)
    requires IsDiamond(f, env) && Shaped(env, g) && g.slots[D1].cached && g.slots[D2].cached
    ensures RunCompute(env, g, S, []) ==
            (TrackTo(TrackTo(g, D1, S), D2, S), [g.slots[D1].value.value, g.slots[D2].value.value])
  {
    var v := g.slots[D1].value.value;
    OneRead(env, g, S, [], D1);
    GetCached(env, g, D1, S);
    assert [] + [v] == [v];
    RunRestOfS(f, env, GetVia(env, g, D1, S).0, v);
  }

  lemma RunRestOfS<V(!new)>(f: Funs<V>, env: Env<V>, g: Graph<V>, v: V)
    requires IsDiamond(f, env) && Shaped(env, g) && g.slots[D2].cached
    ensures RunCompute(env, g, S, [v]) == (TrackTo(g, D2, S), [v, g.slots[D2].value.value])
  {
    var w := g.slots[D2].value.value;
    OneRead(env, g, S, [v], D2);
    GetCached(env, g, D2, S);
    assert [v] + [w] == [v, w];
    NoRead(env, GetVia(env, g, D2, S).0, S, [v, w]);
  }

  lemma RetrackEdges(m: map<Id, set<Id>>, x: Id, deps: set<Id>, k: Id)
    requires k in m && (k in deps ==> x in m[k])
    ensures (if k in deps then m[k] - {x} else m[k]) + (if k in deps then {x} else {}) == m[k]
  {
  }

  /** Reading the same nodes again leaves the edges as they were. */
  lemma Retrack<V>(g: Graph<V>, x: Id, d: Id)
    requires EdgesOk(g) && x in g.slots && g.slots[x].deps == {d}
    ensures TrackTo(Detach(g, x), d, x) == g
  {
    assert Edge(g, d, x);
    var h := TrackTo(Detach(g, x), d, x);
    assert {} + {d} == {d};
    RetrackEdges(g.dependents, x, {d}, d);
    assert h.dependents.Keys == g.dependents.Keys;
    assert h.dependents == g.dependents;
    assert h.slots == g.slots;
  }

  lemma RetrackTwo<V>(g: Graph<V>, x: Id, d: Id, e: Id)
    requires EdgesOk(g) && x in g.slots && g.slots[x].deps == {d, e} && d != e
    ensures TrackTo(TrackTo(Detach(g, x), d, x), e, x) == g
  {
    assert Edge(g, d, x) && Edge(g, e, x);
    var h := TrackTo(TrackTo(Detach(g, x), d, x), e, x);
    assert {} + {d} + {e} == {d, e};
    RetrackEdges(g.dependents, x, {d, e}, d);
    RetrackEdges(g.dependents, x, {d, e}, e);
    assert h.dependents.Keys == g.dependents.Keys;
    assert h.dependents == g.dependents;
    assert h.slots == g.slots;
  }

  // ---------------------------------------------------------------- recomputes

  /** What a recompute makes of a result. */
  ghost function Publish<V(!new)>(env: Env<V>, g: Graph<V>, x: Id, v: V, hist: seq<V>): (Graph<V>, bool)
    requires Shaped(env, g) && x in g.slots
  {
    if g.slots[x].value == Some(v) || g.slots[x].value.None? then (Store(g, x, v, hist), false)
    else (MarkDependents(env, Store(g, x, v, hist), x), true)
  }

  lemma RecomputeD2<V(!new)>(f: Funs<V>, env: Env<V>, g: Graph<V>)
    requires IsDiamond(f, env) && Shaped(env, g) && EdgesOk(g) && g.slots[D2].deps == {A}
    ensures Recompute(env, g, D2) == Publish(env, g, D2, f.f2(g.sources[A]), [g.sources[A]])
  {
    RunD2(f, env, Detach(g, D2));
    Retrack(g, D2, A);
  }

  lemma RecomputeD1<V(!new)>(f: Funs<V>, env: Env<V>, g: Graph<V>)
    requires IsDiamond(f, env) && Shaped(env, g) && EdgesOk(g) && g.slots[D1].deps == {D2} && g.slots[D2].cached
    ensures Recompute(env, g, D1) == Publish(env, g, D1, f.f1(g.slots[D2].value.value), [g.slots[D2].value.value])
  {
    RunD1(f, env, Detach(g, D1));
    Retrack(g, D1, D2);
  }

  lemma RecomputeS<V(!new)>(f: Funs<V>, env: Env<V>, g: Graph<V>)
    requires IsDiamond(f, env) && Shaped(env, g) && EdgesOk(g) && g.slots[S].deps == {D1, D2} && g.slots[D2].cached
             && g.slots[D1].cached
    ensures var v1, v2 := g.slots[D1].value.value, g.slots[D2].value.value;
            Recompute(env, g, S) == Publish(env, g, S, f.fs(v1, v2), [v1, v2])
  {
    RunS(f, env, Detach(g, S));
    RetrackTwo(g, S, D1, D2);
  }

  ghost predicate Steady<V(!new)>(env: Env<V>, g: Graph<V>) {
    Shaped(env, g) && FlagsOk(g) && EdgesOk(g) && StaleUp(g, {})
  }

  lemma StoreKeeps<V(!new)>(env: Env<V>, g: Graph<V>, x: Id, v: V, hist: seq<V>)
    requires Steady(env, g) && Stale(g, x) && (forall d :: d in g.slots[x].deps && d in g.slots ==> g.slots[d].cached)
    ensures Steady(env, Store(g, x, v, hist))
    ensures forall d :: d in Of(g.dependents, x) ==> Stale(Store(g, x, v, hist), d)
  {
    var g1 := Store(g, x, v, hist);
    forall y, d | y in g1.slots ensures d in g1.slots[y].deps <==> Edge(g1, d, y) {
      assert Edge(g, d, y) || !Edge(g, d, y);
    }
    forall d, y | Stale(g1, d) && Edge(g1, d, y) ensures Stale(g1, y) { assert Edge(g, d, y); }
    forall d | d in Of(g1.dependents, x) ensures Stale(g1, d) {
      assert Edge(g, x, d);
      assert x in g.slots[d].deps && env.rank(x) < env.rank(d);
    }
  }

  /** What the other slots see of a published result. */
  ghost predicate Seen<V>(g: Graph<V>, h: Graph<V>, x: Id, changed: bool) {
    forall y :: y in g.slots && y in h.slots && y != x ==>
      && h.slots[y] == g.slots[y].(dirty := h.slots[y].dirty, force := h.slots[y].force)
      && (h.slots[y].force <==> g.slots[y].force || (changed && Edge(g, x, y)))
  }

  /** The graph around a published result. */
  lemma PublishKeeps<V(!new)>(env: Env<V>, g: Graph<V>, x: Id, v: V, hist: seq<V>)
    requires Steady(env, g) && Stale(g, x) && (forall d :: d in g.slots[x].deps && d in g.slots ==> g.slots[d].cached)
    requires g.slots[x].value.Some?
    ensures var (h, changed) := Publish(env, g, x, v, hist);
            && Steady(env, h) && h.sources == g.sources && Has(h, x, v, hist, g.slots[x].deps) && h.slots[x].cached
            && (changed <==> g.slots[x].value != Some(v)) && Seen(g, h, x, changed)
  {
    var g1 := Store(g, x, v, hist);
    var (h, changed) := Publish(env, g, x, v, hist);
    StoreKeeps(env, g, x, v, hist);
    if changed {
      PublishMarks(env, g1, h, x);
      forall y | y in g.slots ensures h.slots[y].force <==> g1.slots[y].force || Edge(g, x, y) {
        MarkDependentsForces(env, g1, x, y);
        assert Edge(g1, x, y) <==> Edge(g, x, y);
      }
    }
  }

  lemma PublishMarks<V(!new)>(env: Env<V>, g: Graph<V>, h: Graph<V>, x: Id)
    requires Steady(env, g) && x in g.slots && (forall d :: d in Of(g.dependents, x) ==> Stale(g, d))
    requires h == MarkDependents(env, g, x)
    ensures Steady(env, h) && h.sources == g.sources
    ensures forall y :: y in g.slots ==> h.slots[y] == g.slots[y].(dirty := h.slots[y].dirty, force := h.slots[y].force)
    ensures g.slots[x].cached ==> h.slots[x] == g.slots[x]
  {
    MarkDependentsMeans(env, g, x);
    forall y | y in g.slots ensures h.slots[y] == g.slots[y].(dirty := h.slots[y].dirty, force := h.slots[y].force) {
      assert SlotMarks(g.slots[y], h.slots[y]);
      if g.slots[y].cached { MarkDependentsSpares(env, g, x, y); }
    }
    if g.slots[x].cached { MarkDependentsSpares(env, g, x, x); }
    forall y, d | y in h.slots ensures d in h.slots[y].deps <==> Edge(h, d, y) {
      assert SlotMarks(g.slots[y], h.slots[y]);
      assert Edge(g, d, y) || !Edge(g, d, y);
    }
  }

  // ---------------------------------------------------------------- the pull after a write

  /** The input has been written: `D2` is forced, everything is stale. */
  ghost predicate Marked<V(!new)>(f: Funs<V>, env: Env<V>, g: Graph<V>, a: V, b: V) {
    && Loaded(f, env, g, a) && g.sources == map[A := b]
    && Stale(g, D2) && Stale(g, D1) && Stale(g, S)
    && g.slots[D2].force && !g.slots[D1].force && !g.slots[S].force
  }

  /** The dependency loop of `D1` refreshes `D2`. */
  lemma LoopOfD1<V(!new)>(f: Funs<V>, env: Env<V>, g: Graph<V>, a: V, b: V) returns (g1: Graph<V>, c2: bool)
    requires IsDiamond(f, env) && Marked(f, env, g, a, b)
    ensures RefreshAll(env, g, D1, [D2]) == (g1, c2) && (c2 <==> f.f2(b) != f.f2(a))
    ensures Steady(env, g1) && g1.sources == g.sources && g1.slots[D2].cached && g1.slots[D2].value == Some(f.f2(b))
    ensures Seen(g, g1, D2, c2)
  {
    RecomputeD2(f, env, g);
    PublishKeeps(env, g, D2, f.f2(b), [b]);
    var r := Publish(env, g, D2, f.f2(b), [b]);
    g1, c2 := r.0, r.1;
    OneRefresh(env, g, D1, D2);
  }

  /** The refresh of `D1`, which refreshes `D2` on the way. */
  lemma RefreshD1<V(!new)>(f: Funs<V>, env: Env<V>, g: Graph<V>, a: V, b: V) returns (h: Graph<V>)
    requires IsDiamond(f, env) && Marked(f, env, g, a, b)
    ensures Refresh(env, g, D1) == (h, f.f1(f.f2(b)) != f.f1(f.f2(a)))
    ensures PulledD1(f, env, g, h, b)
  {
    TickedSteady(env, g);
    var g1, c2 := LoopOfD1(f, env, Ticked(g), a, b);
    RefreshDecides(env, g, D1, [D2]);
    h := DecideD1(f, env, g1, a, b, c2);
  }

  ghost predicate PulledD1<V(!new)>(f: Funs<V>, env: Env<V>, g: Graph<V>, h: Graph<V>, b: V) {
    && Steady(env, h) && h.sources == g.sources && S in h.slots && D1 in h.slots && D2 in h.slots
    && h.slots[D1].cached && h.slots[D2].cached && Stale(h, S)
    && h.slots[D1].value == Some(f.f1(f.f2(b))) && h.slots[D2].value == Some(f.f2(b))
    && S in g.slots && h.slots[S] == g.slots[S].(dirty := h.slots[S].dirty, force := h.slots[S].force)
  }

  lemma DecideD1<V(!new)>(f: Funs<V>, env: Env<V>, g: Graph<V>, a: V, b: V, c2: bool) returns (h: Graph<V>)
    requires IsDiamond(f, env) && Steady(env, g) && g.slots.Keys == {D2, D1, S} && Stale(g, D1) && Stale(g, S)
    requires g.slots[D2].cached && g.slots[D2].value == Some(f.f2(b)) && (c2 <==> f.f2(b) != f.f2(a))
    requires g.slots[D1].value == Some(f.f1(f.f2(a))) && g.slots[D1].deps == {D2}
    ensures Decide(env, g, D1, c2) == (h, f.f1(f.f2(b)) != f.f1(f.f2(a)))
    ensures PulledD1(f, env, g, h, b)
  {
    if c2 {
      RecomputeD1(f, env, g);
      PublishKeeps(env, g, D1, f.f1(f.f2(b)), [f.f2(b)]);
      h := Publish(env, g, D1, f.f1(f.f2(b)), [f.f2(b)]).0;
    } else {
      h := Put(g, D1, Clean(g.slots[D1]));
      CleanSteady(env, g, D1);
    }
  }

  lemma OneRefresh<V(!new)>(env: Env<V>, g: Graph<V>, x: Id, d: Id)
    requires Sane(env, g) && x in g.slots && d in env.inputs(x) && d in g.slots
    ensures RefreshAll(env, g, x, [d]) == Refresh(env, g, d)
  {
    assert [d][1..] == [];
    assert RefreshAll(env, Refresh(env, g, d).0, x, []) == (Refresh(env, g, d).0, false);
  }

  lemma TickedSteady<V(!new)>(env: Env<V>, g: Graph<V>)
    requires Steady(env, g)
    ensures Steady(env, Ticked(g))
  {
    var g' := Ticked(g);
    forall y, d | y in g'.slots ensures d in g'.slots[y].deps <==> Edge(g', d, y) {
      assert Edge(g, d, y) || !Edge(g, d, y);
    }
    forall d, y | Stale(g', d) && Edge(g', d, y) ensures Stale(g', y) { assert Edge(g, d, y); }
  }

  lemma CleanSteady<V(!new)>(env: Env<V>, g: Graph<V>, x: Id)
    requires Steady(env, g) && x in g.slots && g.slots[x].value.Some?
    requires forall d :: d in g.slots[x].deps && d in g.slots ==> g.slots[d].cached
    ensures Steady(env, Put(g, x, Clean(g.slots[x])))
  {
    var g' := Put(g, x, Clean(g.slots[x]));
    forall y, d | y in g'.slots ensures d in g'.slots[y].deps <==> Edge(g', d, y) {
      assert Edge(g, d, y) || !Edge(g, d, y);
    }
    forall d, y | Stale(g', d) && Edge(g', d, y) ensures Stale(g', y) { assert Edge(g, d, y); }
  }

  /** The dependency loop of `S`, `D1` first: the later visit of `D2` finds it current and reports nothing. */
  lemma LoopOfS<V(!new)>(f: Funs<V>, env: Env<V>, g: Graph<V>, a: V, b: V) returns (h: Graph<V>)
    requires IsDiamond(f, env) && Marked(f, env, g, a, b)
    ensures RefreshAll(env, g, S, [D1, D2]) == (h, f.f1(f.f2(b)) != f.f1(f.f2(a)))
    ensures PulledD1(f, env, g, h, b)
  {
    h := RefreshD1(f, env, g, a, b);
    OneRefresh(env, h, S, D2);
    assert [D1, D2][1..] == [D2];
  }

  /** What the pull of `S` returns: the new value if `D1` reported a change, the old one otherwise. */
  lemma RefreshS<V(!new)>(f: Funs<V>, env: Env<V>, g: Graph<V>, a: V, b: V)
    requires IsDiamond(f, env) && Marked(f, env, g, a, b)
    ensures var a1, b1 := f.f1(f.f2(a)), f.f1(f.f2(b));
            Refresh(env, g, S).0.slots[S].value == Some(if a1 == b1 then f.fs(a1, f.f2(a)) else f.fs(b1, f.f2(b)))
  {
    TickedSteady(env, g);
    var h := LoopOfS(f, env, Ticked(g), a, b);
    var c1 := f.f1(f.f2(b)) != f.f1(f.f2(a));
    RefreshDecides(env, g, S, [D1, D2]);
    DecideS(f, env, h, c1);
  }

  lemma DecideS<V(!new)>(f: Funs<V>, env: Env<V>, g: Graph<V>, c1: bool)
    requires IsDiamond(f, env) && Steady(env, g) && g.slots.Keys == {D2, D1, S} && g.sources.Keys == {A}
    requires g.slots[D1].cached && g.slots[D2].cached && Stale(g, S) && g.slots[S].value.Some?
             && g.slots[S].deps == {D1, D2}
    ensures Decide(env, g, S, c1).0.slots[S].value ==
            if c1 then Some(f.fs(g.slots[D1].value.value, g.slots[D2].value.value)) else g.slots[S].value
  {
    if c1 {
      RecomputeS(f, env, g);
      PublishedS(f, env, g, Decide(env, g, S, c1));
    }
  }

  lemma PublishedS<V(!new)>(f: Funs<V>, env: Env<V>, g: Graph<V>, r: (Graph<V>, bool))
    requires Steady(env, g) && g.slots[D1].cached && g.slots[D2].cached && Stale(g, S) && g.slots[S].value.Some?
             && g.slots[S].deps == {D1, D2}
    requires r == Publish(env, g, S, f.fs(g.slots[D1].value.value, g.slots[D2].value.value), [g.slots[D1].value.value,
             g.slots[D2].value.value])
    ensures S in r.0.slots && r.0.slots[S].value == Some(f.fs(g.slots[D1].value.value, g.slots[D2].value.value))
  {
    PublishKeeps(env, g, S, f.fs(g.slots[D1].value.value, g.slots[D2].value.value), [g.slots[D1].value.value,
        g.slots[D2].value.value]);
  }

  // ---------------------------------------------------------------- from the fresh graph

  ghost function FreshDiamond<V>(a: V): Graph<V> {
    var blank := Slot(None, false, false, false, {}, []);
    Graph(map[A := a], map[D2 := blank, D1 := blank, S := blank], map[], 0, {}, 0, [])
  }

  /** The graph after the first pull of `S`. */
  ghost function Pulled<V(!new)>(f: Funs<V>, a: V): Graph<V> {
    var v2 := f.f2(a);
    var v1 := f.f1(v2);
    Graph(map[A := a],
          map[D2 := Slot(Some(v2), true, false, false, {A}, [a]),
              D1 := Slot(Some(v1), true, false, false, {D2}, [v2]),
              S := Slot(Some(f.fs(v1, v2)), true, false, false, {D1, D2}, [v1, v2])],
          map[D1 := {S}, D2 := {D1, S}, A := {D2}], 0, {}, 0, [D2, D1, S])
  }

  lemma FirstD2<V(!new)>(f: Funs<V>, env: Env<V>, g: Graph<V>)
    requires IsDiamond(f, env) && Shaped(env, g) && g.slots[D2] == Slot(None, false, false, false, {}, [])
    ensures Refresh(env, g, D2) == (Store(TrackTo(Detach(g, D2), A, D2), D2, f.f2(g.sources[A]), [g.sources[A]]), false)
  {
    RunD2(f, env, Detach(g, D2));
    RefreshRecomputes(env, g, D2);
    RecomputeFirst(env, g, D2, TrackTo(Detach(g, D2), A, D2), [g.sources[A]]);
  }

  /** `D2` and `D1` computed for the first time, on behalf of a read of `D1`. */
  ghost function BothComputed<V(!new)>(f: Funs<V>, g: Graph<V>): Graph<V>
    requires A in g.sources && D1 in g.slots && D2 in g.slots
  {
    var a := g.sources[A];
    var g1 := TrackTo(Detach(g, D1), D2, D1);
    var g2 := Store(TrackTo(Detach(g1, D2), A, D2), D2, f.f2(a), [a]);
    Store(g2, D1, f.f1(f.f2(a)), [f.f2(a)])
  }

  lemma DetachShaped<V(!new)>(env: Env<V>, g: Graph<V>, x: Id)
    requires Shaped(env, g) && x in g.slots
    ensures Shaped(env, Detach(g, x))
  {
  }

  lemma TrackShaped<V(!new)>(env: Env<V>, g: Graph<V>, x: Id, d: Id)
    requires Shaped(env, g) && x in g.slots && d in env.inputs(x)
    ensures Shaped(env, TrackTo(g, d, x))
  {
  }

  lemma EditsShaped<V(!new)>(env: Env<V>, g: Graph<V>, x: Id, d: Id)
    requires Shaped(env, g) && x in g.slots && d in env.inputs(x)
    ensures Shaped(env, Detach(g, x)) && Shaped(env, TrackTo(g, d, x))
  {
    DetachShaped(env, g, x);
    TrackShaped(env, g, x, d);
  }

  lemma StoreShaped<V(!new)>(env: Env<V>, g: Graph<V>, x: Id, v: V, hist: seq<V>)
    requires Shaped(env, g) && x in g.slots
    ensures Shaped(env, Store(g, x, v, hist))
  {
  }

  lemma FirstD1<V(!new)>(f: Funs<V>, env: Env<V>, g: Graph<V>)
    requires IsDiamond(f, env) && Shaped(env, g)
    requires g.slots[D2] == Slot(None, false, false, false, {}, []) && g.slots[D1] == g.slots[D2]
    ensures Refresh(env, g, D1) == (BothComputed(f, g), false) && Shaped(env, BothComputed(f, g))
  {
    var a := g.sources[A];
    EditsShaped(env, g, D1, D2);
    var g0 := Detach(g, D1);
    EditsShaped(env, g0, D1, D2);
    var g2 := D2ForD1(f, env, g0);
    RunD1Once(f, env, g0, g2, f.f2(a));
    StoreShaped(env, g2, D1, f.f1(f.f2(a)), [f.f2(a)]);
    RefreshRecomputes(env, g, D1);
    RecomputeFirst(env, g, D1, g2, [f.f2(a)]);
  }

  lemma D2ForD1<V(!new)>(f: Funs<V>, env: Env<V>, g0: Graph<V>) returns (g2: Graph<V>)
    requires IsDiamond(f, env) && Shaped(env, g0) && D2 in env.inputs(D1) && A in env.inputs(D2)
    requires g0.slots[D2] == Slot(None, false, false, false, {}, [])
    ensures Shaped(env, TrackTo(g0, D2, D1)) && Shaped(env, g2)
    ensures g2 == Store(TrackTo(Detach(TrackTo(g0, D2, D1), D2), A, D2), D2, f.f2(g0.sources[A]), [g0.sources[A]])
    ensures Refresh(env, TrackTo(g0, D2, D1), D2) == (g2, false)
  {
    var g1 := TrackTo(g0, D2, D1);
    EditsShaped(env, g0, D1, D2);
    FirstD2(f, env, g1);
    EditsShaped(env, g1, D2, A);
    EditsShaped(env, Detach(g1, D2), D2, A);
    var a := g0.sources[A];
    StoreShaped(env, TrackTo(Detach(g1, D2), A, D2), D2, f.f2(a), [a]);
    g2 := Store(TrackTo(Detach(g1, D2), A, D2), D2, f.f2(a), [a]);
  }

  lemma RunD1Once<V(!new)>(f: Funs<V>, env: Env<V>, g0: Graph<V>, g2: Graph<V>, v2: V)
    requires IsDiamond(f, env) && Shaped(env, g0) && Shaped(env, TrackTo(g0, D2, D1)) && Shaped(env, g2)
    requires Refresh(env, TrackTo(g0, D2, D1), D2) == (g2, false) && g2.slots[D2].value == Some(v2)
    ensures RunCompute(env, g0, D1, []) == (g2, [v2])
  {
    StaleRead(env, g0, D1, [], D2, g2, false);
    assert [] + [v2] == [v2];
    NoRead(env, g2, D1, [v2]);
  }

  lemma RunSOnce<V(!new)>(f: Funs<V>, env: Env<V>, g0: Graph<V>, h: Graph<V>, v1: V, v2: V)
    requires IsDiamond(f, env) && Shaped(env, g0) && Shaped(env, TrackTo(g0, D1, S)) && Shaped(env, h)
    requires Refresh(env, TrackTo(g0, D1, S), D1) == (h, false)
    requires h.slots[D1].value == Some(v1) && h.slots[D2].value == Some(v2) && h.slots[D2].cached
    ensures RunCompute(env, g0, S, []) == (TrackTo(h, D2, S), [v1, v2])
  {
    StaleRead(env, g0, S, [], D1, h, false);
    assert [] + [v1] == [v1];
    RunRestOfS(f, env, h, v1);
  }

  lemma FirstS<V(!new)>(f: Funs<V>, env: Env<V>, a: V)
    requires IsDiamond(f, env) && Shaped(env, FreshDiamond(a)) && D1 in env.inputs(S)
    ensures Refresh(env, FreshDiamond(a), S).0 == Pulled(f, a)
  {
    var g := FreshDiamond(a);
    EditsShaped(env, g, S, D1);
    var g0 := Detach(g, S);
    EditsShaped(env, g0, S, D1);
    var g1 := TrackTo(g0, D1, S);
    var v1, v2 := f.f1(f.f2(a)), f.f2(a);
    FirstD1(f, env, g1);
    var h := BothComputed(f, g1);
    RunSOnce(f, env, g0, h, v1, v2);
    RefreshRecomputes(env, g, S);
    RecomputeFirst(env, g, S, TrackTo(h, D2, S), [v1, v2]);
    HalfPulledIs(f, a);
    PulledIs(f, a, h);
  }

  /** `D2` and `D1` hold their values; `S` has read `D1`. */
  ghost function HalfPulled<V(!new)>(f: Funs<V>, a: V): Graph<V> {
    var v2 := f.f2(a);
    Graph(map[A := a],
          map[D2 := Slot(Some(v2), true, false, false, {A}, [a]),
              D1 := Slot(Some(f.f1(v2)), true, false, false, {D2}, [v2]),
              S := Slot(None, false, false, false, {D1}, [])],
          map[D1 := {S}, D2 := {D1}, A := {D2}], 0, {}, 0, [D2, D1])
  }

  lemma HalfPulledIs<V(!new)>(f: Funs<V>, a: V)
    ensures BothComputed(f, TrackTo(Detach(FreshDiamond(a), S), D1, S)) == HalfPulled(f, a)
  {
    TrackedDownIs(a);
    StoreBoth(f, a, TrackedDown(a));
  }

  ghost predicate IsTrackedDown<V(!new)>(g: Graph<V>, a: V) {
    var blank := Slot(None, false, false, false, {}, []);
    g == FreshDiamond(a).(dependents := map[D1 := {S}, D2 := {D1}, A := {D2}],
                          slots := map[D2 := blank.(deps := {A}), D1 := blank.(deps := {D2}),
                              S := blank.(deps := {D1})])
  }

  lemma StoreBoth<V(!new)>(f: Funs<V>, a: V, g: Graph<V>)
    requires IsTrackedDown(g, a)
    ensures Store(Store(g, D2, f.f2(a), [a]), D1, f.f1(f.f2(a)), [f.f2(a)]) == HalfPulled(f, a)
  {
    var h := Store(Store(g, D2, f.f2(a), [a]), D1, f.f1(f.f2(a)), [f.f2(a)]);
    assert h.log == [D2, D1];
    assert h.slots == HalfPulled(f, a).slots;
  }

  /** The graph when the first pull has tracked its way down to the input. */
  ghost function TrackedDown<V(!new)>(a: V): Graph<V> {
    TrackTo(Detach(TrackTo(Detach(TrackTo(Detach(FreshDiamond(a), S), D1, S), D1), D2, D1), D2), A, D2)
  }

  lemma TrackedDownIs<V(!new)>(a: V)
    ensures IsTrackedDown(TrackedDown(a), a)
  {
    var g := FreshDiamond(a);
    var g0 := Detach(g, S);
    assert g0.dependents == map[] && g0.slots == g.slots;
    assert {} + {D1} == {D1} && {} + {S} == {S} && {} + {D2} == {D2} && {} + {A} == {A};
    var g2 := Detach(TrackTo(g0, D1, S), D1);
    assert g2.dependents == map[D1 := {S}];
    var g3 := TrackTo(g2, D2, D1);
    assert g3.dependents == map[D1 := {S}, D2 := {D1}];
    var g4 := Detach(g3, D2);
    assert g4.dependents == g3.dependents;
    var g5 := TrackTo(g4, A, D2);
    assert g5.dependents == map[D1 := {S}, D2 := {D1}, A := {D2}];
    assert g5.slots.Keys == g.slots.Keys;
  }

  /** The first pull written out. */
  lemma PulledIs<V(!new)>(f: Funs<V>, a: V, h: Graph<V>)
    requires h == HalfPulled(f, a)
    ensures Store(TrackTo(h, D2, S), S, f.fs(f.f1(f.f2(a)), f.f2(a)), [f.f1(f.f2(a)), f.f2(a)]) == Pulled(f, a)
  {
    var k := Store(TrackTo(h, D2, S), S, f.fs(f.f1(f.f2(a)), f.f2(a)), [f.f1(f.f2(a)), f.f2(a)]);
    assert {D1} + {D2} == {D1, D2} && {D1} + {S} == {D1, S};
    assert k.dependents == Pulled(f, a).dependents;
    assert k.slots[S] == Pulled(f, a).slots[S];
    assert k.slots == Pulled(f, a).slots;
    assert k.log == [D2, D1, S];
  }

  lemma PulledLoaded<V(!new)>(f: Funs<V>, env: Env<V>, a: V)
    requires Wired(env, Pulled(f, a)) && env.inputs(D2) == {A} && env.inputs(D1) == {D2} && env.inputs(S) == {D1, D2}
    ensures Loaded(f, env, Pulled(f, a), a)
  {
    var g := Pulled(f, a);
    assert forall d :: !Stale(g, d);
    assert EdgesOk(g);
  }

  /** A write of the input forces `D2` and makes the two slots above it check. */
  lemma WriteMarks<V(!new)>(f: Funs<V>, env: Env<V>, a: V, b: V)
    requires a != b && Loaded(f, env, Pulled(f, a), a)
    ensures Marked(f, env, Write(env, Pulled(f, a), A, b), a, b)
  {
    var g := Pulled(f, a).(sources := map[A := b]);
    assert Pulled(f, a).sources[A := b] == map[A := b];
    forall y, d | y in g.slots ensures d in g.slots[y].deps <==> Edge(g, d, y) {
      assert Edge(Pulled(f, a), d, y) || !Edge(Pulled(f, a), d, y);
    }
    assert forall d :: !Stale(g, d);
    assert Tidy(env, g) && FlagsOk(g);
    MarkDependentsMeans(env, g, A);
    MarkedIs(f, env, g, MarkDependents(env, g, A), a, b);
  }

  lemma MarkedIs<V(!new)>(f: Funs<V>, env: Env<V>, g: Graph<V>, h: Graph<V>, a: V, b: V)
    requires g == Pulled(f, a).(sources := map[A := b]) && Sane(env, g) && EdgesOk(g)
    requires h == MarkDependents(env, g, A) && OnlyMarks(g, h) && FlagsOk(h) && StaleUp(h, {})
    ensures Marked(f, env, h, a, b)
  {
    MarkDependentsForces(env, g, A, D2);
    MarkDependentsForces(env, g, A, D1);
    MarkDependentsForces(env, g, A, S);
    assert SlotMarks(g.slots[D2], h.slots[D2]) && SlotMarks(g.slots[D1], h.slots[D1])
           && SlotMarks(g.slots[S], h.slots[S]);
    assert Stale(h, D2);
    assert Stale(h, D1) by { assert Edge(h, D2, D1); }
    assert Stale(h, S) by { assert Edge(h, D1, S); }
    MarksEdges(g, h);
    assert Sane(env, h);
  }

  lemma EvalS<V(!new)>(f: Funs<V>, env: Env<V>, g: Graph<V>, b: V)
    requires IsDiamond(f, env) && Shaped(env, g) && g.sources == map[A := b]
    ensures EvalNode(env, g, S) == f.fs(f.f1(f.f2(b)), f.f2(b))
  {
    var v2, v1 := f.f2(b), f.f1(f.f2(b));
    assert [] + [b] == [b] && [] + [v2] == [v2] && [] + [v1] == [v1] && [v1] + [v2] == [v1, v2];
    assert EvalNode(env, g, A) == b;
    assert EvalNode(env, g, D2) == v2 by { assert EvalFrom(env, g, D2, [b]) == v2; }
    assert EvalNode(env, g, D1) == v1 by { assert EvalFrom(env, g, D1, [v2]) == v1; }
    assert EvalFrom(env, g, S, [v1, v2]) == f.fs(v1, v2);
    assert EvalFrom(env, g, S, [v1]) == f.fs(v1, v2);
  }

  lemma DiamondIs<V(!new)>(f: Funs<V>)
    ensures IsDiamond(f, Diamond(f))
  {
    assert {D2} - {D2} == {} && {D1, D2} - {D1} == {D2};
    assert Largest({D1, D2}) == D1 && Largest({D2}) == D2;
    assert Descending({}) == [];
    assert Descending({D2}) == [D2] && Descending({D1, D2}) == [D1, D2];
  }

  lemma DiamondRun<V(!new)>(f: Funs<V>, env: Env<V>, a: V, b: V) returns (g1: Graph<V>, g2: Graph<V>)
    requires a != b && IsDiamond(f, env) && env.inputs(D2) == {A} && env.inputs(D1) == {D2} && env.inputs(S) == {D1, D2}
    requires Shaped(env, FreshDiamond(a)) && Wired(env, Pulled(f, a))
    ensures g1 == Refresh(env, FreshDiamond(a), S).0
    ensures Sane(env, g1) && A in g1.sources && g2 == Write(env, g1, A, b)
    ensures g2.depth == 0 && g2.sources == map[A := b] && S in g2.slots && Sane(env, g2)
    ensures Refresh(env, g2, S).0.slots[S].value == Some(EvalNode(env, g2, S)) <==> RightOnDiamond(f, a, b)
  {
    FirstS(f, env, a);
    g1 := Pulled(f, a);
    PulledLoaded(f, env, a);
    WriteMarks(f, env, a, b);
    g2 := Write(env, g1, A, b);
    RefreshS(f, env, g2, a, b);
    EvalS(f, env, g2, b);
  }

  /** The write does not change `D2`, or changes `D1`, or leaves the result of `S` as it was. */
  ghost predicate RightOnDiamond<V>(f: Funs<V>, a: V, b: V) {
    || f.f2(a) == f.f2(b)
    || f.f1(f.f2(a)) != f.f1(f.f2(b))
    || f.fs(f.f1(f.f2(a)), f.f2(a)) == f.fs(f.f1(f.f2(b)), f.f2(b))
  }

  /**
    Exactly when refresh as written is right on the diamond.  The run pulls `S`, writes the input, and pulls `S`
    again; all functions and all pairs of distinct inputs.
   */
  lemma DiamondPull<V(!new)>(f: Funs<V>, a: V, b: V) returns (steps: seq<Step<V>>, states: seq<Graph<V>>)
    requires a != b
    ensures IsRun(Diamond(f), steps, states) && steps == [Get(S), Set(A, b)]
    ensures states[2].depth == 0 && states[2].sources == map[A := b] && S in states[2].slots
            && Sane(Diamond(f), states[2])
    ensures Refresh(Diamond(f), states[2], S).0.slots[S].value == Some(EvalNode(Diamond(f), states[2], S))
            <==> RightOnDiamond(f, a, b)
  {
    DiamondIs(f);
    DiamondWired(f, a);
    var g1, g2 := DiamondRun(f, Diamond(f), a, b);
    steps, states := [Get(S), Set(A, b)], [FreshDiamond(a), g1, g2];
    RunOfThree(Diamond(f), FreshDiamond(a), g1, g2, b);
  }

  lemma RunOfThree<V(!new)>(env: Env<V>, g0: Graph<V>, g1: Graph<V>, g2: Graph<V>, b: V)
    requires Fresh(env, g0) && Sane(env, g0) && S in g0.slots && g1 == Refresh(env, g0, S).0
    requires Sane(env, g1) && A in g1.sources && g2 == Write(env, g1, A, b)
    ensures IsRun(env, [Get(S), Set(A, b)], [g0, g1, g2])
  {
    RunOfTwo(env, Get(S), Set(A, b), g0, g1, g2);
  }

  lemma RunOfTwo<V(!new)>(env: Env<V>, s: Step<V>, t: Step<V>, g0: Graph<V>, g1: Graph<V>, g2: Graph<V>)
    requires Fresh(env, g0) && Sane(env, g0) && Enabled(g0, s) && g1 == Take(env, g0, s)
    requires Sane(env, g1) && Enabled(g1, t) && g2 == Take(env, g1, t)
    ensures IsRun(env, [s, t], [g0, g1, g2])
  {
    var steps, states := [s, t], [g0, g1, g2];
    assert states[0] == g0 && states[1] == g1 && states[2] == g2 && steps[0] == s && steps[1] == t;
  }

  lemma DiamondWired<V(!new)>(f: Funs<V>, a: V)
    ensures Fresh(Diamond(f), FreshDiamond(a)) && Shaped(Diamond(f), FreshDiamond(a)) && Wired(Diamond(f), Pulled(f, a))
    ensures Diamond(f).inputs(D2) == {A} && Diamond(f).inputs(D1) == {D2} && Diamond(f).inputs(S) == {D1, D2}
  {
    DiamondWires(f, FreshDiamond(a));
    DiamondWires(f, Pulled(f, a));
  }

  lemma DiamondWires<V(!new)>(f: Funs<V>, g: Graph<V>)
    requires g.sources.Keys == {A} && g.slots.Keys == {D2, D1, S}
    ensures Wired(Diamond(f), g)
  {
  }
}
