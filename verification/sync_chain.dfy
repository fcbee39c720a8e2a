/**
  How much a pull runs: after a write to a source with one reader, in a graph where what depends on that reader is a
  chain, a pull reruns the chain from the bottom up to the first slot whose value stays the same, and nothing else.
 */
module SyncChain {
  import opened Basics
  import opened SyncGraph
  import opened SyncInvariant
  import opened SyncPull
  import opened SyncCoherence
  import opened SyncRuns

  /** A compute of `x` can have read `hist`, as far as the sources go. */
  ghost predicate Plausible<V>(env: Env<V>, g: Graph<V>, x: Id, hist: seq<V>) {
    forall i :: 0 <= i < |hist| && env.prog(x, hist[..i]).Read? && env.prog(x, hist[..i]).dep in g.sources ==>
      hist[i] == g.sources[env.prog(x, hist[..i]).dep]
  }

  /** With the sources as they are, the compute of `x` reads no slot outside `ready`. */
  ghost predicate ReadsOnly<V(!new)>(env: Env<V>, g: Graph<V>, x: Id, ready: set<Id>) {
    forall hist {:trigger env.prog(x, hist)} :: Plausible(env, g, x, hist) && env.prog(x, hist).Read? ==>
      env.prog(x, hist).dep in g.sources || env.prog(x, hist).dep in ready
  }

  ghost predicate AllCached<V>(g: Graph<V>, ready: set<Id>) {
    forall d :: d in ready ==> d in g.slots && g.slots[d].cached
  }

  // ---------------------------------------------------------------- one slot

  lemma PlausibleGrows<V>(env: Env<V>, g: Graph<V>, x: Id, hist: seq<V>, v: V)
    requires Plausible(env, g, x, hist) && env.prog(x, hist).Read?
    requires env.prog(x, hist).dep in g.sources ==> v == g.sources[env.prog(x, hist).dep]
    ensures Plausible(env, g, x, hist + [v])
  {
    forall i | 0 <= i <= |hist| ensures (hist + [v])[..i] == hist[..i] {}
    assert hist[..|hist|] == hist;
  }

  /** A compute that reads current nodes only runs no other compute. */
  lemma {:induction false} RunCalm<V(!new)>(env: Env<V>, g: Graph<V>, x: Id, hist: seq<V>, ready: set<Id>)
    requires Sane(env, g) && x in g.slots && Plausible(env, g, x, hist)
    requires ReadsOnly(env, g, x, ready) && AllCached(g, ready) && x !in ready
    ensures var r := RunCompute(env, g, x, hist); r.0.log == g.log && r.0.slots[x].value == g.slots[x].value
    decreases env.limit(x) - |hist|
  {
    if env.prog(x, hist).Read? {
      RunComputeTurns(env, g, x, hist);
      var d := env.prog(x, hist).dep;
      var r := GetVia(env, g, d, x);
      assert r.0 == TrackTo(g, d, x);
      PlausibleGrows(env, g, x, hist, r.1);
      PlausibleSame(env, g, r.0, x);
      RunCalm(env, r.0, x, hist + [r.1], ready);
    }
  }

  lemma PlausibleSame<V(!new)>(env: Env<V>, g: Graph<V>, g': Graph<V>, x: Id)
    requires g'.sources == g.sources
    ensures forall hist :: Plausible(env, g', x, hist) <==> Plausible(env, g, x, hist)
    ensures forall ready :: ReadsOnly(env, g', x, ready) <==> ReadsOnly(env, g, x, ready)
  {
    forall hist ensures Plausible(env, g', x, hist) <==> Plausible(env, g, x, hist) {}
  }

  /** Such a compute is logged once, and reports whether the value changed. */
  lemma RecomputeCalm<V(!new)>(env: Env<V>, g: Graph<V>, x: Id, ready: set<Id>)
    requires Inv(env, g, {}) && x in g.slots && !g.slots[x].cached && g.slots[x].value.Some? && env.guarded(x)
    requires ReadsOnly(env, g, x, ready) && AllCached(g, ready) && x !in ready
    ensures var r := Recompute(env, g, x);
            r.0.log == g.log + [x] && (r.1 <==> r.0.slots[x].value != g.slots[x].value)
  {
    var g0 := Detach(g, x);
    DetachOk(env, g, x, {});
    PlausibleSame(env, g, g0, x);
    RunCalm(env, g0, x, [], ready);
    var (g1, hist) := RunCompute(env, g0, x, []);
    FinishLog(env, g1, x, hist);
  }

  lemma FinishLog<V(!new)>(env: Env<V>, g: Graph<V>, x: Id, hist: seq<V>)
    requires Sane(env, g) && x in g.slots && env.prog(x, hist).Done? && g.slots[x].value.Some? && env.guarded(x)
    ensures var r := Finish(env, g, x, hist);
            r.0.log == g.log + [x] && (r.1 <==> r.0.slots[x].value != g.slots[x].value)
  {
    var g' := Store(g, x, env.prog(x, hist).result, hist);
    if g.slots[x].value.value != env.prog(x, hist).result {
      MarkConeQuiet(env, Ticked(g'), SyncGraph.Roots(env, g', x));
    }
  }

  /** The mark walk runs nothing and changes no value. */
  lemma {:induction false} MarkConeQuiet<V>(env: Env<V>, g: Graph<V>, stack: seq<Mark>)
    requires Tidy(env, g) && Enumerates(env) && forall m :: m in stack ==> m.node in g.slots
    ensures var g' := MarkCone(env, g, stack); g'.log == g.log && forall y :: y in g.slots ==>
            g'.slots[y].value == g.slots[y].value
    decreases Unmarked(g), |stack|
  {
    if stack != [] {
      var (g1, stack1) := MarkStep(env, g, stack);
      MarkConeQuiet(env, g1, stack1);
    }
  }

  // ---------------------------------------------------------------- the dependency loop

  lemma {:induction false} LoopCalm<V(!new)>(env: Env<V>, g: Graph<V>, x: Id, ds: seq<Id>)
    requires Sane(env, g) && x in g.slots && forall d :: d in ds ==> d in env.inputs(x)
    requires forall d :: d in ds && d in g.slots ==> g.slots[d].cached
    ensures RefreshAll(env, g, x, ds) == (g, false)
  {
    if ds != [] { LoopCalm(env, g, x, ds[1..]); }
  }

  /** A loop in which only `p` is stale refreshes `p`. */
  lemma {:induction false} LoopOne<V(!new)>(env: Env<V>, g: Graph<V>, x: Id, ds: seq<Id>, p: Id)
    requires Inv(env, g, {}) && x in g.slots && forall d :: d in ds ==> d in env.inputs(x)
    requires p in ds && p in g.slots && forall d :: d in ds && d in g.slots && d != p ==> g.slots[d].cached
    ensures RefreshAll(env, g, x, ds) == Refresh(env, g, p)
  {
    RefreshAllTurns(env, g, x, ds);
    if ds[0] == p {
      RefreshOk(env, g, p, {});
      LoopCalm(env, Refresh(env, g, p).0, x, ds[1..]);
    } else {
      LoopOne(env, g, x, ds[1..], p);
    }
  }

  // ---------------------------------------------------------------- the chain

  /** Link `j` of a marked chain: only the link below it is stale among what it reads. */
  ghost predicate Link<V(!new)>(env: Env<V>, g: Graph<V>, path: seq<Id>, ready: seq<set<Id>>, j: nat)
    requires j < |path| == |ready|
  {
    var x := path[j];
    && x in g.slots && !g.slots[x].cached && g.slots[x].value.Some? && env.guarded(x) && (g.slots[x].force <==> j == 0)
    && AllCached(g, ready[j]) && x !in ready[j]
    && (j == 0 ==> ReadsOnly(env, g, x, ready[j]))
    && (j > 0 ==>
          && path[j - 1] in g.slots[x].deps && path[j - 1] !in ready[j]
          && ReadsOnly(env, g, x, ready[j] + {path[j - 1]})
          && (forall d :: d in g.slots[x].deps && d in g.slots && d != path[j - 1] ==> d in ready[j]))
  }

  ghost predicate Chain<V(!new)>(env: Env<V>, g: Graph<V>, path: seq<Id>, ready: seq<set<Id>>, i: nat)
    requires i < |path| == |ready|
  {
    forall j {:trigger Link(env, g, path, ready, j)} :: 0 <= j <= i ==> Link(env, g, path, ready, j)
  }

  /** Link `j` came out with another value. */
  ghost predicate Moved<V>(g: Graph<V>, g': Graph<V>, path: seq<Id>, j: nat)
    requires j < |path|
  {
    && path[j] in g.slots && path[j] in g'.slots && g'.slots[path[j]].value != g.slots[path[j]].value
  }

  /** The first `k` links ran: every one below the last of them moved, and that one did not unless it is link `i`. */
  ghost predicate Ran<V>(g: Graph<V>, r: (Graph<V>, bool), path: seq<Id>, i: nat, k: nat)
    requires i < |path|
  {
    && 1 <= k <= i + 1 && r.0.log == g.log + path[..k]
    && (forall j {:trigger Moved(g, r.0, path, j)} :: 0 <= j < k - 1 ==> Moved(g, r.0, path, j))
    && (k <= i ==> !Moved(g, r.0, path, k - 1))
    && (r.1 <==> k == i + 1 && Moved(g, r.0, path, i))
  }

  ghost predicate Settled<V>(g: Graph<V>, path: seq<Id>, i: nat)
    requires i < |path|
  {
    forall j {:trigger path[j]} :: 0 <= j <= i ==> path[j] in g.slots && g.slots[path[j]].cached
  }

  lemma TickedChain<V(!new)>(env: Env<V>, g: Graph<V>, path: seq<Id>, ready: seq<set<Id>>, i: nat)
    requires |path| == |ready| && 0 < i < |path| && Chain(env, g, path, ready, i)
    ensures Chain(env, Ticked(g), path, ready, i - 1)
  {
    forall j | 0 <= j <= i - 1 ensures Link(env, Ticked(g), path, ready, j) {
      assert Link(env, g, path, ready, j);
      PlausibleSame(env, g, Ticked(g), path[j]);
    }
  }

  /** What is known when the links below link `i` have run. */
  ghost predicate Below1<V(!new)>(env: Env<V>, g: Graph<V>, r1: (Graph<V>, bool), path: seq<Id>, ready: seq<set<Id>>,
          i: nat, k1: nat) {
    && 0 < i < |path| == |ready| && Link(env, g, path, ready, i)
    && Inv(env, r1.0, {}) && Frame(env, Ticked(g), r1.0, path[i - 1]) && env.rank(path[i - 1]) < env.rank(path[i])
    && Settled(r1.0, path, i - 1) && Ran(Ticked(g), r1, path, i - 1, k1)
  }

  lemma TopUntouched<V(!new)>(env: Env<V>, g: Graph<V>, r1: (Graph<V>, bool), path: seq<Id>, ready: seq<set<Id>>,
          i: nat, k1: nat)
    requires Below1(env, g, r1, path, ready, i, k1)
    ensures path[i] in r1.0.slots && r1.0.slots[path[i]].value == g.slots[path[i]].value
            && r1.0.slots[path[i]].value.Some?
    ensures !r1.0.slots[path[i]].cached && path[i] !in path[..i]
    ensures AllCached(r1.0, ready[i] + {path[i - 1]})
  {
    assert Above(Ticked(g).slots[path[i]], r1.0.slots[path[i]]);
    forall j | 0 <= j < i ensures path[j] != path[i] { assert r1.0.slots[path[j]].cached; }
    assert path[i - 1] in r1.0.slots && r1.0.slots[path[i - 1]].cached;
  }

  lemma TopQuiet<V(!new)>(env: Env<V>, g: Graph<V>, r1: (Graph<V>, bool), path: seq<Id>, ready: seq<set<Id>>, i: nat,
          k1: nat)
    requires Below1(env, g, r1, path, ready, i, k1) && !r1.1 && !env.retest && path[i] in r1.0.slots
             && r1.0.slots[path[i]].value.Some?
    ensures var r := Decide(env, r1.0, path[i], r1.1); Ran(g, r, path, i, k1) && Settled(r.0, path, i)
  {
    TopUntouched(env, g, r1, path, ready, i, k1);
    var x := path[i];
    var r := (Put(r1.0, x, Clean(r1.0.slots[x])), false);
    assert Decide(env, r1.0, x, r1.1) == r;
    QuietRan(g, r1, path, i, k1);
  }

  lemma QuietRan<V(!new)>(g: Graph<V>, r1: (Graph<V>, bool), path: seq<Id>, i: nat, k1: nat)
    requires 0 < i < |path| && path[i] in g.slots && path[i] in r1.0.slots && path[i] !in path[..i] && !r1.1
    requires Settled(r1.0, path, i - 1) && Ran(Ticked(g), r1, path, i - 1, k1)
    requires r1.0.slots[path[i]].value == g.slots[path[i]].value
    ensures var r := (Put(r1.0, path[i], Clean(r1.0.slots[path[i]])), false);
            Ran(g, r, path, i, k1) && Settled(r.0, path, i)
  {
    var r := (Put(r1.0, path[i], Clean(r1.0.slots[path[i]])), false);
    forall j | 0 <= j < i
      ensures r.0.slots[path[j]] == r1.0.slots[path[j]] && (Moved(g, r.0, path, j) <==> Moved(Ticked(g), r1.0, path, j))
    {
      assert path[j] == path[..i][j];
    }
  }

  lemma TopLoud<V(!new)>(env: Env<V>, g: Graph<V>, r1: (Graph<V>, bool), path: seq<Id>, ready: seq<set<Id>>, i: nat,
          k1: nat)
    requires Below1(env, g, r1, path, ready, i, k1) && r1.1 && path[i] in r1.0.slots && r1.0.slots[path[i]].value.Some?
    ensures var r := Decide(env, r1.0, path[i], r1.1); Ran(g, r, path, i, i + 1) && Settled(r.0, path, i)
  {
    TopUntouched(env, g, r1, path, ready, i, k1);
    var x := path[i];
    PlausibleSame(env, g, r1.0, x);
    RecomputeCalm(env, r1.0, x, ready[i] + {path[i - 1]});
    RecomputeOk(env, r1.0, x, {});
    var r := Recompute(env, r1.0, x);
    assert Decide(env, r1.0, x, r1.1) == r;
    LoudTop(env, g, r1, r, path, i);
  }

  lemma LoudTop<V(!new)>(env: Env<V>, g: Graph<V>, r1: (Graph<V>, bool), r: (Graph<V>, bool), path: seq<Id>, i: nat)
    requires 0 < i < |path| && Settled(r1.0, path, i - 1) && Ran(Ticked(g), r1, path, i - 1, i) && r1.1
    requires Frame(env, r1.0, r.0, path[i]) && r.0.log == r1.0.log + [path[i]]
    requires path[i] in g.slots && path[i] in r1.0.slots && g.slots[path[i]].value == r1.0.slots[path[i]].value
    requires path[i] in r.0.slots && r.0.slots[path[i]].cached
             && (r.1 <==> r.0.slots[path[i]].value != g.slots[path[i]].value)
    ensures Ran(g, r, path, i, i + 1) && Settled(r.0, path, i)
  {
    assert path[..i] + [path[i]] == path[..i + 1];
    forall j | 0 <= j < i ensures path[j] in r.0.slots && r.0.slots[path[j]].cached && Moved(g, r.0, path, j) {
      assert Moved(Ticked(g), r1.0, path, j);
      assert r.0.slots[path[j]] == r1.0.slots[path[j]];
    }
  }

  /** One link up: the loop of link `i` refreshes link `i - 1` only. */
  lemma ChainStep<V(!new)>(env: Env<V>, g: Graph<V>, path: seq<Id>, ready: seq<set<Id>>, i: nat)
    requires Inv(env, g, {}) && 0 < i < |path| == |ready| && Link(env, g, path, ready, i) && path[i - 1] in g.slots
    ensures var r1 := Refresh(env, Ticked(g), path[i - 1]);
            && Inv(env, r1.0, {}) && Frame(env, Ticked(g), r1.0, path[i - 1])
            && env.rank(path[i - 1]) < env.rank(path[i])
            && r1.0.slots[path[i]].value.Some?
            && Refresh(env, g, path[i]) == Decide(env, r1.0, path[i], r1.1)
  {
    var x, p := path[i], path[i - 1];
    TickedOk(env, g, {});
    assert p in env.inputs(x);
    RefreshOk(env, Ticked(g), p, {});
    var ds := env.enum(g.tick, g.slots[x].deps);
    LoopOne(env, Ticked(g), x, ds, p);
    RefreshDecides(env, g, x, ds);
  }

  lemma TopRuns<V(!new)>(env: Env<V>, g: Graph<V>, r1: (Graph<V>, bool), r: (Graph<V>, bool), path: seq<Id>,
          ready: seq<set<Id>>, i: nat, k1: nat)
    returns (k: nat)
    requires Below1(env, g, r1, path, ready, i, k1) && !env.retest
    requires path[i] in r1.0.slots && r1.0.slots[path[i]].value.Some? && r == Decide(env, r1.0, path[i], r1.1)
    ensures Ran(g, r, path, i, k) && Settled(r.0, path, i)
  {
    if r1.1 {
      k := i + 1;
      TopLoud(env, g, r1, path, ready, i, k1);
    } else {
      k := k1;
      TopQuiet(env, g, r1, path, ready, i, k1);
    }
  }

  ghost predicate Pulled<V(!new)>(env: Env<V>, g: Graph<V>, path: seq<Id>, i: nat, k: nat) {
    && Sane(env, g) && i < |path| && path[i] in g.slots
    && Ran(g, Refresh(env, g, path[i]), path, i, k) && Settled(Refresh(env, g, path[i]).0, path, i)
  }

  /** A graph at rest with a stale chain up to link `i`. */
  ghost predicate Pullable<V(!new)>(env: Env<V>, g: Graph<V>, path: seq<Id>, ready: seq<set<Id>>, i: nat) {
    Inv(env, g, {}) && !env.retest && i < |path| == |ready| && Chain(env, g, path, ready, i)
  }

  lemma ChainBase<V(!new)>(env: Env<V>, g: Graph<V>, path: seq<Id>, ready: seq<set<Id>>)
    requires Pullable(env, g, path, ready, 0)
    ensures Pulled(env, g, path, 0, 1)
  {
    assert Link(env, g, path, ready, 0);
    var x := path[0];
    RefreshRecomputes(env, g, x);
    RecomputeCalm(env, g, x, ready[0]);
    RecomputeOk(env, g, x, {});
    assert path[..1] == [x];
  }

  lemma ChainUp<V(!new)>(env: Env<V>, g: Graph<V>, path: seq<Id>, ready: seq<set<Id>>, i: nat, k1: nat) returns (k: nat)
    requires Pullable(env, g, path, ready, i) && i > 0 && Pulled(env, Ticked(g), path, i - 1, k1)
    ensures Pulled(env, g, path, i, k)
  {
    assert Link(env, g, path, ready, i);
    ChainStep(env, g, path, ready, i);
    k := TopRuns(env, g, Refresh(env, Ticked(g), path[i - 1]), Refresh(env, g, path[i]), path, ready, i, k1);
  }

  /** The pull of link `i` starts the pull of the link before it on a chain one shorter. */
  lemma ChainDown<V(!new)>(env: Env<V>, g: Graph<V>, path: seq<Id>, ready: seq<set<Id>>, i: nat)
    requires Pullable(env, g, path, ready, i) && i > 0
    ensures Pullable(env, Ticked(g), path, ready, i - 1)
  {
    TickedOk(env, g, {});
    TickedChain(env, g, path, ready, i);
  }

  /** A pull of link `i` runs the links from the bottom up to the first one that does not move. */
  lemma {:induction false} ChainRuns<V(!new)>(env: Env<V>, g: Graph<V>, path: seq<Id>, ready: seq<set<Id>>, i: nat)
          returns (k: nat)
    requires Pullable(env, g, path, ready, i)
    ensures Pulled(env, g, path, i, k)
    decreases i, 1
  {
    if i == 0 {
      k := 1;
      ChainBase(env, g, path, ready);
    } else {
      k := NextRuns(env, g, path, ready, i);
    }
  }

  lemma {:induction false} NextRuns<V(!new)>(env: Env<V>, g: Graph<V>, path: seq<Id>, ready: seq<set<Id>>, i: nat)
          returns (k: nat)
    requires Pullable(env, g, path, ready, i) && i > 0
    ensures Pulled(env, g, path, i, k)
    decreases i, 0
  {
    ChainDown(env, g, path, ready, i);
    var k1 := ChainRuns(env, Ticked(g), path, ready, i - 1);
    k := ChainUp(env, g, path, ready, i, k1);
  }

  // ---------------------------------------------------------------- the write

  ghost predicate Closed<V>(g: Graph<V>, cone: set<Id>) {
    forall d, x {:trigger Edge(g, d, x)} :: d in cone && Edge(g, d, x) ==> x in cone
  }

  /** The mark walk stays inside a set closed under dependents. */
  lemma {:induction false} MarkConeStays<V>(env: Env<V>, g: Graph<V>, stack: seq<Mark>, cone: set<Id>, y: Id)
    requires Tidy(env, g) && Enumerates(env) && forall m :: m in stack ==> m.node in g.slots && m.node in cone
    requires Closed(g, cone) && y in g.slots && y !in cone
    ensures MarkCone(env, g, stack).slots[y] == g.slots[y]
    decreases Unmarked(g), |stack|
  {
    if stack != [] {
      var (g1, stack1) := MarkStep(env, g, stack);
      forall m | m in stack1 ensures m.node in cone {
        if m !in stack { assert Edge(g, stack[|stack| - 1].node, m.node); }
      }
      forall d, x | d in cone && Edge(g1, d, x) ensures x in cone { assert Edge(g, d, x); }
      MarkConeStays(env, g1, stack1, cone, y);
    }
  }

  /** The graph as a write leaves it before anything is marked. */
  function Written<V>(g: Graph<V>, a: Id, v: V): Graph<V> {
    g.(sources := g.sources[a := v])
  }

  function Before(path: seq<Id>, j: nat): set<Id>
    requires j < |path|
  {
    if j > 0 then {path[j - 1]} else {}
  }

  /** Link `j` of a current chain: only the next link reads it, and it reads the link before it and current slots. */
  ghost predicate Fit<V(!new)>(env: Env<V>, g: Graph<V>, w: Graph<V>, path: seq<Id>, ready: seq<set<Id>>, j: nat)
    requires j < |path| == |ready|
  {
    var x := path[j];
    && x in g.slots && g.slots[x].cached && env.guarded(x)
    && Of(g.dependents, x) == (if j + 1 < |path| then {path[j + 1]} else {})
    && AllCached(g, ready[j]) && ready[j] !! Members(path)
    && (forall d :: d in g.slots[x].deps && d in g.slots ==> d in ready[j] + Before(path, j))
    && ReadsOnly(env, w, x, ready[j] + Before(path, j))
  }

  /** A current chain above source `a`, which is about to become `v`. */
  ghost predicate Ready<V(!new)>(env: Env<V>, g: Graph<V>, a: Id, v: V, path: seq<Id>, ready: seq<set<Id>>) {
    && a in g.sources && g.sources[a] != v && 0 < |path| == |ready| && Of(g.dependents, a) == {path[0]}
    && (forall j {:trigger Fit(env, g, Written(g, a, v), path, ready, j)} :: 0 <= j < |path| ==>
        Fit(env, g, Written(g, a, v), path, ready, j))
    && Distinct(path)
  }

  lemma WriteSpares<V(!new)>(env: Env<V>, g: Graph<V>, a: Id, v: V, path: seq<Id>, ready: seq<set<Id>>, y: Id)
    requires Quiescent(env, g) && g.depth == 0 && Ready(env, g, a, v, path, ready) && y in g.slots && y !in path
    ensures Write(env, g, a, v).slots[y] == g.slots[y]
  {
    var g1 := Written(g, a, v);
    forall d, x | d in Members(path) && Edge(Ticked(g1), d, x) ensures x in Members(path) {
      var j :| 0 <= j < |path| && path[j] == d;
      assert Fit(env, g, g1, path, ready, j);
    }
    MarkConeStays(env, Ticked(g1), SyncGraph.Roots(env, g1, a), Members(path), y);
  }

  ghost predicate Marked<V>(g: Graph<V>, g': Graph<V>, x: Id, force: bool) {
    && x in g.slots && Stale(g', x) && (g'.slots[x].force <==> force)
    && g'.slots[x].value == g.slots[x].value && g'.slots[x].deps == g.slots[x].deps
  }

  lemma {:induction false} WriteMarks<V(!new)>(env: Env<V>, g: Graph<V>, a: Id, v: V, path: seq<Id>,
          ready: seq<set<Id>>, j: nat)
    requires Quiescent(env, g) && g.depth == 0 && Ready(env, g, a, v, path, ready) && j < |path|
    ensures Marked(g, Write(env, g, a, v), path[j], j == 0)
    decreases j
  {
    ReadyEdges(env, g, a, v, path, ready, j);
    WriteFlags(env, g, a, v, path[j]);
    if j > 0 {
      WriteMarks(env, g, a, v, path, ready, j - 1);
      WriteStales(env, g, a, v, path[j - 1], path[j]);
    }
  }

  lemma ReadyEdges<V(!new)>(env: Env<V>, g: Graph<V>, a: Id, v: V, path: seq<Id>, ready: seq<set<Id>>, j: nat)
    requires Ready(env, g, a, v, path, ready) && j < |path|
    ensures path[j] in g.slots && g.slots[path[j]].cached && (path[j] in Of(g.dependents, a) <==> j == 0)
    ensures j > 0 ==> Edge(g, path[j - 1], path[j])
  {
    assert Fit(env, g, Written(g, a, v), path, ready, j);
    if j > 0 { assert Fit(env, g, Written(g, a, v), path, ready, j - 1); }
  }

  /** A write forces the direct readers and keeps everything but flags. */
  lemma WriteFlags<V(!new)>(env: Env<V>, g: Graph<V>, a: Id, v: V, x: Id)
    requires Quiescent(env, g) && g.depth == 0 && a in g.sources && g.sources[a] != v && x in g.slots
             && g.slots[x].cached
    ensures var g' := Write(env, g, a, v);
            && x in g'.slots && (g'.slots[x].force <==> x in Of(g.dependents, a))
            && (g'.slots[x].force ==> Stale(g', x))
            && g'.slots[x].value == g.slots[x].value && g'.slots[x].deps == g.slots[x].deps
  {
    var w := Written(g, a, v);
    var g' := MarkDependents(env, w, a);
    MarkConeMarks(env, Ticked(w), SyncGraph.Roots(env, w, a));
    assert SlotMarks(Ticked(w).slots[x], g'.slots[x]);
    MarkDependentsForces(env, w, a, x);
  }

  lemma WriteStales<V(!new)>(env: Env<V>, g: Graph<V>, a: Id, v: V, d: Id, x: Id)
    requires Quiescent(env, g) && a in g.sources && Stale(Write(env, g, a, v), d) && Edge(g, d, x)
    ensures Stale(Write(env, g, a, v), x)
  {
    WriteOk(env, g, a, v);
    if g.sources[a] != v && g.depth == 0 {
      var w := Written(g, a, v);
      MarkConeMarks(env, Ticked(w), SyncGraph.Roots(env, w, a));
    }
    assert Edge(Write(env, g, a, v), d, x);
  }

  lemma WriteLinks<V(!new)>(env: Env<V>, g: Graph<V>, a: Id, v: V, path: seq<Id>, ready: seq<set<Id>>, j: nat)
    requires Quiescent(env, g) && g.depth == 0 && Ready(env, g, a, v, path, ready) && j < |path|
    ensures Link(env, Write(env, g, a, v), path, ready, j)
  {
    WriteMarks(env, g, a, v, path, ready, j);
    WriteKeepsReady(env, g, a, v, path, ready, j);
    PlausibleSame(env, Written(g, a, v), Write(env, g, a, v), path[j]);
    if j > 0 { ReadyEdges(env, g, a, v, path, ready, j - 1); }
    MarkedIsLink(env, g, Written(g, a, v), Write(env, g, a, v), path, ready, j);
  }

  /** What the write does not reach stays current. */
  lemma WriteKeepsReady<V(!new)>(env: Env<V>, g: Graph<V>, a: Id, v: V, path: seq<Id>, ready: seq<set<Id>>, j: nat)
    requires Quiescent(env, g) && g.depth == 0 && Ready(env, g, a, v, path, ready) && j < |path|
    ensures var g' := Write(env, g, a, v);
            AllCached(g', ready[j]) && g'.sources == Written(g, a, v).sources && g'.slots.Keys == g.slots.Keys
  {
    var w, g' := Written(g, a, v), Write(env, g, a, v);
    MarkConeMarks(env, Ticked(w), SyncGraph.Roots(env, w, a));
    assert Fit(env, g, w, path, ready, j);
    forall d | d in ready[j] ensures d in g'.slots && g'.slots[d].cached {
      assert d !in Members(path);
      WriteSpares(env, g, a, v, path, ready, d);
    }
  }

  lemma MarkedIsLink<V(!new)>(env: Env<V>, g: Graph<V>, w: Graph<V>, g': Graph<V>, path: seq<Id>, ready: seq<set<Id>>,
          j: nat)
    requires EdgesOk(g) && Tidy(env, g) && j < |path| == |ready| && g'.slots.Keys == g.slots.Keys
    requires Fit(env, g, w, path, ready, j) && (j > 0 ==> Fit(env, g, w, path, ready, j - 1))
    requires Marked(g, g', path[j], j == 0) && AllCached(g', ready[j])
    requires forall s :: ReadsOnly(env, g', path[j], s) <==> ReadsOnly(env, w, path[j], s)
    ensures Link(env, g', path, ready, j)
  {
    assert path[j] in Members(path);
    if j > 0 {
      assert path[j - 1] in Members(path);
      assert Edge(g, path[j - 1], path[j]);
    } else {
      assert ready[j] + Before(path, j) == ready[j];
    }
  }

  /**
    A write below a current chain, then a pull of any link: the computes that run are the links from the bottom up
    to the first one whose value did not move, each once, and no other.  A slot outside the chain runs nothing.
   */
  lemma WriteThenPull<V(!new)>(env: Env<V>, g: Graph<V>, a: Id, v: V, path: seq<Id>, ready: seq<set<Id>>, i: nat)
          returns (k: nat)
    requires Quiescent(env, g) && g.depth == 0 && !env.retest
    requires Ready(env, g, a, v, path, ready) && i < |path|
    ensures var g' := Write(env, g, a, v);
            && Sane(env, g') && path[i] in g'.slots && g'.log == g.log && Ran(g', Refresh(env, g', path[i]), path, i, k)
  {
    var w, g' := Written(g, a, v), Write(env, g, a, v);
    WriteOk(env, g, a, v);
    MarkConeMarks(env, Ticked(w), SyncGraph.Roots(env, w, a));
    forall j | 0 <= j <= i ensures Link(env, g', path, ready, j) { WriteLinks(env, g, a, v, path, ready, j); }
    k := ChainRuns(env, g', path, ready, i);
  }
}
