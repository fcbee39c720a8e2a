/** A pull keeps the invariant and leaves the pulled slot current. */
module SyncPull {
  import opened Basics
  import opened SyncGraph
  import opened SyncInvariant

  // ---------------------------------------------------------------- frames

  /** A slot above the work: at most its flags were raised. */
  ghost predicate Above<V>(s: Slot<V>, s': Slot<V>) {
    s' == s.(dirty := s'.dirty, force := s'.force) && (s.force ==> s'.force)
  }

  /** Work on `x` touches no current slot, and no slot of its rank or above but `x`. */
  ghost predicate Frame<V>(env: Env<V>, g: Graph<V>, g': Graph<V>, x: Id) {
    && Grows(g, g')
    && (forall y {:trigger g'.slots[y]} :: y in g.slots && g.slots[y].cached ==> g'.slots[y] == g.slots[y])
    && (forall y {:trigger Above(g.slots[y], g'.slots[y])} ::
          y in g.slots && y != x && env.rank(y) >= env.rank(x) ==> Above(g.slots[y], g'.slots[y]))
  }

  /** Slot `y` was forced by the work. */
  ghost predicate Raised<V>(g: Graph<V>, g': Graph<V>, y: Id) {
    y in g.slots && y in g'.slots && !g.slots[y].force && g'.slots[y].force
  }

  ghost predicate ReadsBelow<V>(env: Env<V>, y: Id, x: Id) {
    exists d :: d in env.inputs(y) && Below(env, x, d)
  }

  ghost predicate ReadsMasked<V>(env: Env<V>, y: Id, x: Id) {
    exists d :: d in env.inputs(y) && Masked(env, x, d)
  }

  ghost predicate ReadsInputMasked<V>(env: Env<V>, y: Id, x: Id) {
    exists e :: e in env.inputs(x) && ReadsMasked(env, y, e)
  }

  /** Everything the work below `x` forced reads something below `x`. */
  ghost predicate RaisesBelow<V>(env: Env<V>, g: Graph<V>, g': Graph<V>, x: Id) {
    forall y {:trigger Raised(g, g', y)} :: Raised(g, g', y) && env.rank(y) >= env.rank(x) ==> ReadsBelow(env, y, x)
  }

  /** Everything the refresh of `x` forced reads `x` or something below it. */
  ghost predicate Raises<V>(env: Env<V>, g: Graph<V>, g': Graph<V>, x: Id) {
    forall y {:trigger Raised(g, g', y)} :: Raised(g, g', y) && env.rank(y) > env.rank(x) ==>
      x in env.inputs(y) || ReadsBelow(env, y, x)
  }

  /** Everything a refresh of `x` that reported no change forced reads a node hidden by `x`. */
  ghost predicate RaisesHidden<V>(env: Env<V>, g: Graph<V>, g': Graph<V>, x: Id) {
    forall y {:trigger Raised(g, g', y)} :: Raised(g, g', y) && env.rank(y) > env.rank(x) ==> ReadsMasked(env, y, x)
  }

  lemma FrameUp<V(!new)>(env: Env<V>, g: Graph<V>, g': Graph<V>, d: Id, x: Id)
    requires Frame(env, g, g', d) && env.rank(d) < env.rank(x)
    ensures Frame(env, g, g', x)
    ensures x in g.slots ==> Above(g.slots[x], g'.slots[x])
  {
  }

  lemma FrameTwice<V>(env: Env<V>, g: Graph<V>, g1: Graph<V>, g2: Graph<V>, x: Id)
    requires Frame(env, g, g1, x) && Frame(env, g1, g2, x)
    ensures Frame(env, g, g2, x)
  {
    forall y | y in g.slots && y != x && env.rank(y) >= env.rank(x) ensures Above(g.slots[y], g2.slots[y]) {
      assert Above(g.slots[y], g1.slots[y]) && Above(g1.slots[y], g2.slots[y]);
    }
  }

  lemma RaisedTwice<V>(g: Graph<V>, g1: Graph<V>, g2: Graph<V>, y: Id)
    requires y in g1.slots && Raised(g, g2, y)
    ensures Raised(g, g1, y) || Raised(g1, g2, y)
  {
  }

  /** What a refresh promises. */
  ghost predicate Refreshed<V(!new)>(env: Env<V>, g: Graph<V>, r: (Graph<V>, bool), x: Id, busy: set<Id>) {
    && Inv(env, r.0, busy) && x in g.slots && x in r.0.slots && r.0.slots[x].cached
    && Frame(env, g, r.0, x) && Raises(env, g, r.0, x)
    && (g.slots[x].value.Some? && !r.1 ==> RaisesHidden(env, g, r.0, x))
  }

  /** The slots among `ds` are current. */
  ghost predicate Current<V>(g: Graph<V>, ds: set<Id>) {
    forall d :: d in ds && d in g.slots ==> g.slots[d].cached
  }

  /** The slots among `ds` hold a value. */
  ghost predicate Valued<V>(g: Graph<V>, ds: seq<Id>) {
    forall d :: d in ds && d in g.slots ==> g.slots[d].value.Some?
  }

  /** What the dependency loop promises. */
  ghost predicate LoopDone<V(!new)>(env: Env<V>, g: Graph<V>, r: (Graph<V>, bool), x: Id, ds: seq<Id>, busy: set<Id>) {
    && Inv(env, r.0, busy) && x in g.slots && x in r.0.slots && Above(g.slots[x], r.0.slots[x])
    && Frame(env, g, r.0, x) && RaisesBelow(env, g, r.0, x) && Current(r.0, Members(ds))
    && (Valued(g, ds) && !r.1 ==>
          forall y {:trigger Raised(g, r.0, y)} :: Raised(g, r.0, y) && env.rank(y) >= env.rank(x) ==>
              ReadsInputMasked(env, y, x))
  }

  /** What a finished compute has established about its reads. */
  ghost predicate ReadDone<V>(env: Env<V>, g: Graph<V>, x: Id, hist: seq<V>, i: nat)
    requires x in g.slots && i < |hist|
  {
    var a := env.prog(x, hist[..i]);
    && a.Read? && a.dep in g.slots[x].deps
    && (a.dep in g.sources ==> g.sources[a.dep] == hist[i])
    && (a.dep in g.slots ==> g.slots[a.dep].cached && g.slots[a.dep].value == Some(hist[i]))
  }

  ghost predicate ReadsDone<V>(env: Env<V>, g: Graph<V>, x: Id, hist: seq<V>)
    requires x in g.slots
  {
    && (forall i {:trigger ReadDone(env, g, x, hist, i)} :: 0 <= i < |hist| ==> ReadDone(env, g, x, hist, i))
    && Current(g, g.slots[x].deps) && DepsRead(env, x, g.slots[x].deps, hist)
  }

  // ---------------------------------------------------------------- single changes

  /** SlotOk looks at the slot itself and at the values it read. */
  lemma SlotOkKept<V>(env: Env<V>, g: Graph<V>, g': Graph<V>, y: Id)
    requires y in g.slots && y in g'.slots && SlotOk(env, g, y)
    requires g'.slots[y].value == g.slots[y].value && g'.slots[y].trace == g.slots[y].trace
             && g'.slots[y].deps == g.slots[y].deps
    requires SoundAt(env, y) && g.slots[y].force ==> g'.slots[y].force
    requires Grows(g, g')
    requires !g'.slots[y].force ==>
               forall d :: d in g.slots[y].deps && d in g'.slots ==>
                   d in g.slots && g'.slots[d].value == g.slots[d].value
    ensures SlotOk(env, g', y)
  {
    var t := g.slots[y].trace;
    if g.slots[y].value.Some? && SoundAt(env, y) {
      forall i | 0 <= i < |t| ensures ReadOk(env, g', y, t, i) { assert ReadOk(env, g, y, t, i); }
    }
  }

  lemma DetachOk<V(!new)>(env: Env<V>, g: Graph<V>, x: Id, busy: set<Id>)
    requires Inv(env, g, busy) && x in g.slots && !g.slots[x].cached
    ensures Inv(env, Detach(g, x), busy + {x}) && Frame(env, g, Detach(g, x), x)
  {
    var g' := Detach(g, x);
    DetachShape(env, g, x);
    forall y | y in g'.slots && y !in busy + {x} ensures SlotOk(env, g', y) {
      assert SlotOk(env, g, y);
      SlotOkKept(env, g, g', y);
    }
  }

  lemma DetachShape<V(!new)>(env: Env<V>, g: Graph<V>, x: Id)
    requires Sane(env, g) && EdgesOk(g) && FlagsOk(g) && StaleUp(g, {}) && x in g.slots && !g.slots[x].cached
    ensures var g' := Detach(g, x);
            && Sane(env, g') && EdgesOk(g') && FlagsOk(g') && StaleUp(g', {}) && Frame(env, g, g', x)
            && forall y :: y in g.slots && y != x ==> g'.slots[y] == g.slots[y]
  {
    var g' := Detach(g, x);
    forall y, d | y in g'.slots ensures d in g'.slots[y].deps <==> Edge(g', d, y) {
      assert Edge(g, d, y) || !Edge(g, d, y);
    }
    forall d, y | Stale(g', d) && Edge(g', d, y) ensures Stale(g', y) { assert Edge(g, d, y); }
  }

  lemma TrackToOk<V(!new)>(env: Env<V>, g: Graph<V>, d: Id, x: Id, busy: set<Id>)
    requires Inv(env, g, busy) && x in g.slots && x in busy && d in env.inputs(x)
    ensures Inv(env, TrackTo(g, d, x), busy) && Frame(env, g, TrackTo(g, d, x), x)
  {
    var g' := TrackTo(g, d, x);
    TrackToShape(env, g, d, x);
    forall y | y in g'.slots && y !in busy ensures SlotOk(env, g', y) {
      assert SlotOk(env, g, y);
      SlotOkKept(env, g, g', y);
    }
  }

  lemma TrackToShape<V(!new)>(env: Env<V>, g: Graph<V>, d: Id, x: Id)
    requires Sane(env, g) && EdgesOk(g) && FlagsOk(g) && StaleUp(g, {}) && Stale(g, x) && d in env.inputs(x)
    ensures var g' := TrackTo(g, d, x);
            && Sane(env, g') && EdgesOk(g') && FlagsOk(g') && StaleUp(g', {}) && Frame(env, g, g', x)
            && forall y :: y in g.slots && y != x ==> g'.slots[y] == g.slots[y]
  {
    var g' := TrackTo(g, d, x);
    forall y, e | y in g'.slots ensures e in g'.slots[y].deps <==> Edge(g', e, y) {
      assert Edge(g, e, y) || !Edge(g, e, y);
    }
    forall e, y | Stale(g', e) && Edge(g', e, y) ensures Stale(g', y) { assert Edge(g, e, y) || y == x; }
  }

  /** markClean on a slot whose trace still matches, or on one nothing is claimed of. */
  lemma CleanOk<V(!new)>(env: Env<V>, g: Graph<V>, x: Id, busy: set<Id>)
    requires Inv(env, g, busy) && x in g.slots && x !in busy && g.slots[x].value.Some?
    requires Current(g, g.slots[x].deps) && (SoundAt(env, x) ==> !g.slots[x].force)
    ensures Inv(env, Put(g, x, Clean(g.slots[x])), busy) && Frame(env, g, Put(g, x, Clean(g.slots[x])), x)
  {
    var g' := Put(g, x, Clean(g.slots[x]));
    CleanShape(env, g, x, busy);
    forall y | y in g'.slots && y !in busy ensures SlotOk(env, g', y) {
      assert SlotOk(env, g, y);
      SlotOkKept(env, g, g', y);
    }
  }

  lemma CleanShape<V(!new)>(env: Env<V>, g: Graph<V>, x: Id, busy: set<Id>)
    requires Inv(env, g, busy) && x in g.slots && x !in busy && g.slots[x].value.Some? && Current(g, g.slots[x].deps)
    ensures var g' := Put(g, x, Clean(g.slots[x]));
            && Sane(env, g') && EdgesOk(g') && FlagsOk(g') && StaleUp(g', {})
            && (forall b :: b in busy ==> Stale(g', b))
            && Frame(env, g, g', x)
  {
    var g' := Put(g, x, Clean(g.slots[x]));
    forall y, d | y in g'.slots ensures d in g'.slots[y].deps <==> Edge(g', d, y) {
      assert Edge(g, d, y) || !Edge(g, d, y);
    }
    forall d, y | Stale(g', d) && Edge(g', d, y) ensures Stale(g', y) { assert Edge(g, d, y); }
  }

  /** The compute of `x` has ended with result `v`. */
  ghost predicate Finished<V(!new)>(env: Env<V>, g: Graph<V>, x: Id, v: V, hist: seq<V>, busy: set<Id>) {
    && Inv(env, g, busy + {x}) && x in g.slots && x !in busy
    && env.prog(x, hist) == Done(v) && ReadsDone(env, g, x, hist)
  }

  lemma StoredSlotOk<V(!new)>(env: Env<V>, g: Graph<V>, x: Id, v: V, hist: seq<V>, busy: set<Id>)
    requires Finished(env, g, x, v, hist, busy)
    ensures SlotOk(env, Store(g, x, v, hist), x)
  {
    var g' := Store(g, x, v, hist);
    forall i | 0 <= i < |hist| ensures ReadOk(env, g', x, hist, i) {
      assert ReadDone(env, g, x, hist, i);
      assert env.rank(env.prog(x, hist[..i]).dep) < env.rank(x);
    }
  }

  lemma StoreShape<V(!new)>(env: Env<V>, g: Graph<V>, x: Id, v: V, hist: seq<V>, busy: set<Id>)
    requires Finished(env, g, x, v, hist, busy)
    ensures var g' := Store(g, x, v, hist);
            && Sane(env, g') && EdgesOk(g') && FlagsOk(g') && StaleUp(g', {})
            && (forall b :: b in busy ==> Stale(g', b))
            && Frame(env, g, g', x)
            && (forall d :: d in Of(g'.dependents, x) ==> Stale(g', d))
  {
    var g' := Store(g, x, v, hist);
    forall y, d | y in g'.slots ensures d in g'.slots[y].deps <==> Edge(g', d, y) {
      assert Edge(g, d, y) || !Edge(g, d, y);
    }
    forall d, y | Stale(g', d) && Edge(g', d, y) ensures Stale(g', y) { assert Edge(g, d, y); }
    forall d | d in Of(g'.dependents, x) ensures Stale(g', d) {
      assert Edge(g, x, d);
      assert x in g.slots[d].deps;
    }
  }

  /** A first value, or an equal one, leaves every other slot as it was. */
  lemma StoreQuietOk<V(!new)>(env: Env<V>, g: Graph<V>, x: Id, v: V, hist: seq<V>, busy: set<Id>)
    requires Finished(env, g, x, v, hist, busy) && (g.slots[x].value.None? || g.slots[x].value == Some(v))
    ensures Inv(env, Store(g, x, v, hist), busy)
  {
    var g' := Store(g, x, v, hist);
    StoreShape(env, g, x, v, hist, busy);
    StoredSlotOk(env, g, x, v, hist, busy);
    forall y | y in g'.slots && y !in busy ensures SlotOk(env, g', y) {
      if y != x {
        assert SlotOk(env, g, y);
        var t := g.slots[y].trace;
        if g.slots[y].value.Some? && SoundAt(env, y) {
          forall i | 0 <= i < |t| ensures ReadOk(env, g', y, t, i) { assert ReadOk(env, g, y, t, i); }
        }
      }
    }
  }

  lemma StoreLoudFrame<V(!new)>(env: Env<V>, g: Graph<V>, x: Id, v: V, hist: seq<V>, busy: set<Id>)
    requires Finished(env, g, x, v, hist, busy)
    ensures var g2 := Store(g, x, v, hist);
            var g3 := MarkDependents(env, g2, x);
            Frame(env, g2, g3, x) && g3.slots[x] == g2.slots[x]
  {
    var g2 := Store(g, x, v, hist);
    StoreShape(env, g, x, v, hist, busy);
    var g3 := MarkDependents(env, g2, x);
    MarkDependentsMeans(env, g2, x);
    forall y | y in g2.slots && g2.slots[y].cached ensures g3.slots[y] == g2.slots[y] {
      MarkDependentsSpares(env, g2, x, y);
    }
    forall y | y in g2.slots && y != x && env.rank(y) >= env.rank(x) ensures Above(g2.slots[y], g3.slots[y]) {
      assert SlotMarks(g2.slots[y], g3.slots[y]);
    }
  }

  /** A changed value forces exactly the slots that read it. */
  lemma StoreLoudSlots<V(!new)>(env: Env<V>, g: Graph<V>, x: Id, v: V, hist: seq<V>, busy: set<Id>, y: Id)
    requires Finished(env, g, x, v, hist, busy) && y in g.slots && y !in busy
    ensures SlotOk(env, MarkDependents(env, Store(g, x, v, hist), x), y)
  {
    var g2 := Store(g, x, v, hist);
    StoreShape(env, g, x, v, hist, busy);
    var g3 := MarkDependents(env, g2, x);
    MarkDependentsMeans(env, g2, x);
    MarkDependentsForces(env, g2, x, y);
    assert SlotMarks(g2.slots[y], g3.slots[y]);
    if y == x {
      StoredSlotOk(env, g, x, v, hist, busy);
      OnlyFlagsMatter(env, g2, g3, x);
    } else {
      assert SlotOk(env, g, y);
      assert Edge(g2, x, y) <==> x in g2.slots[y].deps;
      var t := g.slots[y].trace;
      if g.slots[y].value.Some? && SoundAt(env, y) {
        forall i | 0 <= i < |t| ensures ReadOk(env, g3, y, t, i) {
          assert ReadOk(env, g, y, t, i);
          var d := env.prog(y, t[..i]).dep;
          if d in g.slots { assert SlotMarks(g2.slots[d], g3.slots[d]); }
        }
      }
    }
  }

  lemma OnlyFlagsMatter<V>(env: Env<V>, g: Graph<V>, g': Graph<V>, y: Id)
    requires OnlyMarks(g, g') && y in g.slots && SlotOk(env, g, y)
    ensures SlotOk(env, g', y)
  {
    assert SlotMarks(g.slots[y], g'.slots[y]);
    var t := g.slots[y].trace;
    if g.slots[y].value.Some? && SoundAt(env, y) {
      forall i | 0 <= i < |t| ensures ReadOk(env, g', y, t, i) {
        assert ReadOk(env, g, y, t, i);
        var d := env.prog(y, t[..i]).dep;
        if d in g.slots { assert SlotMarks(g.slots[d], g'.slots[d]); }
      }
    }
  }

  lemma MarksEdges<V>(g: Graph<V>, g': Graph<V>)
    requires OnlyMarks(g, g') && EdgesOk(g)
    ensures EdgesOk(g')
  {
    forall y, d | y in g'.slots ensures d in g'.slots[y].deps <==> Edge(g', d, y) {
      assert SlotMarks(g.slots[y], g'.slots[y]);
      assert Edge(g, d, y) || !Edge(g, d, y);
    }
  }

  lemma StoreLoudOk<V(!new)>(env: Env<V>, g: Graph<V>, x: Id, v: V, hist: seq<V>, busy: set<Id>)
    requires Finished(env, g, x, v, hist, busy)
    ensures Inv(env, MarkDependents(env, Store(g, x, v, hist), x), busy)
  {
    var g2 := Store(g, x, v, hist);
    StoreShape(env, g, x, v, hist, busy);
    var g3 := MarkDependents(env, g2, x);
    MarkDependentsMeans(env, g2, x);
    MarksEdges(g2, g3);
    forall b | b in busy ensures Stale(g3, b) { assert SlotMarks(g2.slots[b], g3.slots[b]); }
    forall y | y in g3.slots && y !in busy ensures SlotOk(env, g3, y) {
      StoreLoudSlots(env, g, x, v, hist, busy, y);
    }
  }

  lemma StoreLoudRaises<V(!new)>(env: Env<V>, g: Graph<V>, x: Id, v: V, hist: seq<V>, busy: set<Id>, y: Id)
    requires Finished(env, g, x, v, hist, busy)
    requires Raised(g, MarkDependents(env, Store(g, x, v, hist), x), y)
    ensures x in env.inputs(y)
  {
    var g2 := Store(g, x, v, hist);
    StoreShape(env, g, x, v, hist, busy);
    MarkDependentsForces(env, g2, x, y);
    assert Edge(g2, x, y);
  }
}
