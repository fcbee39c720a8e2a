/** Pulls return what a from-scratch evaluation gives. */
module SyncCoherence {
  import opened Basics
  import opened SyncGraph
  import opened SyncInvariant
  import opened SyncPull

  /** Every running compute belongs to a slot of higher rank. */
  ghost predicate BusyAbove<V>(env: Env<V>, busy: set<Id>, k: nat) {
    forall b :: b in busy ==> env.rank(b) > k
  }

  // ---------------------------------------------------------------- refresh

  lemma {:induction false} RefreshOk<V(!new)>(env: Env<V>, g: Graph<V>, x: Id, busy: set<Id>)
    requires Inv(env, g, busy) && x in g.slots && BusyAbove(env, busy, env.rank(x))
    ensures Refreshed(env, g, Refresh(env, g, x), x, busy)
    decreases env.rank(x), 3, 0
  {
    var s := g.slots[x];
    if !s.cached {
      if s.value.Some? && !s.force {
        var g0 := Ticked(g);
        TickedOk(env, g, busy);
        var ds := env.enum(g.tick, s.deps);
        RefreshAllOk(env, g0, x, ds, busy);
        var r := RefreshAll(env, g0, x, ds);
        assert SlotOk(env, g0, x) && x !in busy;
        DecideOk(env, g0, r, x, ds, busy);
        TickedFrame(env, g, Refresh(env, g, x), x, busy);
      } else {
        RecomputeOk(env, g, x, busy);
      }
    }
  }

  lemma TickedOk<V(!new)>(env: Env<V>, g: Graph<V>, busy: set<Id>)
    requires Inv(env, g, busy)
    ensures Inv(env, Ticked(g), busy)
  {
    var g' := Ticked(g);
    forall y, d | y in g'.slots ensures d in g'.slots[y].deps <==> Edge(g', d, y) {
      assert Edge(g, d, y) || !Edge(g, d, y);
    }
    forall d, y | Stale(g', d) && Edge(g', d, y) ensures Stale(g', y) { assert Edge(g, d, y); }
    forall y | y in g'.slots && y !in busy ensures SlotOk(env, g', y) { SlotOkKept(env, g, g', y); }
  }

  lemma TickedFrame<V(!new)>(env: Env<V>, g: Graph<V>, r: (Graph<V>, bool), x: Id, busy: set<Id>)
    requires Refreshed(env, Ticked(g), r, x, busy)
    ensures Refreshed(env, g, r, x, busy)
  {
    forall y | y in g.slots && y != x && env.rank(y) >= env.rank(x) ensures Above(g.slots[y], r.0.slots[y]) {
      assert Above(Ticked(g).slots[y], r.0.slots[y]);
    }
    forall y | Raised(g, r.0, y) ensures Raised(Ticked(g), r.0, y) {}
  }

  /** After the dependency loop of an unforced slot. */
  lemma {:induction false} DecideOk<V(!new)>(env: Env<V>, g: Graph<V>, r: (Graph<V>, bool), x: Id, ds: seq<Id>,
          busy: set<Id>)
    requires x in g.slots && BusyAbove(env, busy, env.rank(x))
    requires LoopDone(env, g, r, x, ds, busy) && Members(ds) == g.slots[x].deps && Valued(g, ds)
    requires g.slots[x].value.Some? && !g.slots[x].force && !g.slots[x].cached
    ensures Refreshed(env, g, Decide(env, r.0, x, r.1), x, busy)
    decreases env.rank(x), 2, 1
  {
    if !r.1 && !(env.retest && r.0.slots[x].force) {
      DecideCleans(env, g, r, x, ds, busy);
    } else {
      RecomputeOk(env, r.0, x, busy);
      if !Recompute(env, r.0, x).1 { RecomputeQuiet(env, r.0, x); }
      DecideRecomputes(env, g, r.0, Recompute(env, r.0, x), x, busy);
    }
  }

  lemma DecideCleans<V(!new)>(env: Env<V>, g: Graph<V>, r: (Graph<V>, bool), x: Id, ds: seq<Id>, busy: set<Id>)
    requires x in g.slots && BusyAbove(env, busy, env.rank(x))
    requires LoopDone(env, g, r, x, ds, busy) && Members(ds) == g.slots[x].deps && Valued(g, ds)
    requires g.slots[x].value.Some? && !g.slots[x].force && !g.slots[x].cached
    requires !r.1 && !(env.retest && r.0.slots[x].force)
    ensures Refreshed(env, g, (Put(r.0, x, Clean(r.0.slots[x])), false), x, busy)
  {
    var g1, g2 := r.0, Put(r.0, x, Clean(r.0.slots[x]));
    if SoundAt(env, x) { NotForcedAfterLoop(env, g, r, x, ds, busy); }
    CleanOk(env, g1, x, busy);
    FrameTwice(env, g, g1, g2, x);
    forall y | Raised(g, g2, y) ensures Raised(g, g1, y) {}
    forall y | Raised(g, g2, y) && env.rank(y) > env.rank(x) ensures ReadsMasked(env, y, x) {
      HiddenThrough(env, y, x);
    }
  }

  lemma DecideRecomputes<V(!new)>(env: Env<V>, g: Graph<V>, g1: Graph<V>, r: (Graph<V>, bool), x: Id, busy: set<Id>)
    requires x in g.slots && x in g1.slots && g1.slots.Keys == g.slots.Keys
    requires Frame(env, g, g1, x) && RaisesBelow(env, g, g1, x)
    requires Refreshed(env, g1, r, x, busy) && g1.slots[x].value.Some? && (!r.1 ==> env.guarded(x))
    ensures Refreshed(env, g, r, x, busy)
  {
    FrameTwice(env, g, g1, r.0, x);
    forall y | Raised(g, r.0, y) && env.rank(y) > env.rank(x)
      ensures (x in env.inputs(y) || ReadsBelow(env, y, x)) && (!r.1 ==> ReadsMasked(env, y, x))
    {
      RaisedTwice(g, g1, r.0, y);
      if !r.1 && Raised(g, g1, y) { GuardedHides(env, y, x); }
    }
  }

  /** Either the test after the loop says so, or no masked reads mean that no input hid a change. */
  lemma NotForcedAfterLoop<V(!new)>(env: Env<V>, g: Graph<V>, r: (Graph<V>, bool), x: Id, ds: seq<Id>, busy: set<Id>)
    requires SoundAt(env, x) && LoopDone(env, g, r, x, ds, busy) && Valued(g, ds) && !r.1 && !g.slots[x].force
    requires !(env.retest && r.0.slots[x].force)
    ensures !r.0.slots[x].force
  {
    if !env.retest { NoInputMasked(env, x); }
    assert r.0.slots[x].force ==> Raised(g, r.0, x);
  }

  lemma NoInputMasked<V(!new)>(env: Env<V>, x: Id)
    requires !env.retest && SoundAt(env, x)
    ensures !ReadsInputMasked(env, x, x)
  {
    forall e | e in env.inputs(x) ensures !ReadsMasked(env, x, e) {}
  }

  lemma HiddenThrough<V(!new)>(env: Env<V>, y: Id, x: Id)
    requires ReadsInputMasked(env, y, x) && (forall z, d :: d in env.inputs(z) ==> env.rank(d) < env.rank(z))
    ensures ReadsMasked(env, y, x)
  {
    var e :| e in env.inputs(x) && ReadsMasked(env, y, e);
    var d :| d in env.inputs(y) && Masked(env, e, d);
    assert Masked(env, x, d);
  }

  lemma GuardedHides<V(!new)>(env: Env<V>, y: Id, x: Id)
    requires ReadsBelow(env, y, x) && env.guarded(x)
    ensures ReadsMasked(env, y, x)
  {
    var d :| d in env.inputs(y) && Below(env, x, d);
    assert Masked(env, x, d);
  }

  /** Only a guard reports no change for a slot that already held a value. */
  lemma RecomputeQuiet<V(!new)>(env: Env<V>, g: Graph<V>, x: Id)
    requires Sane(env, g) && x in g.slots && g.slots[x].value.Some? && !Recompute(env, g, x).1
    ensures env.guarded(x)
  {
  }

  // ---------------------------------------------------------------- the dependency loop

  lemma {:induction false} RefreshAllOk<V(!new)>(env: Env<V>, g: Graph<V>, x: Id, ds: seq<Id>, busy: set<Id>)
    requires Inv(env, g, busy) && x in g.slots && (forall b :: b in busy ==> env.rank(b) >= env.rank(x))
    requires forall d :: d in ds ==> d in env.inputs(x)
    ensures LoopDone(env, g, RefreshAll(env, g, x, ds), x, ds, busy)
    decreases env.rank(x), 0, |ds|
  {
    if ds != [] {
      var d := ds[0];
      assert ds == [d] + ds[1..];
      RefreshAllTurns(env, g, x, ds);
      assert d in env.inputs(x) && env.rank(d) < env.rank(x);
      if d in g.sources {
        RefreshAllOk(env, g, x, ds[1..], busy);
      } else {
        RefreshOk(env, g, d, busy);
        var r1 := Refresh(env, g, d);
        RefreshAllOk(env, r1.0, x, ds[1..], busy);
        LoopStep(env, g, r1, RefreshAll(env, r1.0, x, ds[1..]), x, ds, busy);
      }
    }
  }

  /** One turn of the loop. */
  lemma LoopStep<V(!new)>(env: Env<V>, g: Graph<V>, r1: (Graph<V>, bool), r2: (Graph<V>, bool), x: Id, ds: seq<Id>,
          busy: set<Id>)
    requires Wired(env, g) && x in g.slots && ds != [] && ds[0] in env.inputs(x) && env.rank(ds[0]) < env.rank(x)
    requires Refreshed(env, g, r1, ds[0], busy) && LoopDone(env, r1.0, r2, x, ds[1..], busy)
    ensures LoopDone(env, g, (r2.0, r1.1 || r2.1), x, ds, busy)
  {
    assert ds == [ds[0]] + ds[1..];
    FrameUp(env, g, r1.0, ds[0], x);
    FrameTwice(env, g, r1.0, r2.0, x);
    LoopRaises(env, g, r1, r2, x, ds);
  }

  lemma LoopRaises<V(!new)>(env: Env<V>, g: Graph<V>, r1: (Graph<V>, bool), r2: (Graph<V>, bool), x: Id, ds: seq<Id>)
    requires (forall z, d :: d in env.inputs(z) ==> env.rank(d) < env.rank(z))
    requires ds != [] && ds[0] in env.inputs(x) && ds[0] in g.slots
    requires Grows(g, r1.0) && Raises(env, g, r1.0, ds[0]) && RaisesBelow(env, r1.0, r2.0, x)
    requires g.slots[ds[0]].value.Some? && !r1.1 ==> RaisesHidden(env, g, r1.0, ds[0])
    requires Valued(r1.0, ds[1..]) && !r2.1 ==>
               forall y :: Raised(r1.0, r2.0, y) && env.rank(y) >= env.rank(x) ==> ReadsInputMasked(env, y, x)
    ensures RaisesBelow(env, g, r2.0, x)
    ensures Valued(g, ds) && !r1.1 && !r2.1 ==>
              forall y :: Raised(g, r2.0, y) && env.rank(y) >= env.rank(x) ==> ReadsInputMasked(env, y, x)
  {
    var d := ds[0];
    forall y | Raised(g, r2.0, y) && env.rank(y) >= env.rank(x) ensures ReadsBelow(env, y, x) {
      RaisedTwice(g, r1.0, r2.0, y);
      if Raised(g, r1.0, y) {
        RaisedUp(env, y, d, x);
      }
    }
    if Valued(g, ds) && !r1.1 && !r2.1 {
      forall k | k in ds[1..] && k in r1.0.slots ensures r1.0.slots[k].value.Some? { assert k in ds && k in g.slots; }
      forall y | Raised(g, r2.0, y) && env.rank(y) >= env.rank(x) ensures ReadsInputMasked(env, y, x) {
        RaisedTwice(g, r1.0, r2.0, y);
        if Raised(g, r1.0, y) {
          assert d in ds;
          assert ReadsMasked(env, y, d);
        }
      }
    }
  }

  // ---------------------------------------------------------------- recompute

  /** What storing a result promises. */
  ghost predicate Stored<V(!new)>(env: Env<V>, g: Graph<V>, r: (Graph<V>, bool), x: Id, busy: set<Id>) {
    && Inv(env, r.0, busy) && Frame(env, g, r.0, x) && x in r.0.slots && r.0.slots[x].cached
    && (forall y {:trigger Raised(g, r.0, y)} :: Raised(g, r.0, y) ==> r.1 && x in env.inputs(y))
  }

  lemma FinishOk<V(!new)>(env: Env<V>, g: Graph<V>, x: Id, hist: seq<V>, busy: set<Id>)
    requires env.prog(x, hist).Done? && Finished(env, g, x, env.prog(x, hist).result, hist, busy)
    ensures Stored(env, g, Finish(env, g, x, hist), x, busy)
  {
    var v := env.prog(x, hist).result;
    var r := Finish(env, g, x, hist);
    StoreShape(env, g, x, v, hist, busy);
    if r.1 {
      StoreLoudOk(env, g, x, v, hist, busy);
      StoreLoudFrame(env, g, x, v, hist, busy);
      FrameTwice(env, g, Store(g, x, v, hist), r.0, x);
      forall y | Raised(g, r.0, y) ensures x in env.inputs(y) { StoreLoudRaises(env, g, x, v, hist, busy, y); }
    } else {
      StoreQuietOk(env, g, x, v, hist, busy);
    }
  }

  lemma {:induction false} RecomputeOk<V(!new)>(env: Env<V>, g: Graph<V>, x: Id, busy: set<Id>)
    requires Inv(env, g, busy) && x in g.slots && !g.slots[x].cached && BusyAbove(env, busy, env.rank(x))
    ensures Refreshed(env, g, Recompute(env, g, x), x, busy)
    decreases env.rank(x), 2, 0
  {
    var g0 := Detach(g, x);
    DetachOk(env, g, x, busy);
    RunComputeOk(env, g0, x, [], busy + {x});
    var (g1, hist) := RunCompute(env, g0, x, []);
    FinishOk(env, g1, x, hist, busy);
    var r := Finish(env, g1, x, hist);
    FrameTwice(env, g, g0, g1, x);
    FrameTwice(env, g, g1, r.0, x);
    if g.slots[x].value.Some? && !r.1 { RecomputeQuiet(env, g, x); }
    RecomputeRaises(env, g, g1, r, x);
  }

  lemma RecomputeRaises<V(!new)>(env: Env<V>, g: Graph<V>, g1: Graph<V>, r: (Graph<V>, bool), x: Id)
    requires x in g.slots && RaisesBelow(env, Detach(g, x), g1, x) && g1.slots.Keys == g.slots.Keys
    requires forall y :: Raised(g1, r.0, y) ==> r.1 && x in env.inputs(y)
    requires g.slots[x].value.Some? && !r.1 ==> env.guarded(x)
    ensures Raises(env, g, r.0, x)
    ensures g.slots[x].value.Some? && !r.1 ==> RaisesHidden(env, g, r.0, x)
  {
    forall y | Raised(g, r.0, y) && env.rank(y) > env.rank(x)
      ensures x in env.inputs(y) || ReadsBelow(env, y, x)
      ensures g.slots[x].value.Some? && !r.1 ==> ReadsMasked(env, y, x)
    {
      RaisedTwice(g, g1, r.0, y);
      if Raised(g, g1, y) {
        assert Raised(Detach(g, x), g1, y);
        if env.guarded(x) { GuardedHides(env, y, x); }
      }
    }
  }

  lemma {:induction false} RunComputeOk<V(!new)>(env: Env<V>, g: Graph<V>, x: Id, hist: seq<V>, busy: set<Id>)
    requires Inv(env, g, busy) && x in g.slots && x in busy && (forall b :: b in busy ==> env.rank(b) >= env.rank(x))
    requires ReadsDone(env, g, x, hist)
    ensures var (g', hist') := RunCompute(env, g, x, hist);
            Inv(env, g', busy) && Frame(env, g, g', x) && RaisesBelow(env, g, g', x) && ReadsDone(env, g', x, hist')
    decreases env.rank(x), 1, env.limit(x) - |hist|
  {
    match env.prog(x, hist)
    case Done(_) =>
    case Read(d) =>
      GetViaOk(env, g, d, x, hist, busy);
      var (g2, v) := GetVia(env, g, d, x);
      RunComputeOk(env, g2, x, hist + [v], busy);
      var g3 := RunCompute(env, g2, x, hist + [v]).0;
      FrameTwice(env, g, g2, g3, x);
      forall y | Raised(g, g3, y) && env.rank(y) >= env.rank(x) ensures ReadsBelow(env, y, x) {
        RaisedTwice(g, g2, g3, y);
      }
  }

  lemma {:induction false} GetViaOk<V(!new)>(env: Env<V>, g: Graph<V>, d: Id, x: Id, hist: seq<V>, busy: set<Id>)
    requires Inv(env, g, busy) && x in g.slots && x in busy && (forall b :: b in busy ==> env.rank(b) >= env.rank(x))
    requires ReadsDone(env, g, x, hist) && env.prog(x, hist) == Read(d)
    ensures var (g', v) := GetVia(env, g, d, x);
            && Inv(env, g', busy) && Frame(env, g, g', x) && RaisesBelow(env, g, g', x)
            && ReadsDone(env, g', x, hist + [v])
    decreases env.rank(x), 0, 0
  {
    var (g2, v) := GetVia(env, g, d, x);
    var g1 := TrackTo(g, d, x);
    TrackToOk(env, g, d, x, busy);
    if d in g.slots {
      RefreshOk(env, g1, d, busy);
      FrameUp(env, g1, g2, d, x);
      ReadRaises(env, g, d, x, Refresh(env, g1, d));
    }
    FrameTwice(env, g, g1, g2, x);
    ReadsDoneNext(env, g, g2, d, x, hist, v);
  }

  lemma ReadRaises<V(!new)>(env: Env<V>, g: Graph<V>, d: Id, x: Id, r: (Graph<V>, bool))
    requires x in g.slots && d in env.inputs(x) && env.rank(d) < env.rank(x) && Raises(env, TrackTo(g, d, x), r.0, d)
    ensures RaisesBelow(env, g, r.0, x)
  {
    forall y | Raised(g, r.0, y) && env.rank(y) >= env.rank(x) ensures ReadsBelow(env, y, x) {
      assert Raised(TrackTo(g, d, x), r.0, y);
      RaisedUp(env, y, d, x);
    }
  }

  lemma RaisedUp<V(!new)>(env: Env<V>, y: Id, d: Id, x: Id)
    requires d in env.inputs(x) && env.rank(d) < env.rank(x) && (d in env.inputs(y) || ReadsBelow(env, y, d))
    ensures ReadsBelow(env, y, x)
  {
    if d in env.inputs(y) {
      assert Below(env, x, d);
    } else {
      var e :| e in env.inputs(y) && Below(env, d, e);
      assert Below(env, x, e);
    }
  }

  lemma ReadsDoneNext<V(!new)>(env: Env<V>, g: Graph<V>, g2: Graph<V>, d: Id, x: Id, hist: seq<V>, v: V)
    requires x in g.slots && x in g2.slots && ReadsDone(env, g, x, hist) && env.prog(x, hist) == Read(d)
    requires Frame(env, TrackTo(g, d, x), g2, d) || g2 == TrackTo(g, d, x)
    requires g2.slots[x].deps == g.slots[x].deps + {d} && !g.slots[x].cached
    requires d in g.sources ==> v == g.sources[d] && d !in g.slots
    requires d in g2.slots ==> g2.slots[d].cached && g2.slots[d].value == Some(v)
    ensures ReadsDone(env, g2, x, hist + [v])
  {
    var h := hist + [v];
    forall i | 0 <= i < |h| ensures ReadDone(env, g2, x, h, i) {
      if i < |hist| {
        assert h[..i] == hist[..i];
        assert ReadDone(env, g, x, hist, i);
      } else {
        assert h[..i] == hist;
      }
    }
    forall e | e in g2.slots[x].deps ensures exists i :: 0 <= i < |h| && env.prog(x, h[..i]) == Read(e) {
      if e in g.slots[x].deps {
        var i :| 0 <= i < |hist| && env.prog(x, hist[..i]) == Read(e);
        assert h[..i] == hist[..i];
      } else {
        assert h[..|hist|] == hist;
      }
    }
  }
}
