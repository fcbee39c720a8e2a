/** Any number of planes that write to their families and send one another ops: unique stamps come from the clocks. */
module CrdtWorld {
  import opened Basics
  import opened SeqCrdt
  import opened CrdtPlane
  import opened CrdtWrites

  /** The replicas that exist, by peer id. */
  type World<S> = map<nat, Host<S>>

  datatype Move<S> =
    | Appear(peer: nat)
    | Set(peer: nat, key: string, state: S, now: int)
    | Send(from: nat, to: nat, ops: seq<Op<S>>)
    | Feed(to: nat, ops: seq<Op<S>>)

  /** The shared setting: the families, and the ops that come from outside, under stamps of outside peers. */
  datatype Setting<S> = Setting(families: set<string>, outside: seq<Op<S>>)

  ghost predicate Enabled<S>(t: Setting<S>, w: World<S>, m: Move<S>) {
    match m
    case Appear(p) => p !in w && forall op :: op in t.outside ==> op.stamp.peer != p
    case Set(p, key, _, _) => p in w && Namespace(key) in t.families
    case Send(p, q, ops) => p in w && q in w && Members(ops) <= Members(w[p].plane.ops)
    case Feed(q, ops) => q in w && Members(ops) <= Members(t.outside)
  }

  function Take<S>(t: Setting<S>, w: World<S>, m: Move<S>): World<S>
    requires m.Set? ==> m.peer in w
    requires m.Send? || m.Feed? ==> m.to in w
  {
    match m
    case Appear(p) => w[p := Host(NewPlane(t.families), Clock(0, 0), p)]
    case Set(p, key, state, now) => w[p := CrdtWrites.Step(w[p], Write(key, state, now))]
    case Send(_, q, ops) => w[q := CrdtWrites.Step(w[q], Arrive(ops))]
    case Feed(q, ops) => w[q := CrdtWrites.Step(w[q], Arrive(ops))]
  }

  // ---------------------------------------------------------------- the invariant

  /** An op that went around: it came from outside, or its writer has a clock that is past it. */
  ghost predicate Known<S>(t: Setting<S>, w: World<S>, op: Op<S>) {
    || op in t.outside
    || (op.stamp.peer in w && Behind(op.stamp, w[op.stamp.peer].clock) && IsFamily(t.families, op))
  }

  /** Nobody here writes under the stamps that come from outside. */
  ghost predicate Strangers<S>(t: Setting<S>, w: World<S>) {
    forall op :: op in t.outside ==> op.stamp.peer !in w
  }

  /** The log lists the ops that were applied. */
  ghost predicate LogOk<S>(p: Plane<S>) {
    forall x :: x in p.log <==> exists op :: op in p.ops && x == (op.node, op.stamp)
  }

  ghost predicate HostOk<S>(t: Setting<S>, w: World<S>, p: nat)
    requires p in w
  {
    && w[p].peer == p && Logged(w[p].plane, t.families) && LogOk(w[p].plane) && OwnBehind(w[p].plane, w[p].clock, p)
    && forall op {:trigger Known(t, w, op)} :: op in w[p].plane.ops ==> Known(t, w, op)
  }

  /** Equal stamps mean equal ops. */
  ghost predicate OneOpEach<S>(a: set<Op<S>>) {
    forall x, y :: x in a && y in a && x.stamp == y.stamp ==> x == y
  }

  ghost function AllOps<S>(t: Setting<S>, w: World<S>): set<Op<S>> {
    Members(t.outside) + set p, op | p in w && op in w[p].plane.ops :: op
  }

  lemma InAllOps<S>(t: Setting<S>, w: World<S>, op: Op<S>)
    ensures op in AllOps(t, w) <==> op in t.outside || exists p :: p in w && op in w[p].plane.ops
  {
  }

  /** A host changed in place, or a new one, brings no ops but `more`. */
  lemma AllOpsOf<S>(t: Setting<S>, w: World<S>, w': World<S>, q: nat, more: set<Op<S>>)
    requires q in w' && w' == w[q := w'[q]]
    requires forall op :: op in w'[q].plane.ops ==> op in more || op in AllOps(t, w)
    ensures AllOps(t, w') <= AllOps(t, w) + more
  {
    forall x | x in AllOps(t, w') ensures x in AllOps(t, w) + more {
      InAllOps(t, w', x);
      InAllOps(t, w, x);
      if x !in t.outside {
        var p :| p in w' && x in w'[p].plane.ops;
        if p != q { assert p in w && x in w[p].plane.ops; }
      }
    }
  }

  ghost predicate Inv<S>(t: Setting<S>, w: World<S>) {
    (forall p {:trigger HostOk(t, w, p)} :: p in w ==> HostOk(t, w, p)) && OneOpEach(AllOps(t, w)) && Strangers(t, w)
  }

  ghost predicate Sound<S>(t: Setting<S>) {
    Honest(t.families, Members(t.outside))
  }

  // ---------------------------------------------------------------- arrivals

  lemma IngestOneLog<S>(p: Plane<S>, op: Op<S>)
    requires LogOk(p)
    ensures LogOk(IngestOne(p, op))
    ensures Members(p.ops) <= Members(IngestOne(p, op).ops) <= Members(p.ops) + {op}
    ensures (op.node, op.stamp) in IngestOne(p, op).log && p.log <= IngestOne(p, op).log
  {
    var p' := IngestOne(p, op);
    if (op.node, op.stamp) !in p.log {
      assert p'.ops == p.ops + [op] && p'.log == p.log + {(op.node, op.stamp)};
      forall x ensures x in p'.log <==> exists o :: o in p'.ops && x == (o.node, o.stamp) {
        if x == (op.node, op.stamp) { assert op in p'.ops; }
        if x in p.log {
          var o :| o in p.ops && x == (o.node, o.stamp);
          assert o in p'.ops;
        }
      }
    }
  }

  /** What taking in `ops` did to the log. */
  ghost predicate TookIn<S>(p: Plane<S>, p': Plane<S>, ops: seq<Op<S>>) {
    && LogOk(p') && Members(p.ops) <= Members(p'.ops) <= Members(p.ops) + Members(ops)
    && p.log <= p'.log && forall op :: op in ops ==> (op.node, op.stamp) in p'.log
  }

  lemma {:induction false} IngestLog<S>(p: Plane<S>, ops: seq<Op<S>>)
    requires LogOk(p)
    ensures TookIn(p, Ingest(p, ops), ops)
    decreases |ops|
  {
    if ops != [] {
      var before, last := ops[..|ops| - 1], ops[|ops| - 1];
      IngestLog(p, before);
      IngestOneLog(Ingest(p, before), last);
      assert ops == before + [last];
      TookInOne(p, Ingest(p, before), IngestOne(Ingest(p, before), last), before, last);
    }
  }

  lemma TookInOne<S>(p: Plane<S>, p1: Plane<S>, p2: Plane<S>, ops: seq<Op<S>>, op: Op<S>)
    requires TookIn(p, p1, ops) && LogOk(p2) && (op.node, op.stamp) in p2.log && p1.log <= p2.log
    requires Members(p1.ops) <= Members(p2.ops) <= Members(p1.ops) + {op}
    ensures TookIn(p, p2, ops + [op])
  {
    assert Members(ops + [op]) == Members(ops) + {op};
  }

  lemma ArriveOk<S>(t: Setting<S>, w: World<S>, q: nat, ops: seq<Op<S>>)
    requires Inv(t, w) && Sound(t) && q in w && Members(ops) <= AllOps(t, w) && forall op :: op in ops ==>
             Known(t, w, op)
    ensures Inv(t, w[q := CrdtWrites.Step(w[q], Arrive(ops))])
  {
    var w' := w[q := CrdtWrites.Step(w[q], Arrive(ops))];
    assert HostOk(t, w, q);
    forall op | op in ops ensures AppNode(t.families, op) && (op.stamp.peer == q ==> Behind(op.stamp, w[q].clock)) {
      assert Known(t, w, op);
    }
    IngestLogged(t.families, w[q].plane, ops, w[q].clock, q);
    IngestLog(w[q].plane, ops);
    forall op | op in w'[q].plane.ops ensures op in AllOps(t, w) && Known(t, w', op) {
      assert op in Members(w'[q].plane.ops);
      assert op in w[q].plane.ops || op in Members(ops);
      assert Known(t, w, op);
    }
    forall p | p in w' ensures HostOk(t, w', p) { OthersOk(t, w, w', q, p); }
    AllOpsOf(t, w, w', q, {});
  }

  /** A host that stays keeps its part of the invariant when no clock goes back. */
  lemma OthersOk<S>(t: Setting<S>, w: World<S>, w': World<S>, q: nat, p: nat)
    requires Inv(t, w) && q in w' && w' == w[q := w'[q]] && p in w'
    requires p == q ==> HostOk(t, w', p)
    requires q in w ==> forall s :: Behind(s, w[q].clock) ==> Behind(s, w'[q].clock)
    requires q !in w ==> forall op :: op in t.outside ==> op.stamp.peer != q
    ensures HostOk(t, w', p)
  {
    if p != q {
      assert HostOk(t, w, p);
      forall op | op in w'[p].plane.ops ensures Known(t, w', op) { assert Known(t, w, op); }
    }
  }

  // ---------------------------------------------------------------- writes

  lemma WriteOk<S>(t: Setting<S>, w: World<S>, p: nat, key: string, state: S, now: int)
    requires Inv(t, w) && p in w && Namespace(key) in t.families
    ensures Inv(t, w[p := CrdtWrites.Step(w[p], Write(key, state, now))])
  {
    var w' := w[p := CrdtWrites.Step(w[p], Write(key, state, now))];
    assert HostOk(t, w, p);
    WriteLogged(t.families, w[p], key, state, now);
    var sent := WriteSends(t, w, p, key, state, now);
    WrittenOps(t, w, w', p, sent);
    forall q | q in w' ensures HostOk(t, w', q) { OthersOk(t, w, w', p, q); }
  }

  /** What a write adds: at most one op, under a stamp of its own. */
  lemma WriteSends<S>(t: Setting<S>, w: World<S>, p: nat, key: string, state: S, now: int) returns (sent: set<Op<S>>)
    requires Inv(t, w) && p in w && Namespace(key) in t.families
    ensures var h, h' := w[p], CrdtWrites.Step(w[p], Write(key, state, now));
            && (forall s :: Behind(s, h.clock) ==> Behind(s, h'.clock))
            && LogOk(h'.plane) && Members(h'.plane.ops) <= Members(h.plane.ops) + sent
            && forall op :: op in sent ==> NewOp(t, w, p, h'.clock, op)
    ensures |sent| <= 1
  {
    var h := w[p];
    assert HostOk(t, w, p);
    var (plane', c', op) := FamilySet(h.plane, h.clock, p, key, state, now);
    LocalIsIngest(h.plane, h.clock, p, key, state, now);
    forall s | Behind(s, h.clock) ensures Behind(s, c') { TickDominates(h.clock, now, 0, s); }
    sent := {};
    if op.Some? {
      sent := {op.value};
      IngestOneLog(h.plane, op.value);
      SentIsNew(t, w, p, c', now, op.value);
    }
  }

  /** An op of `p` under a stamp that nobody has seen. */
  ghost predicate NewOp<S>(t: Setting<S>, w: World<S>, p: nat, c: Clock, op: Op<S>) {
    && op.stamp.peer == p && Behind(op.stamp, c) && IsFamily(t.families, op)
    && forall x :: x in AllOps(t, w) ==> x.stamp != op.stamp
  }

  lemma SentIsNew<S>(t: Setting<S>, w: World<S>, p: nat, c: Clock, now: int, op: Op<S>)
    requires Inv(t, w) && p in w && c == Tick(w[p].clock, now) && op.stamp == Stamped(c, p) && IsFamily(t.families, op)
    ensures NewOp(t, w, p, c, op)
  {
    TickDominates(w[p].clock, now, p, Stamp(w[p].clock.wall, w[p].clock.logical, p));
    forall x | x in AllOps(t, w) ensures x.stamp != op.stamp {
      InAllOps(t, w, x);
      if x !in t.outside {
        var q :| q in w && x in w[q].plane.ops;
        assert HostOk(t, w, q) && Known(t, w, x);
      }
    }
  }

  lemma WrittenOps<S>(t: Setting<S>, w: World<S>, w': World<S>, p: nat, sent: set<Op<S>>)
    requires Inv(t, w) && p in w && p in w' && w' == w[p := w'[p]] && |sent| <= 1
    requires Members(w'[p].plane.ops) <= Members(w[p].plane.ops) + sent
    requires forall op :: op in sent ==> NewOp(t, w, p, w'[p].clock, op)
    requires forall s :: Behind(s, w[p].clock) ==> Behind(s, w'[p].clock)
    ensures OneOpEach(AllOps(t, w')) && forall x :: x in w'[p].plane.ops ==> Known(t, w', x)
  {
    assert HostOk(t, w, p);
    forall x | x in w'[p].plane.ops ensures Known(t, w', x) && (x in sent || x in AllOps(t, w)) {
      assert x in Members(w'[p].plane.ops);
      if x !in sent { assert x in w[p].plane.ops && Known(t, w, x); }
    }
    AllOpsOf(t, w, w', p, sent);
    forall x, y | x in sent && y in sent ensures x == y { AtMostOne(sent, x, y); }
  }

  lemma AtMostOne<T>(s: set<T>, x: T, y: T)
    requires |s| <= 1 && x in s && y in s
    ensures x == y
  {
    assert |s - {x}| == 0;
    assert s == s - {x} + {x};
  }

  // ---------------------------------------------------------------- runs

  lemma StartOk<S>(t: Setting<S>, w: World<S>, p: nat)
    requires Inv(t, w) && Enabled(t, w, Appear(p))
    ensures Inv(t, Take(t, w, Appear(p)))
  {
    var w' := Take(t, w, Appear(p));
    assert NewPlane<S>(t.families) == Ingest(NewPlane(t.families), []);
    forall q | q in w' ensures HostOk(t, w', q) { OthersOk(t, w, w', p, q); }
    AllOpsOf(t, w, w', p, {});
  }

  lemma MoveOk<S>(t: Setting<S>, w: World<S>, m: Move<S>)
    requires Inv(t, w) && Sound(t) && Enabled(t, w, m)
    ensures Inv(t, Take(t, w, m))
  {
    match m
    case Appear(p) => StartOk(t, w, p);
    case Set(p, key, state, now) => WriteOk(t, w, p, key, state, now);
    case Send(p, q, ops) =>
      assert HostOk(t, w, p);
      forall op | op in ops ensures Known(t, w, op) && op in AllOps(t, w) { assert op in Members(ops); }
      ArriveOk(t, w, q, ops);
    case Feed(q, ops) =>
      forall op | op in ops ensures Known(t, w, op) && op in AllOps(t, w) { assert op in Members(ops); }
      ArriveOk(t, w, q, ops);
  }

  ghost predicate IsRun<S>(t: Setting<S>, moves: seq<Move<S>>, worlds: seq<World<S>>) {
    && |worlds| == |moves| + 1 && worlds[0] == map[] && Sound(t)
    && forall i :: 0 <= i < |moves| ==> Enabled(t, worlds[i], moves[i]) && worlds[i + 1] == Take(t, worlds[i], moves[i])
  }

  lemma {:induction false} RunOk<S>(t: Setting<S>, moves: seq<Move<S>>, worlds: seq<World<S>>, n: nat)
    requires IsRun(t, moves, worlds) && n < |worlds|
    ensures Inv(t, worlds[n])
  {
    if n > 0 {
      RunOk(t, moves, worlds, n - 1);
      MoveOk(t, worlds[n - 1], moves[n - 1]);
    }
  }

  lemma OpsAreHonest<S>(t: Setting<S>, w: World<S>, p: nat)
    requires Inv(t, w) && Sound(t) && p in w
    ensures Honest(t.families, Members(w[p].plane.ops))
  {
    assert HostOk(t, w, p);
    forall x | x in w[p].plane.ops ensures x in AllOps(t, w) && (IsFamily(t.families, x) || x.node < FAMILY_BASE) {
      assert Known(t, w, x);
    }
  }

  /** Two planes show the same. */
  ghost predicate SamePlanes<S>(x: Plane<S>, y: Plane<S>) {
    SameWinners(x, y) && SameFamilies(x, y) && SameMembers(x, y)
  }

  /**
    Convergence.  In every run of writes, partial and repeated deliveries and new replicas, two replicas that hold the
    same ops agree on every winner, every family entry, the members of every family and the epoch.
   */
  lemma WorldConverges<S>(t: Setting<S>, moves: seq<Move<S>>, worlds: seq<World<S>>, n: nat, p: nat, q: nat)
    requires IsRun(t, moves, worlds) && n < |worlds| && p in worlds[n] && q in worlds[n]
    requires Members(worlds[n][p].plane.ops) == Members(worlds[n][q].plane.ops)
    ensures SamePlanes(worlds[n][p].plane, worlds[n][q].plane)
  {
    RunOk(t, moves, worlds, n);
    Agreement(t, worlds[n], p, q);
  }

  lemma Agreement<S>(t: Setting<S>, w: World<S>, p: nat, q: nat)
    requires Inv(t, w) && Sound(t) && p in w && q in w && Members(w[p].plane.ops) == Members(w[q].plane.ops)
    ensures SamePlanes(w[p].plane, w[q].plane)
  {
    assert HostOk(t, w, p) && HostOk(t, w, q);
    OpsAreHonest(t, w, p);
    PlanesConverge(t.families, w[p].plane.ops, w[q].plane.ops);
  }

  /** Sending everything one holds gives the other side the union. */
  lemma SendGivesAll<S>(t: Setting<S>, w: World<S>, p: nat, q: nat)
    requires Inv(t, w) && Sound(t) && p in w && q in w && p != q
    ensures var w' := Take(t, w, Send(p, q, w[p].plane.ops));
            Inv(t, w') && w'[p] == w[p] && Members(w'[q].plane.ops) == Members(w[q].plane.ops) + Members(w[p].plane.ops)
  {
    var w' := Take(t, w, Send(p, q, w[p].plane.ops));
    MoveOk(t, w, Send(p, q, w[p].plane.ops));
    assert HostOk(t, w, q);
    IngestLog(w[q].plane, w[p].plane.ops);
    forall op | op in w[p].plane.ops ensures op in w'[q].plane.ops { HeldOnceLogged(t, w', p, q, op); }
  }

  lemma HeldOnceLogged<S>(t: Setting<S>, w: World<S>, p: nat, q: nat, op: Op<S>)
    requires Inv(t, w) && p in w && q in w && op in w[p].plane.ops && (op.node, op.stamp) in w[q].plane.log
    ensures op in w[q].plane.ops
  {
    assert HostOk(t, w, q);
    var o :| o in w[q].plane.ops && (op.node, op.stamp) == (o.node, o.stamp);
    InAllOps(t, w, o);
    InAllOps(t, w, op);
  }

  /** So after one exchange of logs, in whatever state of whatever run, the two sides agree. */
  lemma ExchangeConverges<S>(t: Setting<S>, moves: seq<Move<S>>, worlds: seq<World<S>>, n: nat, p: nat, q: nat)
    requires IsRun(t, moves, worlds) && n < |worlds| && p in worlds[n] && q in worlds[n] && p != q
    ensures var w1 := Take(t, worlds[n], Send(p, q, worlds[n][p].plane.ops));
            var w2 := Take(t, w1, Send(q, p, w1[q].plane.ops));
            SamePlanes(w2[p].plane, w2[q].plane)
  {
    RunOk(t, moves, worlds, n);
    var w := worlds[n];
    SendGivesAll(t, w, p, q);
    var w1 := Take(t, w, Send(p, q, w[p].plane.ops));
    SendGivesAll(t, w1, q, p);
    Agreement(t, Take(t, w1, Send(q, p, w1[q].plane.ops)), p, q);
  }
}
