/**
  Replicas under updates and local commits: everything that can be applied is, and replicas given the same ops agree.
 */
module TreeRuns {
  import opened Basics
  import opened TreeOps
  import opened TreeConverge

  // ---------------------------------------------------------------- the invariant

  /** The frontier is exactly the set of applied ids. */
  ghost predicate FrontierIs(f: Frontier, s: set<Op>) {
    forall id: OpId {:trigger Contains(f, id)} :: id.counter >= 1 ==> (Contains(f, id) <==> id in Ids(s))
  }

  ghost predicate Core(r: Replica, s: set<Op>) {
    && Honest(s) && Members(r.log) <= s && Members(r.buffered) <= s
    && Grounded(r.log) && Rooted(Members(r.log))
    && IsTable(r.nodes, Members(r.log)) && FrontierIs(r.frontier, Members(r.log))
  }

  /** Nothing buffered can be applied, or already was. */
  ghost predicate Stuck(r: Replica) {
    forall op :: op in r.buffered ==> !Contains(r.frontier, op.id) && !Ready(r.nodes, r.frontier, op)
  }

  function Known(r: Replica): set<Op> {
    Members(r.log) + Members(r.buffered)
  }

  ghost predicate Settled(r: Replica, s: set<Op>) {
    Core(r, s) && Stuck(r) && Known(r) == s
  }

  lemma ReadyIsNeed(r: Replica, op: Op)
    requires Structural(op)
    ensures Ready(r.nodes, r.frontier, op) <==> Need(op) in r.nodes
  {
  }

  lemma ObserveIs(f: Frontier, s: set<Op>, op: Op)
    requires FrontierIs(f, s) && op.id.counter >= 1
    ensures FrontierIs(Observe(f, op.id), s + {op})
  {
    assert Ids(s + {op}) == Ids(s) + {op.id};
    var f' := Observe(f, op.id);
    forall id: OpId | id.counter >= 1 ensures Contains(f', id) <==> id in Ids(s + {op}) {
      assert Contains(f, id) <==> id in Ids(s);
    }
  }

  lemma CommitOk(r: Replica, s: set<Op>, op: Op)
    requires Core(r, s) && op in s && op.id !in Ids(Members(r.log)) && Need(op) in r.nodes
    ensures Core(Commit(r, op), s) && Members(Commit(r, op).log) == Members(r.log) + {op}
  {
    var a := Members(r.log);
    assert Members(r.log + [op]) == a + {op};
    assert a + {op} <= s;
    HonestPart(s, a + {op});
    ApplyIs(r.nodes, a, op);
    RootedMore(a, op);
    ObserveIs(r.frontier, a, op);
    GroundedMore(r.log, op);
  }

  lemma HonestPart(s: set<Op>, t: set<Op>)
    requires Honest(s) && t <= s
    ensures Honest(t)
  {
  }

  lemma GroundedMore(log: seq<Op>, op: Op)
    requires Grounded(log) && Structural(op) && Need(op) in Born(Members(log))
    ensures Grounded(log + [op])
  {
    var log' := log + [op];
    forall i | 0 <= i < |log'| && Structural(log'[i]) ensures Need(log'[i]) in Born(Members(log'[..i])) {
      if i < |log| {
        assert log'[i] == log[i] && log'[..i] == log[..i];
      } else {
        assert log'[..i] == log;
      }
    }
  }

  // ---------------------------------------------------------------- draining

  lemma OfferOk(r: Replica, s: set<Op>, op: Op)
    requires Core(r, s) && op in s
    ensures Core(Offer(r, op), s) && Known(Offer(r, op)) == Known(r) + {op}
  {
    ReadyIsNeed(r, op);
    if Contains(r.frontier, op.id) {
      SeenIsLogged(r, s, op);
    } else if Ready(r.nodes, r.frontier, op) {
      CommitOk(r, s, op);
    } else {
      KeepOk(r, s, op);
    }
  }

  lemma SeenIsLogged(r: Replica, s: set<Op>, op: Op)
    requires Core(r, s) && op in s && Contains(r.frontier, op.id)
    ensures op in Members(r.log) && Known(r) == Known(r) + {op}
  {
    assert op.id in Ids(Members(r.log));
  }

  lemma KeepOk(r: Replica, s: set<Op>, op: Op)
    requires Core(r, s) && op in s && !Contains(r.frontier, op.id)
    ensures var r' := r.(buffered := r.buffered + [op]); Core(r', s) && Known(r') == Known(r) + {op}
  {
    assert Members(r.buffered + [op]) == Members(r.buffered) + {op};
  }

  lemma {:induction false} PassOk(r: Replica, s: set<Op>, pending: seq<Op>)
    requires Core(r, s) && Members(pending) <= s
    ensures Core(Pass(r, pending), s) && Known(Pass(r, pending)) == Known(r) + Members(pending)
    decreases |pending|
  {
    if pending != [] {
      MembersHead(pending);
      OfferOk(r, s, pending[0]);
      PassOk(Offer(r, pending[0]), s, pending[1..]);
    }
  }

  /** A pass that applies nothing leaves only ops that cannot be applied. */
  lemma {:induction false} PassStuck(r: Replica, pending: seq<Op>)
    requires Stuck(r) && |Pass(r, pending).log| == |r.log|
    ensures Stuck(Pass(r, pending))
    decreases |pending|
  {
    if pending != [] {
      var r1 := Offer(r, pending[0]);
      PassStuck(r1, pending[1..]);
    }
  }

  lemma EmptiedOk(r: Replica, s: set<Op>)
    requires Core(r, s)
    ensures Core(r.(buffered := []), s) && Known(r.(buffered := [])) + Members(r.buffered) == Known(r)
            && Stuck(r.(buffered := []))
  {
  }

  /** drainBuffered ends with nothing ready left in the buffer, and loses nothing. */
  lemma {:induction false} DrainOk(r: Replica, s: set<Op>)
    requires Core(r, s)
    ensures Core(Drain(r), s) && Stuck(Drain(r)) && Known(Drain(r)) == Known(r)
    decreases |r.buffered|
  {
    var r0 := r.(buffered := []);
    var r1 := Pass(r0, r.buffered);
    EmptiedOk(r, s);
    PassOk(r0, s, r.buffered);
    if |r1.log| == |r.log| {
      PassStuck(r0, r.buffered);
    } else {
      DrainOk(r1, s);
    }
  }

  lemma {:induction false} TakeInOk(r: Replica, s: set<Op>, ops: seq<Op>)
    requires Core(r, s) && Members(ops) <= s
    ensures Core(TakeIn(r, ops), s) && Known(TakeIn(r, ops)) == Known(r) + Members(ops)
    decreases |ops|
  {
    if ops != [] {
      MembersHead(ops);
      TakeOneOk(r, s, ops[0]);
      TakeInOk(TakeOne(r, ops[0]), s, ops[1..]);
    }
  }

  lemma TakeOneOk(r: Replica, s: set<Op>, op: Op)
    requires Core(r, s) && op in s
    ensures Core(TakeOne(r, op), s) && Known(TakeOne(r, op)) == Known(r) + {op}
  {
    if Contains(r.frontier, op.id) { SeenIsLogged(r, s, op); } else { KeepOk(r, s, op); }
  }

  lemma CoreMore(r: Replica, s: set<Op>, t: set<Op>)
    requires Core(r, s) && s <= t && Honest(t)
    ensures Core(r, t)
  {
  }

  lemma UpdateOk(r: Replica, s: set<Op>, ops: seq<Op>)
    requires Settled(r, s) && Honest(s + Members(ops))
    ensures Settled(ApplyUpdate(r, ops), s + Members(ops))
  {
    var t := s + Members(ops);
    CoreMore(r, s, t);
    TakeInOk(r, t, ops);
    DrainOk(TakeIn(r, ops), t);
  }

  /** A settled replica holds exactly the ops of `s` that can be applied. */
  lemma SettledIsSaturated(r: Replica, s: set<Op>)
    requires Settled(r, s)
    ensures Saturated(s, r.log) && Members(r.buffered) == s - Members(r.log)
  {
    forall op | op in s && Structural(op) && Need(op) in Born(Members(r.log)) ensures op in r.log {
      ReadyIsNeed(r, op);
      assert op in r.log || op in r.buffered;
    }
    forall op | op in r.buffered ensures op !in r.log {
      assert op in s && Structural(op);
      assert op.id !in Ids(Members(r.log));
    }
  }

  // ---------------------------------------------------------------- runs

  datatype Event = Update(ops: seq<Op>) | Local(op: Op)

  function Step(r: Replica, e: Event): Replica {
    match e
    case Update(ops) => ApplyUpdate(r, ops)
    case Local(op) => Commit(r.(counter := op.id.counter), op)
  }

  function Run(peer: nat, events: seq<Event>): Replica {
    if events == [] then NewReplica(peer) else Step(Run(peer, events[..|events| - 1]), events[|events| - 1])
  }

  function Given(e: Event): set<Op> {
    match e
    case Update(ops) => Members(ops)
    case Local(op) => {op}
  }

  function Delivered(events: seq<Event>): set<Op> {
    if events == [] then {} else Delivered(events[..|events| - 1]) + Given(events[|events| - 1])
  }

  /** A local op has the next id of its peer and acts on a node that exists; nobody can have heard of it before. */
  ghost predicate LocalOk(r: Replica, known: set<Op>, op: Op) {
    && op.id == OpId(r.counter + 1, r.peer) && Ready(r.nodes, r.frontier, op) && op.id !in Ids(known)
    && (forall o :: o in known && Structural(o) ==> Need(o) != op.id)
  }

  ghost predicate LocalsOk(peer: nat, events: seq<Event>) {
    events != [] ==>
      var before := events[..|events| - 1];
      var last := events[|events| - 1];
      LocalsOk(peer, before) && (last.Local? ==> LocalOk(Run(peer, before), Delivered(before), last.op))
  }

  lemma LocalStepOk(r: Replica, s: set<Op>, op: Op)
    requires Settled(r, s) && Honest(s + {op}) && LocalOk(r, s, op)
    ensures Settled(Commit(r.(counter := op.id.counter), op), s + {op})
  {
    var t := s + {op};
    assert op in t;
    var r0 := r.(counter := op.id.counter);
    CoreMore(r, s, t);
    assert Ids(Members(r.log)) <= Ids(s);
    ReadyIsNeed(r, op);
    CommitOk(r0, t, op);
    StaysStuck(r, Commit(r0, op), s, op);
  }

  lemma StaysStuck(r: Replica, r': Replica, s: set<Op>, op: Op)
    requires Settled(r, s) && LocalOk(r, s, op) && Core(r', s + {op}) && Members(r'.log) == Members(r.log) + {op}
    requires r'.buffered == r.buffered
    ensures Stuck(r')
  {
    forall o | o in r.buffered ensures !Contains(r'.frontier, o.id) && !Ready(r'.nodes, r'.frontier, o) {
      assert o in s && o.id in Ids(s) && op in s + {op};
      StillStuck(r, r', Members(r.log), op, o);
    }
  }

  /** An op that waits for another node still waits. */
  lemma StillStuck(r: Replica, r1: Replica, a: set<Op>, op: Op, o: Op)
    requires Structural(op) && Structural(o) && o.id != op.id && Need(o) != op.id
    requires FrontierIs(r.frontier, a) && r.nodes.Keys == Born(a) && !Contains(r.frontier, o.id)
             && !Ready(r.nodes, r.frontier, o)
    requires FrontierIs(r1.frontier, a + {op}) && r1.nodes.Keys == Born(a + {op})
    ensures !Contains(r1.frontier, o.id) && !Ready(r1.nodes, r1.frontier, o)
  {
    ReadyIsNeed(r, o);
    ReadyIsNeed(r1, o);
    BornMore(a, op);
    assert Ids(a + {op}) == Ids(a) + {op.id};
  }

  lemma {:induction false} RunSettled(peer: nat, events: seq<Event>)
    requires Honest(Delivered(events)) && LocalsOk(peer, events)
    ensures Settled(Run(peer, events), Delivered(events))
    decreases |events|
  {
    if events != [] {
      var before, last := events[..|events| - 1], events[|events| - 1];
      HonestPart(Delivered(events), Delivered(before));
      RunSettled(peer, before);
      match last
      case Update(ops) => UpdateOk(Run(peer, before), Delivered(before), ops);
      case Local(op) => LocalStepOk(Run(peer, before), Delivered(before), op);
    }
  }

  /**
    Convergence.  Two replicas that were given the same set of ops, in any order and grouping and any number of times,
    hold the same ops, the same node table, the same frontier and the same waiting ops.
   */
  lemma Converges(p: nat, a: seq<Event>, q: nat, b: seq<Event>)
    requires Delivered(a) == Delivered(b) && Honest(Delivered(a)) && LocalsOk(p, a) && LocalsOk(q, b)
    ensures Members(Run(p, a).log) == Members(Run(q, b).log)
    ensures Run(p, a).nodes == Run(q, b).nodes
    ensures Members(Run(p, a).buffered) == Members(Run(q, b).buffered)
    ensures forall id: OpId :: id.counter >= 1 ==> (Contains(Run(p, a).frontier, id) <==>
            Contains(Run(q, b).frontier, id))
  {
    var s := Delivered(a);
    var x, y := Run(p, a), Run(q, b);
    RunSettled(p, a);
    RunSettled(q, b);
    SettledIsSaturated(x, s);
    SettledIsSaturated(y, s);
    SaturatedUnique(s, x.log, y.log);
    HonestPart(s, Members(x.log));
    TableUnique(Members(x.log), x.nodes, y.nodes);
  }

  /** What a diff carries is what the other side lacks: after applying it, it holds every op that was held here. */
  lemma DiffCatchesUp(x: Replica, s: set<Op>, y: Replica, t: set<Op>, ops: seq<Op>)
    requires Settled(x, s) && Settled(y, t) && Honest(s + t)
    requires Members(ops) == Members(Missing(x.log, y.frontier))
    ensures Members(x.log) <= Members(ApplyUpdate(y, ops).log)
  {
    var u := t + Members(ops);
    forall op | op in Members(ops) ensures op in s {
      assert op in Members(Missing(x.log, y.frontier));
      MissingHas(x.log, y.frontier, op);
    }
    HonestPart(s + t, u);
    UpdateOk(y, t, ops);
    forall op | op in x.log ensures op in u {
      SentOrHeld(x, s, y, t, op);
      assert op in Members(Missing(x.log, y.frontier)) ==> op in Members(ops);
    }
    HoldsAll(x.log, ApplyUpdate(y, ops), u);
  }

  lemma HoldsAll(log: seq<Op>, r: Replica, s: set<Op>)
    requires Settled(r, s) && Grounded(log) && Members(log) <= s
    ensures Members(log) <= Members(r.log)
  {
    SettledIsSaturated(r, s);
    GroundedIsHeld(s, log, r.log, |log|);
    assert log[..|log|] == log;
  }

  lemma SentOrHeld(x: Replica, s: set<Op>, y: Replica, t: set<Op>, op: Op)
    requires Settled(x, s) && Settled(y, t) && Honest(s + t) && op in x.log
    ensures op in t || op in Missing(x.log, y.frontier)
  {
    assert op in s && op in s + t;
    MissingHas(x.log, y.frontier, op);
    if Contains(y.frontier, op.id) {
      assert op.id in Ids(Members(y.log));
      var o :| o in y.log && o.id == op.id;
      assert o in t && o in s + t;
    }
  }
}
