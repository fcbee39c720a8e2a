/** Local writes to the families of a plane, and planes that write and exchange ops in any order. */
module CrdtWrites {
  import opened Basics
  import opened SeqCrdt
  import opened CrdtPlane

  /**
    familySetLww for a key that parses: the new plane, the new clock, and the op to send unless the write was
    dominated.
   */
  function FamilySet<S>(p: Plane<S>, c: Clock, peer: nat, key: string, state: S, now: int)
          : (Plane<S>, Clock, Option<Op<S>>) {
    var c' := Tick(c, now);
    var stamp := Stamped(c', peer);
    if key in p.keyToNode then
      var (p', op) := SetKnown(p, p.keyToNode[key], stamp, state);
      (p', c', op)
    else
      var op := Op(Unused(p.winning, p.next), Some(key), stamp, state);
      (SetNew(p, key, op), c', Some(op))
  }

  /** A write to an entry that exists. */
  function SetKnown<S>(p: Plane<S>, node: nat, stamp: Stamp, state: S): (Plane<S>, Option<Op<S>>) {
    if node in p.winning && !Less(p.winning[node].stamp, stamp) then (p, None)
    else
      var op := Op(node, if node in p.winning then p.winning[node].key else None, stamp, state);
      (RecordLocal(p.(winning := p.winning[node := op]), op), Some(op))
  }

  /** A write that makes the entry. */
  function SetNew<S>(p: Plane<S>, key: string, op: Op<S>): Plane<S> {
    RecordLocal(p.(members := Recorded(p.members, Namespace(key), key), keyToNode := p.keyToNode[key := op.node],
                   winning := p.winning[op.node := op], epoch := p.epoch + 1, next := op.node + 1), op)
  }

  /** recordLocalOp. */
  function RecordLocal<S>(p: Plane<S>, op: Op<S>): Plane<S> {
    if (op.node, op.stamp) in p.log then p else p.(log := p.log + {(op.node, op.stamp)}, ops := p.ops + [op])
  }

  /** Family keys have nodes in the family range that hold an op with the key. */
  ghost predicate KeysHeld<S>(p: Plane<S>) {
    && p.next >= FAMILY_BASE
    && forall k {:trigger p.keyToNode[k]} :: k in p.keyToNode && Namespace(k) in p.families ==>
         p.keyToNode[k] >= FAMILY_BASE && p.keyToNode[k] in p.winning && p.winning[p.keyToNode[k]].key == Some(k)
  }

  /** Application nodes lie below the family range. */
  predicate AppNode<S>(families: set<string>, op: Op<S>) {
    IsFamily(families, op) || op.node < FAMILY_BASE
  }

  /** No op of this replica is ahead of its clock. */
  ghost predicate OwnBehind<S>(p: Plane<S>, c: Clock, peer: nat) {
    forall x {:trigger x in p.log} :: x in p.log && x.1.peer == peer ==> Behind(x.1, c)
  }

  /** A local write to a registered family is the ingest of the op it sends. */
  lemma LocalIsIngest<S>(p: Plane<S>, c: Clock, peer: nat, key: string, state: S, now: int)
    requires KeysHeld(p) && OwnBehind(p, c, peer) && Namespace(key) in p.families
    ensures var (p', c', op) := FamilySet(p, c, peer, key, state, now);
            && (op.Some? ==> p' == IngestOne(p, op.value) && IsFamily(p.families, op.value) && op.value.key == Some(key)
                             && op.value.state == state && op.value.stamp == Stamped(c', peer)
                             && (op.value.node, op.value.stamp) !in p.log)
            && (op.None? ==>
                p' == p && key in p.keyToNode && !Less(p.winning[p.keyToNode[key]].stamp, Stamped(c', peer)))
  {
    var (p', c', op) := FamilySet(p, c, peer, key, state, now);
    TickDominates(c, now, peer, Stamp(c.wall, c.logical, peer));
    if op.Some? {
      assert !Behind(op.value.stamp, c);
      assert (op.value.node, op.value.stamp) !in p.log;
    }
  }

  // ---------------------------------------------------------------- runs

  datatype Event<S> = Arrive(ops: seq<Op<S>>) | Write(key: string, state: S, now: int)

  datatype Host<S> = Host(plane: Plane<S>, clock: Clock, peer: nat)

  function Step<S>(r: Host<S>, e: Event<S>): Host<S> {
    match e
    case Arrive(ops) => r.(plane := Ingest(r.plane, ops))
    case Write(key, state, now) =>
      var (p, c, _) := FamilySet(r.plane, r.clock, r.peer, key, state, now);
      Host(p, c, r.peer)
  }

  function Run<S>(families: set<string>, peer: nat, events: seq<Event<S>>): Host<S> {
    if events == [] then Host(NewPlane(families), Clock(0, 0), peer)
    else Step(Run(families, peer, events[..|events| - 1]), events[|events| - 1])
  }

  /** Writes go to registered families; what arrives names application nodes and no stamp this peer has yet to mint. */
  ghost predicate Proper<S>(families: set<string>, peer: nat, events: seq<Event<S>>) {
    events != [] ==>
      var before, e := events[..|events| - 1], events[|events| - 1];
      && Proper(families, peer, before)
      && (e.Write? ==> Namespace(e.key) in families)
      && (e.Arrive? ==> forall op :: op in e.ops ==>
          AppNode(families, op) && (op.stamp.peer == peer ==> Behind(op.stamp, Run(families, peer, before).clock)))
  }

  /** The plane is what its own op log describes. */
  ghost predicate Logged<S>(p: Plane<S>, families: set<string>) {
    p.families == families && p == Ingest(NewPlane(families), p.ops) && KeysHeld(p)
  }

  lemma IngestOneLogged<S>(families: set<string>, p: Plane<S>, op: Op<S>)
    requires Logged(p, families) && AppNode(families, op)
    ensures Logged(IngestOne(p, op), families) && IngestOne(p, op).log == p.log + {(op.node, op.stamp)}
  {
    if (op.node, op.stamp) in p.log {
      assert p.log + {(op.node, op.stamp)} == p.log;
    } else {
      assert (p.ops + [op])[..|p.ops|] == p.ops;
      KeepsKeys(p.(log := p.log + {(op.node, op.stamp)}, ops := p.ops + [op]), op);
    }
  }

  lemma KeepsKeys<S>(p: Plane<S>, op: Op<S>)
    requires KeysHeld(p) && AppNode(p.families, op)
    ensures KeysHeld(Routed(p, op)) && Routed(p, op).families == p.families && Routed(p, op).ops == p.ops
            && Routed(p, op).log == p.log
  {
  }

  lemma {:induction false} IngestLogged<S>(families: set<string>, p: Plane<S>, ops: seq<Op<S>>, c: Clock, peer: nat)
    requires Logged(p, families) && OwnBehind(p, c, peer)
    requires forall op :: op in ops ==> AppNode(families, op) && (op.stamp.peer == peer ==> Behind(op.stamp, c))
    ensures Logged(Ingest(p, ops), families) && OwnBehind(Ingest(p, ops), c, peer)
    decreases |ops|
  {
    if ops != [] {
      var before, last := ops[..|ops| - 1], ops[|ops| - 1];
      assert forall op :: op in before ==> op in ops;
      IngestLogged(families, p, before, c, peer);
      assert last in ops;
      IngestOneLogged(families, Ingest(p, before), last);
    }
  }

  lemma WriteLogged<S>(families: set<string>, r: Host<S>, key: string, state: S, now: int)
    requires Logged(r.plane, families) && OwnBehind(r.plane, r.clock, r.peer) && Namespace(key) in families
    ensures var r' := Step(r, Write(key, state, now));
            Logged(r'.plane, families) && OwnBehind(r'.plane, r'.clock, r'.peer)
  {
    var (p, c, op) := FamilySet(r.plane, r.clock, r.peer, key, state, now);
    LocalIsIngest(r.plane, r.clock, r.peer, key, state, now);
    if op.Some? { IngestOneLogged(families, r.plane, op.value); }
    forall x | x in p.log && x.1.peer == r.peer ensures Behind(x.1, c) {
      if x in r.plane.log { TickDominates(r.clock, now, r.peer, x.1); }
    }
  }

  lemma {:induction false} RunLogged<S>(families: set<string>, peer: nat, events: seq<Event<S>>)
    requires Proper(families, peer, events)
    ensures var r := Run(families, peer, events);
            r.peer == peer && Logged(r.plane, families) && OwnBehind(r.plane, r.clock, peer)
    decreases |events|
  {
    if events == [] {
      assert NewPlane<S>(families) == Ingest(NewPlane(families), []);
    } else {
      var before, e := events[..|events| - 1], events[|events| - 1];
      RunLogged(families, peer, before);
      var r := Run(families, peer, before);
      match e
      case Arrive(ops) => IngestLogged(families, r.plane, ops, r.clock, peer);
      case Write(key, state, now) => WriteLogged(families, r, key, state, now);
    }
  }

  /** familyValueLww, with the stamp. */
  function EntryOf<S>(p: Plane<S>, key: string): Option<(Stamp, S)> {
    if key in p.keyToNode && p.keyToNode[key] in p.winning
        then Some((p.winning[p.keyToNode[key]].stamp, p.winning[p.keyToNode[key]].state))
    else None
  }

  /**
    In every run a write sets its entry unless the stamp of the entry is ahead, and touches no other family entry.  The
    clock of a plane follows its own writes and the wall clock, not the stamps that arrive.
   */
  lemma WriteTakesEffect<S>(families: set<string>, peer: nat, events: seq<Event<S>>, key: string, state: S, now: int,
          other: string)
    requires Proper(families, peer, events) && Namespace(key) in families && Namespace(other) in families
    ensures var r := Run(families, peer, events);
            var p, s := Step(r, Write(key, state, now)).plane, Stamped(Tick(r.clock, now), peer);
            var was := EntryOf(r.plane, key);
            && EntryOf(p, key) == (if was.Some? && !Less(was.value.0, s) then was else Some((s, state)))
            && (other != key ==> EntryOf(p, other) == EntryOf(r.plane, other))
  {
    RunLogged(families, peer, events);
    OneEntry(Run(families, peer, events).plane, Run(families, peer, events).clock, peer, key, state, now, other);
  }

  lemma OneEntry<S>(p: Plane<S>, c: Clock, peer: nat, key: string, state: S, now: int, other: string)
    requires KeysHeld(p) && Namespace(key) in p.families && Namespace(other) in p.families
    ensures var p', s := FamilySet(p, c, peer, key, state, now).0, Stamped(Tick(c, now), peer);
            var was := EntryOf(p, key);
            && EntryOf(p', key) == (if was.Some? && !Less(was.value.0, s) then was else Some((s, state)))
            && (other != key ==> EntryOf(p', other) == EntryOf(p, other))
  {
  }

  /** So a write by a clock that is behind a stamp that has arrived is dropped. */
  lemma LateClockLosesWrite<S>(ns: string, key: string, remote: S, mine: S, wall: nat, now: int)
    requires Namespace(key) == ns && wall > 0 && now < wall
    ensures var r := Run({ns}, 1, [Arrive([Op(5, Some(key), Stamp(wall, 0, 2), remote)])]);
            var r' := Step(r, Write(key, mine, now));
            key in r'.plane.keyToNode && r'.plane == r.plane && r.plane.winning[r.plane.keyToNode[key]].state == remote
  {
    var op := Op(5, Some(key), Stamp(wall, 0, 2), remote);
    var p0 := NewPlane<S>({ns});
    assert [op][..0] == [] && Ingest(p0, [op]) == IngestOne(p0, op);
    var events: seq<Event<S>> := [Arrive([op])];
    assert events[..0] == [];
    assert Run({ns}, 1, events) == Step(Run({ns}, 1, []), Arrive([op]));
    assert Tick(Clock(0, 0), now).wall < wall;
  }

  // ---------------------------------------------------------------- the object

  /** The plane of a replica with the clock that stamps its writes. */
  class Writer<S> {
    const peer: nat
    const plane: PlaneState<S>
    var lastWall: int
    var lastLogical: int

    constructor (peer: nat, plane: PlaneState<S>)
      ensures this.peer == peer && this.plane == plane && lastWall == lastLogical == 0
    {
      this.peer, this.plane, lastWall, lastLogical := peer, plane, 0, 0;
    }

    /** familySetLww. */
    method SetLww(key: string, state: S, now: int) returns (sent: Option<Op<S>>)
      modifies this, plane
      ensures (plane.Model(), Clock(lastWall, lastLogical), sent) ==
              FamilySet(old(plane.Model()), Clock(old(lastWall), old(lastLogical)), peer, key, state, now)
    {
      if now > lastWall { lastWall, lastLogical := now, 0; } else { lastLogical := lastLogical + 1; }
      var stamp := Stamp(lastWall, lastLogical, peer);
      if key in plane.keyToNode {
        sent := StoreKnown(plane.keyToNode[key], stamp, state);
      } else {
        var op := StoreNew(key, stamp, state);
        sent := Some(op);
      }
    }

    method StoreKnown(node: nat, stamp: Stamp, state: S) returns (sent: Option<Op<S>>)
      modifies plane
      ensures (plane.Model(), sent) == SetKnown(old(plane.Model()), node, stamp, state)
    {
      if node in plane.winning && !Less(plane.winning[node].stamp, stamp) { return None; }
      var op := Op(node, if node in plane.winning then plane.winning[node].key else None, stamp, state);
      plane.winning := plane.winning[node := op];
      RecordOwn(op);
      return Some(op);
    }

    method StoreNew(key: string, stamp: Stamp, state: S) returns (op: Op<S>)
      modifies plane
      ensures op == Op(Unused(old(plane.winning), old(plane.next)), Some(key), stamp, state)
      ensures plane.Model() == SetNew(old(plane.Model()), key, op)
    {
      plane.members := Recorded(plane.members, Namespace(key), key);
      var node := plane.Mint();
      op := Op(node, Some(key), stamp, state);
      plane.keyToNode := plane.keyToNode[key := node];
      plane.winning := plane.winning[node := op];
      plane.epoch := plane.epoch + 1;
      RecordOwn(op);
    }

    method RecordOwn(op: Op<S>)
      modifies plane
      ensures plane.Model() == RecordLocal(old(plane.Model()), op)
    {
      if (op.node, op.stamp) !in plane.log {
        plane.log := plane.log + {(op.node, op.stamp)};
        plane.ops := plane.ops + [op];
      }
    }
  }
}
