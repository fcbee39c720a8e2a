/** The move-aware sequence: last-writer-wins registers stamped by hybrid logical clocks. */
module SeqCrdt {
  import opened Basics
  import opened TreeKeys

  // ---------------------------------------------------------------- the clock

  datatype Stamp = Stamp(wall: int, logical: int, peer: nat)

  predicate Less(a: Stamp, b: Stamp) {
    || a.wall < b.wall
    || (a.wall == b.wall && a.logical < b.logical)
    || (a.wall == b.wall && a.logical == b.logical && a.peer < b.peer)
  }

  function MaxStamp(a: Stamp, b: Stamp): Stamp {
    if Less(a, b) then b else a
  }

  datatype Clock = Clock(wall: int, logical: int)

  function Stamped(c: Clock, peer: nat): Stamp {
    Stamp(c.wall, c.logical, peer)
  }

  /** Hlc.Tick. */
  function Tick(c: Clock, now: int): Clock {
    if now > c.wall then Clock(now, 0) else Clock(c.wall, c.logical + 1)
  }

  function Max(a: int, b: int): int {
    if a >= b then a else b
  }

  /** Hlc.Observe. */
  function Observe(c: Clock, remote: Stamp, now: int): Clock {
    var wall := Max(Max(c.wall, remote.wall), now);
    if wall == c.wall && wall == remote.wall then Clock(wall, Max(c.logical, remote.logical) + 1)
    else if wall == c.wall then Clock(wall, c.logical + 1)
    else if wall == remote.wall then Clock(wall, remote.logical + 1)
    else Clock(wall, 0)
  }

  /** The stamp is not ahead of the clock, whoever minted it. */
  predicate Behind(s: Stamp, c: Clock) {
    s.wall < c.wall || (s.wall == c.wall && s.logical <= c.logical)
  }

  /** A tick is ahead of everything the clock is not behind. */
  lemma TickDominates(c: Clock, now: int, peer: nat, s: Stamp)
    requires Behind(s, c)
    ensures Less(s, Stamped(Tick(c, now), peer)) && Behind(s, Tick(c, now)) && !Behind(Stamped(Tick(c, now), peer), c)
  {
  }

  /** So is an observation, and of the observed stamp. */
  lemma ObserveDominates(c: Clock, remote: Stamp, now: int, peer: nat, s: Stamp)
    requires Behind(s, c)
    ensures Behind(s, Observe(c, remote, now)) && Behind(remote, Observe(c, remote, now))
            && Less(remote, Stamped(Observe(c, remote, now), peer))
    ensures Less(s, Stamped(Observe(c, remote, now), peer))
  {
  }

  // ---------------------------------------------------------------- registers and entries

  datatype Reg<T> = Reg(value: T, stamp: Stamp)

  function Set<T>(r: Reg<T>, value: T, stamp: Stamp): Reg<T> {
    if Less(r.stamp, stamp) then Reg(value, stamp) else r
  }

  function JoinReg<T>(a: Reg<T>, b: Reg<T>): Reg<T> {
    Set(a, b.value, b.stamp)
  }

  datatype Position = Position(frac: Key, peer: nat)

  datatype Entry<V> = Entry(value: Reg<V>, position: Reg<Position>, deleted: Reg<bool>)

  function JoinEntry<V>(a: Entry<V>, b: Entry<V>): Entry<V> {
    Entry(JoinReg(a.value, b.value), JoinReg(a.position, b.position), JoinReg(a.deleted, b.deleted))
  }

  function Newest<V>(e: Entry<V>): Stamp {
    MaxStamp(e.value.stamp, MaxStamp(e.position.stamp, e.deleted.stamp))
  }

  type Entries<I, V> = map<I, Entry<V>>

  function JoinEntries<I, V>(a: Entries<I, V>, b: Entries<I, V>): Entries<I, V> {
    map k | k in a.Keys + b.Keys :: if k !in b then a[k] else if k !in a then b[k] else JoinEntry(a[k], b[k])
  }

  /** Equal stamps carry equal values. */
  predicate RegsAgree<T(==)>(a: Reg<T>, b: Reg<T>) {
    a.stamp == b.stamp ==> a.value == b.value
  }

  predicate EntriesAgree<V(==)>(a: Entry<V>, b: Entry<V>) {
    RegsAgree(a.value, b.value) && RegsAgree(a.position, b.position) && RegsAgree(a.deleted, b.deleted)
  }

  ghost predicate Agree<I, V>(a: Entries<I, V>, b: Entries<I, V>) {
    forall k {:trigger a[k]} {:trigger b[k]} :: k in a && k in b ==> EntriesAgree(a[k], b[k])
  }

  lemma JoinCommutes<I, V>(a: Entries<I, V>, b: Entries<I, V>)
    requires Agree(a, b)
    ensures JoinEntries(a, b) == JoinEntries(b, a)
  {
    var x, y := JoinEntries(a, b), JoinEntries(b, a);
    forall k | k in x ensures x[k] == y[k] {
      if k in a && k in b { assert EntriesAgree(a[k], b[k]); }
    }
  }

  lemma JoinIdempotent<I, V>(a: Entries<I, V>)
    ensures JoinEntries(a, a) == a
  {
    forall k | k in a ensures JoinEntries(a, a)[k] == a[k] {}
  }

  lemma JoinAssociates<I, V>(a: Entries<I, V>, b: Entries<I, V>, c: Entries<I, V>)
    ensures JoinEntries(JoinEntries(a, b), c) == JoinEntries(a, JoinEntries(b, c))
  {
    var x, y := JoinEntries(JoinEntries(a, b), c), JoinEntries(a, JoinEntries(b, c));
    assert x.Keys == y.Keys;
    forall k | k in x ensures x[k] == y[k] {}
  }

  // ---------------------------------------------------------------- replicas

  datatype Replica<I, V> = Replica(peer: nat, clock: Clock, entries: Entries<I, V>)

  function New<I, V>(peer: nat): Replica<I, V> {
    Replica(peer, Clock(0, 0), map[])
  }

  function FracOf<I, V>(r: Replica<I, V>, ref: Option<I>): Option<Key> {
    if ref.Some? && ref.value in r.entries then Some(r.entries[ref.value].position.value.frac) else None
  }

  function PositionBetween<I, V>(r: Replica<I, V>, left: Option<I>, right: Option<I>): Position {
    var lo := FracOf(r, left);
    Position(KeyBetween(if lo.None? then [] else lo.value, FracOf(r, right)), r.peer)
  }

  datatype Edit<I, V> =
    | InsertBetween(id: I, value: V, left: Option<I>, right: Option<I>)
    | SetValue(id: I, value: V)
    | MoveBetween(id: I, left: Option<I>, right: Option<I>)
    | Remove(id: I)

  /** A local edit; a known id cannot be inserted and an unknown one cannot be changed. */
  function Apply<I, V>(r: Replica<I, V>, e: Edit<I, V>, now: int): Replica<I, V> {
    if e.InsertBetween? == (e.id in r.entries) then r
    else
      var c := Tick(r.clock, now);
      var s := Stamped(c, r.peer);
      match e
      case InsertBetween(id, v, left, right) =>
        Replica(r.peer, c, r.entries[id := Entry(Reg(v, s), Reg(PositionBetween(r, left, right), s), Reg(false, s))])
      case SetValue(id, v) => Replica(r.peer, c,
          r.entries[id := r.entries[id].(value := Set(r.entries[id].value, v, s))])
      case MoveBetween(id, left, right) =>
        Replica(r.peer, c, r.entries[id := r.entries[id].(position := Set(r.entries[id].position,
            PositionBetween(r, left, right), s))])
      case Remove(id) => Replica(r.peer, c, r.entries[id := r.entries[id].(deleted := Set(r.entries[id].deleted, true,
          s))])
  }

  /** The clock after observing every entry of the other side, in the order they are met. */
  function ObserveAll<I, V>(c: Clock, other: Entries<I, V>, order: seq<I>, now: int): Clock {
    if order == [] then c
    else
      var c1 := ObserveAll(c, other, order[..|order| - 1], now);
      if order[|order| - 1] in other then Observe(c1, Newest(other[order[|order| - 1]]), now) else c1
  }

  function Merge<I, V>(r: Replica<I, V>, other: Replica<I, V>, order: seq<I>, now: int): Replica<I, V> {
    Replica(r.peer, ObserveAll(r.clock, other.entries, order, now), JoinEntries(r.entries, other.entries))
  }

  function Fork<I, V>(r: Replica<I, V>, peer: nat): Replica<I, V> {
    r.(peer := peer)
  }

  // ---------------------------------------------------------------- worlds of replicas

  /** The replicas that exist, by peer id. */
  type World<I, V> = map<nat, Replica<I, V>>

  datatype Step<I, V> =
    | Start(peer: nat)
    | Local(peer: nat, edit: Edit<I, V>, now: int)
    | Pull(peer: nat, from: nat, order: seq<I>, now: int)
    | Branch(peer: nat, fork: nat)

  /** Every replica has a peer id of its own. */
  ghost predicate Enabled<I, V>(w: World<I, V>, s: Step<I, V>) {
    match s
    case Start(p) => p !in w
    case Local(p, _, _) => p in w
    case Pull(p, q, order, _) => p in w && q in w && Members(order) == w[q].entries.Keys
    case Branch(p, q) => p in w && q !in w
  }

  ghost function Take<I, V>(w: World<I, V>, s: Step<I, V>): World<I, V>
    requires Enabled(w, s)
  {
    match s
    case Start(p) => w[p := New(p)]
    case Local(p, e, now) => w[p := Apply(w[p], e, now)]
    case Pull(p, q, order, now) => w[p := Merge(w[p], w[q], order, now)]
    case Branch(p, q) => w[q := Fork(w[p], q)]
  }

  // ---------------------------------------------------------------- the invariant

  predicate EntryBehind<V>(e: Entry<V>, c: Clock) {
    Behind(e.value.stamp, c) && Behind(e.position.stamp, c) && Behind(e.deleted.stamp, c)
  }

  /** The clock has seen every stamp that is held. */
  ghost predicate Seen<I, V>(r: Replica<I, V>) {
    forall k {:trigger r.entries[k]} :: k in r.entries ==> EntryBehind(r.entries[k], r.clock)
  }

  predicate Minted(s: Stamp, p: nat, c: Clock) {
    s.peer == p ==> Behind(s, c)
  }

  predicate EntryMinted<V>(e: Entry<V>, p: nat, c: Clock) {
    Minted(e.value.stamp, p, c) && Minted(e.position.stamp, p, c) && Minted(e.deleted.stamp, p, c)
  }

  /** No stamp of peer `p`, wherever it is held, is ahead of its clock. */
  ghost predicate Own<I, V>(w: World<I, V>, p: nat, q: nat)
    requires p in w && q in w
  {
    forall k {:trigger w[q].entries[k]} :: k in w[q].entries ==> EntryMinted(w[q].entries[k], p, w[p].clock)
  }

  predicate EntryFrom<V>(e: Entry<V>, peers: set<nat>) {
    e.value.stamp.peer in peers && e.position.stamp.peer in peers && e.deleted.stamp.peer in peers
  }

  /** Every stamp was minted by a replica that exists. */
  ghost predicate From<I, V>(r: Replica<I, V>, peers: set<nat>) {
    forall k {:trigger r.entries[k]} :: k in r.entries ==> EntryFrom(r.entries[k], peers)
  }

  ghost predicate Inv<I, V>(w: World<I, V>) {
    && (forall p {:trigger w[p]} :: p in w ==> w[p].peer == p && Seen(w[p]) && From(w[p], w.Keys))
    && (forall p, q {:trigger Own(w, p, q)} :: p in w && q in w ==> Own(w, p, q))
    && (forall p, q {:trigger Agree(w[p].entries, w[q].entries)} :: p in w && q in w ==>
        Agree(w[p].entries, w[q].entries))
  }

  // ---------------------------------------------------------------- merging

  lemma {:induction false} ObserveAllGrows<I, V>(c: Clock, other: Entries<I, V>, order: seq<I>, now: int, s: Stamp)
    requires Behind(s, c)
    ensures Behind(s, ObserveAll(c, other, order, now))
    decreases |order|
  {
    if order != [] {
      ObserveAllGrows(c, other, order[..|order| - 1], now, s);
      if order[|order| - 1] in other {
        ObserveDominates(ObserveAll(c, other, order[..|order| - 1], now), Newest(other[order[|order| - 1]]), now, 0, s);
      }
    }
  }

  lemma NewestDominates<V>(e: Entry<V>, c: Clock)
    requires Behind(Newest(e), c)
    ensures EntryBehind(e, c)
  {
  }

  /** After the observations no entry of the other side is ahead of the clock. */
  lemma {:induction false} ObserveAllSees<I, V>(c: Clock, other: Entries<I, V>, order: seq<I>, now: int, k: I)
    requires k in other && k in order
    ensures EntryBehind(other[k], ObserveAll(c, other, order, now))
    decreases |order|
  {
    var last := order[|order| - 1];
    var c1 := ObserveAll(c, other, order[..|order| - 1], now);
    if k == last {
      ObserveDominates(c1, Newest(other[k]), now, 0, Stamp(c1.wall, c1.logical, 0));
      NewestDominates(other[k], ObserveAll(c, other, order, now));
    } else {
      ObserveAllSees(c, other, order[..|order| - 1], now, k);
      if last in other {
        ObserveDominates(c1, Newest(other[last]), now, 0, other[k].value.stamp);
        ObserveDominates(c1, Newest(other[last]), now, 0, other[k].position.stamp);
        ObserveDominates(c1, Newest(other[last]), now, 0, other[k].deleted.stamp);
      }
    }
  }

  lemma MergeSees<I, V>(r: Replica<I, V>, other: Replica<I, V>, order: seq<I>, now: int)
    requires Seen(r) && Members(order) == other.entries.Keys
    ensures Seen(Merge(r, other, order, now))
  {
    var m := Merge(r, other, order, now);
    forall k | k in m.entries ensures EntryBehind(m.entries[k], m.clock) {
      if k in r.entries {
        assert EntryBehind(r.entries[k], r.clock);
        ObserveAllGrows(r.clock, other.entries, order, now, r.entries[k].value.stamp);
        ObserveAllGrows(r.clock, other.entries, order, now, r.entries[k].position.stamp);
        ObserveAllGrows(r.clock, other.entries, order, now, r.entries[k].deleted.stamp);
      }
      if k in other.entries {
        assert k in Members(order);
        ObserveAllSees(r.clock, other.entries, order, now, k);
      }
    }
  }
}
