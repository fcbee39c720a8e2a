/** The clock and the sequence as objects. */
module SeqObject {
  import opened Basics
  import opened SeqCrdt

  class Hlc {
    const peer: nat
    var lastWall: int
    var lastLogical: int

    function Model(): Clock
      reads this
    {
      Clock(lastWall, lastLogical)
    }

    constructor (peer: nat)
      ensures this.peer == peer && Model() == Clock(0, 0)
    {
      this.peer, lastWall, lastLogical := peer, 0, 0;
    }

    method TickAt(now: int) returns (s: Stamp)
      modifies this
      ensures Model() == Tick(old(Model()), now) && s == Stamped(Model(), peer)
      ensures forall q :: Behind(q, old(Model())) ==> Less(q, s) && Behind(q, Model())
    {
      forall q | Behind(q, Model()) ensures Less(q, Stamped(Tick(Model(), now), peer))
          && Behind(q, Tick(Model(), now)) {
        TickDominates(Model(), now, peer, q);
      }
      if now > lastWall {
        lastWall, lastLogical := now, 0;
      } else {
        lastLogical := lastLogical + 1;
      }
      s := Stamp(lastWall, lastLogical, peer);
    }

    method ObserveAt(remote: Stamp, now: int) returns (s: Stamp)
      modifies this
      ensures Model() == Observe(old(Model()), remote, now) && s == Stamped(Model(), peer)
      ensures Less(remote, s) && Behind(remote, Model())
      ensures forall q :: Behind(q, old(Model())) ==> Less(q, s) && Behind(q, Model())
    {
      ObserveDominates(Model(), remote, now, peer, Stamp(lastWall, lastLogical, 0));
      forall q | Behind(q, Model())
        ensures Less(q, Stamped(Observe(Model(), remote, now), peer)) && Behind(q, Observe(Model(), remote, now))
      {
        ObserveDominates(Model(), remote, now, peer, q);
      }
      var wall := Max(Max(lastWall, remote.wall), now);
      if wall == lastWall && wall == remote.wall {
        lastLogical := Max(lastLogical, remote.logical) + 1;
      } else if wall == lastWall {
        lastLogical := lastLogical + 1;
      } else if wall == remote.wall {
        lastLogical := remote.logical + 1;
      } else {
        lastLogical := 0;
      }
      lastWall := wall;
      s := Stamp(lastWall, lastLogical, peer);
    }
  }

  class Sequence<I(==), V> {
    const peer: nat
    const hlc: Hlc
    var entries: Entries<I, V>

    function Model(): Replica<I, V>
      reads this, hlc
    {
      Replica(peer, hlc.Model(), entries)
    }

    constructor (peer: nat)
      ensures Model() == New(peer) && hlc.peer == peer && fresh(hlc)
    {
      this.peer := peer;
      hlc := new Hlc(peer);
      entries := map[];
    }

    method Edit(e: SeqCrdt.Edit<I, V>, now: int)
      requires hlc.peer == peer
      modifies this, hlc
      ensures Model() == Apply(old(Model()), e, now)
    {
      if e.InsertBetween? == (e.id in entries) { return; }
      var at := if e.InsertBetween? || e.MoveBetween? then PositionBetween(Model(), e.left, e.right)
                else Position([], 0);
      var s := hlc.TickAt(now);
      match e
      case InsertBetween(id, v, _, _) => entries := entries[id := Entry(Reg(v, s), Reg(at, s), Reg(false, s))];
      case SetValue(id, v) => entries := entries[id := entries[id].(value := Set(entries[id].value, v, s))];
      case MoveBetween(id, _, _) => entries := entries[id := entries[id].(position := Set(entries[id].position, at,
          s))];
      case Remove(id) => entries := entries[id := entries[id].(deleted := Set(entries[id].deleted, true, s))];
    }

    /** Merge: first the clock observes every entry of the other side, then entries are joined one by one. */
    method MergeFrom(other: Replica<I, V>, now: int) returns (ghost order: seq<I>)
      modifies this, hlc
      ensures Members(order) == other.entries.Keys && Model() == Merge(old(Model()), other, order, now)
    {
      order := ObserveEach(other.entries, now);
      JoinEach(other.entries);
    }

    method ObserveEach(other: Entries<I, V>, now: int) returns (ghost order: seq<I>)
      modifies hlc
      ensures Members(order) == other.Keys && hlc.Model() == ObserveAll(old(hlc.Model()), other, order, now)
    {
      var todo := other.Keys;
      order := [];
      while todo != {}
        invariant todo <= other.Keys && Members(order) == other.Keys - todo
        invariant hlc.Model() == ObserveAll(old(hlc.Model()), other, order, now)
        decreases |todo|
      {
        var k :| k in todo;
        var _ := hlc.ObserveAt(Newest(other[k]), now);
        assert (order + [k])[..|order|] == order;
        assert Members(order + [k]) == Members(order) + {k};
        order := order + [k];
        todo := todo - {k};
      }
    }

    method JoinEach(other: Entries<I, V>)
      modifies this`entries
      ensures entries == JoinEntries(old(entries), other)
    {
      var todo := other.Keys;
      ghost var was := entries;
      JoinNone(was, other);
      while todo != {}
        invariant todo <= other.Keys
        invariant Joined(entries, was, other, todo)
        decreases |todo|
      {
        var k :| k in todo;
        JoinOne(entries, was, other, todo, k);
        entries := JoinAt(entries, k, other[k]);
        todo := todo - {k};
      }
      JoinDone(entries, was, other);
    }
  }

  function JoinAt<I, V>(es: Entries<I, V>, k: I, e: Entry<V>): Entries<I, V> {
    es[k := if k in es then JoinEntry(es[k], e) else e]
  }

  /** The entries of `b` that are not in `todo` have been joined into `a`. */
  ghost predicate Joined<I, V>(now: Entries<I, V>, a: Entries<I, V>, b: Entries<I, V>, todo: set<I>) {
    && now.Keys == a.Keys + (b.Keys - todo)
    && forall k :: k in now ==> now[k] == (if k in todo || k !in b then a[k] else if k !in a then b[k]
                                                                                  else JoinEntry(a[k], b[k]))
  }

  lemma JoinNone<I, V>(a: Entries<I, V>, b: Entries<I, V>)
    ensures Joined(a, a, b, b.Keys)
  {
  }

  lemma JoinOne<I, V>(now: Entries<I, V>, a: Entries<I, V>, b: Entries<I, V>, todo: set<I>, k: I)
    requires Joined(now, a, b, todo) && k in todo && todo <= b.Keys
    ensures Joined(JoinAt(now, k, b[k]), a, b, todo - {k})
  {
  }

  lemma JoinDone<I, V>(now: Entries<I, V>, a: Entries<I, V>, b: Entries<I, V>)
    requires Joined(now, a, b, {})
    ensures now == JoinEntries(a, b)
  {
  }
}
