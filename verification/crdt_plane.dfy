/** The keyed CRDT plane: last writer per node, and families of keys that materialize on ingest. */
module CrdtPlane {
  import opened Basics
  import opened SeqCrdt

  const FAMILY_BASE: nat := 0x1_0000_0000_0000

  datatype Op<S> = Op(node: nat, key: Option<string>, stamp: Stamp, state: S)

  /** Keys are paths; the namespace is the part before the first slash. */
  function Namespace(key: string): string {
    if key == [] || key[0] == '/' then [] else [key[0]] + Namespace(key[1..])
  }

  predicate IsFamily<S>(families: set<string>, op: Op<S>) {
    op.key.Some? && Namespace(op.key.value) in families
  }

  datatype Plane<S> = Plane(families: set<string>, winning: map<nat, Op<S>>, log: set<(nat, Stamp)>, ops: seq<Op<S>>,
                            keyToNode: map<string, nat>, members: map<string, seq<string>>, epoch: nat, next: nat)

  function NewPlane<S>(families: set<string>): Plane<S> {
    Plane(families, map[], {}, [], map[], map n | n in families :: [], 0, FAMILY_BASE)
  }

  function UsedFrom<S>(winning: map<nat, Op<S>>, next: nat): set<nat> {
    set x | x in winning && x >= next
  }

  /** mintFamilyNode: the first id from `next` on that is not in use. */
  function Unused<S>(winning: map<nat, Op<S>>, next: nat): (n: nat)
    ensures n >= next && n !in winning
    decreases |UsedFrom(winning, next)|
  {
    if next in winning then (FewerUsed(winning, next); Unused(winning, next + 1)) else next
  }

  lemma FewerUsed<S>(winning: map<nat, Op<S>>, next: nat)
    requires next in winning
    ensures |UsedFrom(winning, next + 1)| < |UsedFrom(winning, next)|
  {
    assert next in UsedFrom(winning, next) && next !in UsedFrom(winning, next + 1);
    ProperSubset(UsedFrom(winning, next + 1), UsedFrom(winning, next));
  }

  lemma ProperSubset<T>(a: set<T>, b: set<T>)
    requires a < b
    ensures |a| < |b|
  {
    var x :| x in b && x !in a;
    assert a <= b - {x};
    Cardinality(a, b - {x});
  }

  lemma {:induction false} Cardinality<T>(a: set<T>, b: set<T>)
    requires a <= b
    ensures |a| <= |b|
    decreases |a|
  {
    if a != {} {
      var x :| x in a;
      Cardinality(a - {x}, b - {x});
    }
  }

  /** recordFamilyMember. */
  function Recorded(members: map<string, seq<string>>, ns: string, key: string): map<string, seq<string>> {
    var now := if ns in members then members[ns] else [];
    if key in now then members else members[ns := now + [key]]
  }

  /** ingestFamilyOp and materializeFamilyEntry. */
  function IngestFamily<S>(p: Plane<S>, op: Op<S>): Plane<S>
    requires op.key.Some?
  {
    var key := op.key.value;
    if key in p.keyToNode then
      var node := p.keyToNode[key];
      if node in p.winning && Less(p.winning[node].stamp, op.stamp)
          then p.(winning := p.winning[node := Op(node, p.winning[node].key, op.stamp, op.state)])
      else p
    else
      var node := Unused(p.winning, p.next);
      p.(members := Recorded(p.members, Namespace(key), key), keyToNode := p.keyToNode[key := node],
         winning := p.winning[node := Op(node, Some(key), op.stamp, op.state)], epoch := p.epoch + 1, next := node + 1)
  }

  /** The base plane: greatest stamp per node. */
  function IngestNode<S>(p: Plane<S>, op: Op<S>): Plane<S> {
    var p1 := if op.key.Some? && op.key.value !in p.keyToNode then p.(keyToNode := p.keyToNode[op.key.value := op.node])
              else p;
    if op.node !in p.winning || Less(p.winning[op.node].stamp, op.stamp) then p1.(winning := p.winning[op.node := op])
    else p1
  }

  function Routed<S>(p: Plane<S>, op: Op<S>): Plane<S> {
    if IsFamily(p.families, op) then IngestFamily(p, op) else IngestNode(p, op)
  }

  /** One op of ingestOps. */
  function IngestOne<S>(p: Plane<S>, op: Op<S>): Plane<S> {
    if (op.node, op.stamp) in p.log then p
    else Routed(p.(log := p.log + {(op.node, op.stamp)}, ops := p.ops + [op]), op)
  }

  function Ingest<S>(p: Plane<S>, ops: seq<Op<S>>): Plane<S> {
    if ops == [] then p else IngestOne(Ingest(p, ops[..|ops| - 1]), ops[|ops| - 1])
  }

  // ---------------------------------------------------------------- what a set of ops means

  /** Stamps are minted once, application nodes lie below the family range. */
  ghost predicate Honest<S>(families: set<string>, a: set<Op<S>>) {
    && (forall x, y :: x in a && y in a && x.stamp == y.stamp ==> x == y)
    && (forall x :: x in a && !IsFamily(families, x) ==> x.node < FAMILY_BASE)
  }

  predicate ForNode<S>(families: set<string>, op: Op<S>, n: nat) {
    !IsFamily(families, op) && op.node == n
  }

  predicate ForKey<S>(families: set<string>, op: Op<S>, k: string) {
    IsFamily(families, op) && op.key == Some(k)
  }

  ghost function FamilyKeys<S>(families: set<string>, a: set<Op<S>>): set<string> {
    set op | op in a && IsFamily(families, op) :: op.key.value
  }

  /** Below the family range, each node holds the greatest op for it. */
  ghost predicate NodesAre<S>(p: Plane<S>, a: set<Op<S>>) {
    && (forall n :: n in p.winning && n < FAMILY_BASE ==> p.winning[n] in a && ForNode(p.families, p.winning[n], n))
    && (forall op {:trigger HeldAt(p, op)} :: op in a && !IsFamily(p.families, op) ==> HeldAt(p, op))
  }

  predicate HeldAt<S>(p: Plane<S>, op: Op<S>) {
    op.node in p.winning && !Less(p.winning[op.node].stamp, op.stamp)
  }

  predicate Explains<S(==)>(op: Op<S>, w: Op<S>) {
    op.stamp == w.stamp && op.state == w.state
  }

  /** Each family key has a node of its own, which holds the state and the stamp of the greatest op for the key. */
  ghost predicate KeyIs<S>(p: Plane<S>, a: set<Op<S>>, k: string)
    requires k in p.keyToNode
  {
    var n := p.keyToNode[k];
    && n >= FAMILY_BASE && n < p.next && n in p.winning
    && (exists op :: op in a && ForKey(p.families, op, k) && Explains(op, p.winning[n]))
    && (forall op :: op in a && ForKey(p.families, op, k) ==> !Less(p.winning[n].stamp, op.stamp))
  }

  ghost predicate FamiliesAre<S>(p: Plane<S>, a: set<Op<S>>) {
    && (forall k :: Namespace(k) in p.families ==> (k in p.keyToNode <==> k in FamilyKeys(p.families, a)))
    && (forall k {:trigger KeyIs(p, a, k)} :: k in p.keyToNode && Namespace(k) in p.families ==> KeyIs(p, a, k))
    && (forall k, l {:trigger p.keyToNode[k], p.keyToNode[l]} ::
        k in p.keyToNode && l in p.keyToNode && k != l && Namespace(k) in p.families && Namespace(l) in p.families ==>
          p.keyToNode[k] != p.keyToNode[l])
    && (forall n :: n in p.winning && n >= FAMILY_BASE ==> n < p.next)
    && p.next >= FAMILY_BASE
  }

  ghost predicate MembersAre<S>(p: Plane<S>, a: set<Op<S>>) {
    && p.members.Keys == p.families
    && (forall ns {:trigger p.members[ns]} :: ns in p.families ==>
        Members(p.members[ns]) == InNamespace(FamilyKeys(p.families, a), ns))
    && p.epoch == |FamilyKeys(p.families, a)|
  }

  function InNamespace(keys: set<string>, ns: string): set<string> {
    set k | k in keys && Namespace(k) == ns
  }

  /** The dedup log. */
  ghost predicate LogIs<S>(p: Plane<S>, a: set<Op<S>>) {
    Members(p.ops) == a && forall x :: x in p.log <==> exists op :: op in a && x == (op.node, op.stamp)
  }

  ghost predicate PlaneIs<S>(p: Plane<S>, a: set<Op<S>>) {
    Honest(p.families, a) && LogIs(p, a) && BodyIs(p, a)
  }

  // ---------------------------------------------------------------- one op

  lemma KeysMore<S>(families: set<string>, a: set<Op<S>>, op: Op<S>)
    ensures FamilyKeys(families, a + {op}) == FamilyKeys(families, a)
            + (if IsFamily(families, op) then {op.key.value} else {})
  {
  }

  lemma NodeStepNodes<S>(p: Plane<S>, a: set<Op<S>>, op: Op<S>)
    requires NodesAre(p, a) && Honest(p.families, a + {op}) && !IsFamily(p.families, op)
    ensures NodesAre(IngestNode(p, op), a + {op})
  {
    var p', a' := IngestNode(p, op), a + {op};
    assert op in a';
    forall x | x in a' && !IsFamily(p.families, x) ensures HeldAt(p', x) {
      if x in a { assert HeldAt(p, x); }
    }
  }

  lemma NodeStepFamilies<S>(p: Plane<S>, a: set<Op<S>>, op: Op<S>)
    requires FamiliesAre(p, a) && Honest(p.families, a + {op}) && !IsFamily(p.families, op)
    ensures FamiliesAre(IngestNode(p, op), a + {op})
  {
    var p', a' := IngestNode(p, op), a + {op};
    KeysMore(p.families, a, op);
    assert op in a' && op.node < FAMILY_BASE;
    forall k | k in p'.keyToNode && Namespace(k) in p.families ensures KeyIs(p', a', k) {
      assert KeyIs(p, a, k);
      KeyStays(p, p', a, a', k);
    }
  }

  /** A key whose node is left alone keeps its meaning under ops for others. */
  lemma KeyStays<S>(p: Plane<S>, p': Plane<S>, a: set<Op<S>>, a': set<Op<S>>, k: string)
    requires k in p.keyToNode && KeyIs(p, a, k) && a <= a' && p'.families == p.families && p'.next >= p.next
    requires k in p'.keyToNode && p'.keyToNode[k] == p.keyToNode[k] && p.keyToNode[k] in p'.winning
             && p'.winning[p.keyToNode[k]] == p.winning[p.keyToNode[k]]
    requires forall op :: op in a' && op !in a ==> !ForKey(p.families, op, k)
    ensures KeyIs(p', a', k)
  {
    var x :| x in a && ForKey(p.families, x, k) && Explains(x, p.winning[p.keyToNode[k]]);
    assert x in a';
  }

  lemma FamilyStepNodes<S>(p: Plane<S>, a: set<Op<S>>, op: Op<S>)
    requires NodesAre(p, a) && FamiliesAre(p, a) && IsFamily(p.families, op)
    ensures NodesAre(IngestFamily(p, op), a + {op})
  {
    var p', a' := IngestFamily(p, op), a + {op};
    var k := op.key.value;
    if k in p.keyToNode { assert KeyIs(p, a, k); }
    forall x | x in a' && !IsFamily(p.families, x) ensures HeldAt(p', x) { assert HeldAt(p, x); }
    forall n | n in p'.winning && n < FAMILY_BASE ensures p'.winning[n] in a' && ForNode(p.families, p'.winning[n], n) {
      assert p.winning[n] in a;
    }
  }

  /** The op's own key. */
  lemma FamilyStepKey<S>(p: Plane<S>, a: set<Op<S>>, op: Op<S>)
    requires FamiliesAre(p, a) && IsFamily(p.families, op)
    ensures op.key.value in IngestFamily(p, op).keyToNode && KeyIs(IngestFamily(p, op), a + {op}, op.key.value)
  {
    var p', a' := IngestFamily(p, op), a + {op};
    var k := op.key.value;
    assert op in a';
    if k in p.keyToNode {
      assert KeyIs(p, a, k);
      var n := p.keyToNode[k];
      if !Less(p.winning[n].stamp, op.stamp) {
        var x :| x in a && ForKey(p.families, x, k) && Explains(x, p.winning[n]);
        assert x in a';
      } else {
        assert Explains(op, p'.winning[n]);
      }
    } else {
      var n := p'.keyToNode[k];
      assert Explains(op, p'.winning[n]);
      assert k !in FamilyKeys(p.families, a);
      assert forall x :: x in a' && ForKey(p.families, x, k) ==> x == op;
      Irreflexive(op.stamp);
    }
  }

  lemma Irreflexive(s: Stamp)
    ensures !Less(s, s)
  {
  }

  lemma FamilyStepOthers<S>(p: Plane<S>, a: set<Op<S>>, op: Op<S>, k: string)
    requires FamiliesAre(p, a) && IsFamily(p.families, op) && k in p.keyToNode && Namespace(k) in p.families
             && k != op.key.value
    ensures k in IngestFamily(p, op).keyToNode && KeyIs(IngestFamily(p, op), a + {op}, k)
  {
    assert KeyIs(p, a, k);
    if op.key.value in p.keyToNode { assert KeyIs(p, a, op.key.value); }
    KeyStays(p, IngestFamily(p, op), a, a + {op}, k);
  }

  lemma FamilyStepFamilies<S>(p: Plane<S>, a: set<Op<S>>, op: Op<S>)
    requires FamiliesAre(p, a) && IsFamily(p.families, op)
    ensures FamiliesAre(IngestFamily(p, op), a + {op})
  {
    var p', a' := IngestFamily(p, op), a + {op};
    KeysMore(p.families, a, op);
    forall k | k in p'.keyToNode && Namespace(k) in p.families ensures KeyIs(p', a', k) {
      if k == op.key.value { FamilyStepKey(p, a, op); } else { FamilyStepOthers(p, a, op, k); }
    }
    if op.key.value in p.keyToNode { assert KeyIs(p, a, op.key.value); }
    forall k, l | k in p'.keyToNode && l in p'.keyToNode && k != l && Namespace(k) in p.families
        && Namespace(l) in p.families
      ensures p'.keyToNode[k] != p'.keyToNode[l]
    {
      if k in p.keyToNode { assert KeyIs(p, a, k); }
      if l in p.keyToNode { assert KeyIs(p, a, l); }
    }
  }

  lemma FamilyStepMembers<S>(p: Plane<S>, a: set<Op<S>>, op: Op<S>)
    requires FamiliesAre(p, a) && MembersAre(p, a) && IsFamily(p.families, op)
    ensures MembersAre(IngestFamily(p, op), a + {op})
  {
    KeysMore(p.families, a, op);
    if op.key.value in p.keyToNode {
      assert FamilyKeys(p.families, a + {op}) == FamilyKeys(p.families, a);
    } else {
      FreshKey(p, a, op.key.value);
      NewMember(p, p.members, FamilyKeys(p.families, a), op.key.value);
    }
  }

  lemma FreshKey<S>(p: Plane<S>, a: set<Op<S>>, k: string)
    requires FamiliesAre(p, a) && Namespace(k) in p.families && k !in p.keyToNode
    ensures k !in FamilyKeys(p.families, a)
  {
  }

  lemma NewMember<S>(p: Plane<S>, members: map<string, seq<string>>, keys: set<string>, k: string)
    requires Namespace(k) in p.families && k !in keys && members.Keys == p.families
    requires forall ns {:trigger members[ns]} :: ns in p.families ==> Members(members[ns]) == InNamespace(keys, ns)
    ensures var m := Recorded(members, Namespace(k), k);
            && m.Keys == p.families && |keys + {k}| == |keys| + 1
            && forall ns {:trigger m[ns]} :: ns in p.families ==> Members(m[ns]) == InNamespace(keys + {k}, ns)
  {
    var m := Recorded(members, Namespace(k), k);
    assert k !in Members(members[Namespace(k)]);
    forall ns | ns in p.families ensures Members(m[ns]) == InNamespace(keys + {k}, ns) {
      if ns == Namespace(k) {
        assert Members(members[ns] + [k]) == Members(members[ns]) + {k};
        assert InNamespace(keys + {k}, ns) == InNamespace(keys, ns) + {k};
      } else {
        assert InNamespace(keys + {k}, ns) == InNamespace(keys, ns);
      }
    }
  }

  /** A repeated op is one that was applied. */
  lemma RepeatIs<S>(p: Plane<S>, a: set<Op<S>>, op: Op<S>)
    requires PlaneIs(p, a) && Honest(p.families, a + {op}) && (op.node, op.stamp) in p.log
    ensures a + {op} == a
  {
    var x :| x in a && (op.node, op.stamp) == (x.node, x.stamp);
    assert x in a + {op} && op in a + {op};
  }

  lemma IngestOneIs<S>(p: Plane<S>, a: set<Op<S>>, op: Op<S>)
    requires PlaneIs(p, a) && Honest(p.families, a + {op})
    ensures PlaneIs(IngestOne(p, op), a + {op})
  {
    if (op.node, op.stamp) in p.log {
      RepeatIs(p, a, op);
    } else {
      var p1 := p.(log := p.log + {(op.node, op.stamp)}, ops := p.ops + [op]);
      LogMore(p, p1, a, op);
      SameBody(p, p1, a);
      RoutedIs(p1, a, op);
      SameLog(p1, IngestOne(p, op), a + {op});
    }
  }

  lemma SameLog<S>(p: Plane<S>, q: Plane<S>, a: set<Op<S>>)
    requires LogIs(p, a) && q.log == p.log && q.ops == p.ops
    ensures LogIs(q, a)
  {
  }

  ghost predicate BodyIs<S>(p: Plane<S>, a: set<Op<S>>) {
    NodesAre(p, a) && FamiliesAre(p, a) && MembersAre(p, a)
  }

  lemma RoutedIs<S>(p: Plane<S>, a: set<Op<S>>, op: Op<S>)
    requires BodyIs(p, a) && Honest(p.families, a + {op})
    ensures BodyIs(Routed(p, op), a + {op}) && Routed(p, op).families == p.families && Routed(p, op).log == p.log
            && Routed(p, op).ops == p.ops
  {
    if IsFamily(p.families, op) {
      FamilyStepNodes(p, a, op);
      FamilyStepFamilies(p, a, op);
      FamilyStepMembers(p, a, op);
    } else {
      NodeStepNodes(p, a, op);
      NodeStepFamilies(p, a, op);
      NodeStepMembers(p, a, op);
    }
  }

  lemma NodeStepMembers<S>(p: Plane<S>, a: set<Op<S>>, op: Op<S>)
    requires MembersAre(p, a) && !IsFamily(p.families, op)
    ensures MembersAre(IngestNode(p, op), a + {op})
  {
    KeysMore(p.families, a, op);
    assert FamilyKeys(p.families, a + {op}) == FamilyKeys(p.families, a);
  }

  lemma LogMore<S>(p: Plane<S>, p1: Plane<S>, a: set<Op<S>>, op: Op<S>)
    requires LogIs(p, a) && p1 == p.(log := p.log + {(op.node, op.stamp)}, ops := p.ops + [op])
    ensures LogIs(p1, a + {op})
  {
    assert Members(p1.ops) == Members(p.ops) + {op};
    forall x | x in p1.log ensures exists o :: o in a + {op} && x == (o.node, o.stamp) {
      if x in p.log {
        var o :| o in a && x == (o.node, o.stamp);
        assert o in a + {op};
      } else {
        assert op in a + {op};
      }
    }
  }

  lemma SameBody<S>(p: Plane<S>, p1: Plane<S>, a: set<Op<S>>)
    requires BodyIs(p, a) && p1 == p.(log := p1.log, ops := p1.ops)
    ensures BodyIs(p1, a)
  {
    forall x | x in a && !IsFamily(p.families, x) ensures HeldAt(p1, x) { assert HeldAt(p, x); }
    forall k | k in p1.keyToNode && Namespace(k) in p.families ensures KeyIs(p1, a, k) {
      assert KeyIs(p, a, k);
      KeyStays(p, p1, a, a, k);
    }
  }

  lemma {:induction false} IngestIs<S>(families: set<string>, ops: seq<Op<S>>)
    requires Honest(families, Members(ops))
    ensures Ingest(NewPlane(families), ops).families == families
            && PlaneIs(Ingest(NewPlane(families), ops), Members(ops))
    decreases |ops|
  {
    if ops == [] {
      NewPlaneIs<S>(families);
    } else {
      var before, last := ops[..|ops| - 1], ops[|ops| - 1];
      assert ops == before + [last];
      assert Members(ops) == Members(before) + {last};
      IngestIs(families, before);
      IngestOneIs(Ingest(NewPlane(families), before), Members(before), last);
    }
  }

  lemma NewPlaneIs<S>(families: set<string>)
    ensures PlaneIs(NewPlane<S>(families), {})
  {
    var p := NewPlane<S>(families);
    var none: set<Op<S>> := {};
    assert FamilyKeys(families, none) == {};
    forall ns | ns in families ensures Members(p.members[ns]) == InNamespace({}, ns) {}
  }

  // ---------------------------------------------------------------- convergence

  lemma Total(a: Stamp, b: Stamp)
    ensures Less(a, b) || a == b || Less(b, a)
  {
  }

  lemma SameNode<S>(p: Plane<S>, q: Plane<S>, a: set<Op<S>>, n: nat)
    requires PlaneIs(p, a) && PlaneIs(q, a) && p.families == q.families && n < FAMILY_BASE && n in p.winning
    ensures n in q.winning && q.winning[n] == p.winning[n]
  {
    assert p.winning[n] in a && HeldAt(q, p.winning[n]);
    assert q.winning[n] in a && HeldAt(p, q.winning[n]);
    Total(p.winning[n].stamp, q.winning[n].stamp);
  }

  lemma SameKey<S>(p: Plane<S>, q: Plane<S>, a: set<Op<S>>, k: string)
    requires PlaneIs(p, a) && PlaneIs(q, a) && p.families == q.families && Namespace(k) in p.families
             && k in p.keyToNode
    ensures k in q.keyToNode && p.keyToNode[k] in p.winning && q.keyToNode[k] in q.winning
    ensures Explains(p.winning[p.keyToNode[k]], q.winning[q.keyToNode[k]])
  {
    assert k in FamilyKeys(p.families, a);
    assert KeyIs(p, a, k) && KeyIs(q, a, k);
    var x :| x in a && ForKey(p.families, x, k) && Explains(x, p.winning[p.keyToNode[k]]);
    var y :| y in a && ForKey(p.families, y, k) && Explains(y, q.winning[q.keyToNode[k]]);
    Total(x.stamp, y.stamp);
  }

  /** The same winner for every application node. */
  ghost predicate SameWinners<S>(p: Plane<S>, q: Plane<S>) {
    forall n :: n < FAMILY_BASE ==>
        (n in p.winning <==> n in q.winning) && (n in p.winning ==> p.winning[n] == q.winning[n])
  }

  predicate SameAt<S(==)>(p: Plane<S>, q: Plane<S>, k: string) {
    && k in q.keyToNode && k in p.keyToNode && p.keyToNode[k] in p.winning && q.keyToNode[k] in q.winning
    && Explains(p.winning[p.keyToNode[k]], q.winning[q.keyToNode[k]])
  }

  /** The same state and stamp under every family key. */
  ghost predicate SameFamilies<S>(p: Plane<S>, q: Plane<S>) {
    && (forall k :: Namespace(k) in p.families ==> (k in p.keyToNode <==> k in q.keyToNode))
    && (forall k :: Namespace(k) in p.families && k in p.keyToNode ==> SameAt(p, q, k))
  }

  /** The same members in every family, and the same epoch. */
  ghost predicate SameMembers<S>(p: Plane<S>, q: Plane<S>) {
    && p.members.Keys == q.members.Keys && p.epoch == q.epoch
    && (forall ns :: ns in p.members ==> Members(p.members[ns]) == Members(q.members[ns]))
  }

  lemma WinnersAgree<S>(p: Plane<S>, q: Plane<S>, a: set<Op<S>>)
    requires PlaneIs(p, a) && PlaneIs(q, a) && p.families == q.families
    ensures SameWinners(p, q)
  {
    forall n | n < FAMILY_BASE && n in p.winning ensures n in q.winning && q.winning[n] == p.winning[n] {
      SameNode(p, q, a, n);
    }
    forall n | n < FAMILY_BASE && n in q.winning ensures n in p.winning { SameNode(q, p, a, n); }
  }

  lemma FamiliesAgree<S>(p: Plane<S>, q: Plane<S>, a: set<Op<S>>)
    requires PlaneIs(p, a) && PlaneIs(q, a) && p.families == q.families
    ensures SameFamilies(p, q)
  {
    forall k | Namespace(k) in p.families && k in p.keyToNode ensures SameAt(p, q, k) { SameKey(p, q, a, k); }
  }

  lemma MembersAgree<S>(p: Plane<S>, q: Plane<S>, a: set<Op<S>>)
    requires MembersAre(p, a) && MembersAre(q, a) && p.families == q.families
    ensures SameMembers(p, q)
  {
    forall ns | ns in p.families ensures Members(p.members[ns]) == Members(q.members[ns]) {}
  }

  /**
    Convergence.  Planes with the same families, given the same set of ops in any order and grouping and any number of
    times, hold the same winner for every application node, the same state and stamp under every family key, the same
    members in every family, and the same membership epoch.
   */
  lemma PlanesConverge<S>(families: set<string>, a: seq<Op<S>>, b: seq<Op<S>>)
    requires Members(a) == Members(b) && Honest(families, Members(a))
    ensures SameWinners(Ingest(NewPlane(families), a), Ingest(NewPlane(families), b))
    ensures SameFamilies(Ingest(NewPlane(families), a), Ingest(NewPlane(families), b))
    ensures SameMembers(Ingest(NewPlane(families), a), Ingest(NewPlane(families), b))
  {
    var p, q := Ingest(NewPlane(families), a), Ingest(NewPlane(families), b);
    IngestIs(families, a);
    IngestIs(families, b);
    WinnersAgree(p, q, Members(a));
    FamiliesAgree(p, q, Members(a));
    MembersAgree(p, q, Members(a));
  }

  // ---------------------------------------------------------------- the object

  class PlaneState<S> {
    const families: set<string>
    var winning: map<nat, Op<S>>
    var log: set<(nat, Stamp)>
    var ops: seq<Op<S>>
    var keyToNode: map<string, nat>
    var members: map<string, seq<string>>
    var epoch: nat
    var next: nat

    function Model(): Plane<S>
      reads this
    {
      Plane(families, winning, log, ops, keyToNode, members, epoch, next)
    }

    constructor (families: set<string>)
      ensures Model() == NewPlane(families)
    {
      this.families := families;
      winning, log, ops, keyToNode, epoch, next := map[], {}, [], map[], 0, FAMILY_BASE;
      members := map n | n in families :: [];
    }

    /** mintFamilyNode. */
    method Mint() returns (node: nat)
      modifies this`next
      ensures node == Unused(winning, old(next)) && next == node + 1
    {
      node := next;
      while node in winning
        invariant Unused(winning, node) == Unused(winning, old(next))
        decreases |UsedFrom(winning, node)|
      {
        FewerUsed(winning, node);
        node := node + 1;
      }
      next := node + 1;
    }

    method IngestKeyed(op: Op<S>)
      requires op.key.Some?
      modifies this
      ensures Model() == IngestFamily(old(Model()), op)
    {
      var key := op.key.value;
      if key in keyToNode {
        var node := keyToNode[key];
        if node in winning && Less(winning[node].stamp, op.stamp) {
          winning := winning[node := Op(node, winning[node].key, op.stamp, op.state)];
        }
        return;
      }
      members := Recorded(members, Namespace(key), key);
      var node := Mint();
      keyToNode := keyToNode[key := node];
      winning := winning[node := Op(node, Some(key), op.stamp, op.state)];
      epoch := epoch + 1;
    }

    method IngestOps(batch: seq<Op<S>>) returns (applied: nat)
      modifies this
      ensures Model() == Ingest(old(Model()), batch)
      ensures applied == |ops| - |old(ops)|
    {
      applied := 0;
      for i := 0 to |batch|
        invariant Model() == Ingest(old(Model()), batch[..i]) && applied == |ops| - |old(ops)|
      {
        var op := batch[i];
        assert batch[..i + 1][..i] == batch[..i];
        if (op.node, op.stamp) !in log {
          log := log + {(op.node, op.stamp)};
          ops := ops + [op];
          applied := applied + 1;
          if IsFamily(families, op) {
            IngestKeyed(op);
          } else {
            if op.key.Some? && op.key.value !in keyToNode { keyToNode := keyToNode[op.key.value := op.node]; }
            if op.node !in winning || Less(winning[op.node].stamp, op.stamp) { winning := winning[op.node := op]; }
          }
        }
      }
      assert batch[..|batch|] == batch;
    }
  }
}
