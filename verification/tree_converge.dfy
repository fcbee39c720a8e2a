/**
  Convergence of the structural ops: what a replica holds is a function of the set of ops it was given, whatever the
  order, the batches and the repetitions.
 */
module TreeConverge {
  import opened Basics
  import opened TreeOps

  // ---------------------------------------------------------------- the ops

  /** Create, tombstone and reorder ops as replicas mint them: counters start at one and a node is named by its op. */
  predicate Structural(op: Op) {
    && op.id.counter >= 1
    && (op.kind.CreateNode? ==> op.kind.id == op.id)
    && (op.kind.CreateNode? || op.kind.Tombstone? || op.kind.Reorder?)
  }

  ghost predicate Honest(s: set<Op>) {
    && (forall op :: op in s ==> Structural(op))
    && (forall a, b :: a in s && b in s && a.id == b.id ==> a == b)
  }

  /** The node an op waits for. */
  function Need(op: Op): OpId
    requires Structural(op)
  {
    match op.kind
    case CreateNode(_, parent, _, _) => parent
    case Tombstone(n) => n
    case Reorder(n, _) => n
  }

  function Ids(s: set<Op>): set<OpId> {
    set op | op in s :: op.id
  }

  function Born(s: set<Op>): set<OpId> {
    {ROOT} + (set op | op in s && op.kind.CreateNode? :: op.id)
  }

  // ---------------------------------------------------------------- the node table of a set of ops

  predicate Creates(op: Op, n: OpId) {
    op.kind.CreateNode? && op.id == n
  }

  predicate Moves(op: Op, n: OpId) {
    op.kind.Reorder? && op.kind.node == n
  }

  predicate Buries(op: Op, n: OpId) {
    op.kind.Tombstone? && op.kind.node == n
  }

  ghost predicate BirthIs(s: set<Op>, n: OpId, x: Node) {
    if n == ROOT then x.parent == None && x.body == Element("root") && (x.stamp == n ==> x.sort == SortKey([], 0))
    else exists op :: op in s && Creates(op, n) && x.parent == Some(op.kind.parent) && x.body == op.kind.seed
                      && (x.stamp == n ==> x.sort == op.kind.sort)
  }

  /** The position comes from the creation or from the reorder with the greatest id, if that is greater. */
  ghost predicate SortIs(s: set<Op>, n: OpId, x: Node) {
    && (x.stamp == n || exists op :: op in s && op.id == x.stamp && op.kind == Reorder(n, x.sort) && Less(n, op.id))
    && (forall op :: op in s && Moves(op, n) ==> !Less(x.stamp, op.id))
  }

  /** The tombstone with the smallest id. */
  ghost predicate TombIs(s: set<Op>, n: OpId, x: Node) {
    && (x.tomb.Some? ==> exists op :: op in s && op.id == x.tomb.value && Buries(op, n))
    && (forall op :: op in s && Buries(op, n) ==> x.tomb.Some? && !Less(op.id, x.tomb.value))
  }

  ghost predicate NodeIs(s: set<Op>, n: OpId, x: Node) {
    BirthIs(s, n, x) && SortIs(s, n, x) && TombIs(s, n, x) && x.head == n
  }

  /** `nodes` is the table that the ops of `s` describe. */
  ghost predicate IsTable(nodes: map<OpId, Node>, s: set<Op>) {
    && nodes.Keys == Born(s)
    && (forall n {:trigger nodes[n]} :: n in nodes ==> NodeIs(s, n, nodes[n]))
  }

  lemma NodeUnique(s: set<Op>, n: OpId, x: Node, y: Node)
    requires Honest(s) && NodeIs(s, n, x) && NodeIs(s, n, y)
    ensures x == y
  {
    assert x.stamp == y.stamp;
    assert x.sort == y.sort;
  }

  /** A set of ops describes one table. */
  lemma TableUnique(s: set<Op>, a: map<OpId, Node>, b: map<OpId, Node>)
    requires Honest(s) && IsTable(a, s) && IsTable(b, s)
    ensures a == b
  {
    forall n | n in a ensures a[n] == b[n] { NodeUnique(s, n, a[n], b[n]); }
  }

  ghost predicate Rooted(s: set<Op>) {
    forall op :: op in s && Structural(op) ==> Need(op) in Born(s)
  }

  /** The ops that explain a node still explain it among more ops. */
  lemma WitnessesStay(s: set<Op>, s': set<Op>, n: OpId, x: Node)
    requires s <= s' && NodeIs(s, n, x)
    ensures BirthIs(s', n, x)
    ensures x.stamp == n || exists op :: op in s' && op.id == x.stamp && op.kind == Reorder(n, x.sort) && Less(n, op.id)
    ensures x.tomb.Some? ==> exists op :: op in s' && op.id == x.tomb.value && Buries(op, n)
  {
    if n != ROOT {
      var c :| c in s && Creates(c, n) && x.parent == Some(c.kind.parent) && x.body == c.kind.seed
          && (x.stamp == n ==> x.sort == c.kind.sort);
      assert c in s';
    }
    if x.stamp != n {
      var m :| m in s && m.id == x.stamp && m.kind == Reorder(n, x.sort) && Less(n, m.id);
      assert m in s';
    }
    if x.tomb.Some? {
      var t :| t in s && t.id == x.tomb.value && Buries(t, n);
      assert t in s';
    }
  }

  lemma MovedIs(s: set<Op>, n: OpId, x: Node, op: Op)
    requires Honest(s + {op}) && NodeIs(s, n, x) && Moves(op, n)
    ensures NodeIs(s + {op}, n, Moved(x, op.kind.sort, op.id))
  {
    var s', y := s + {op}, Moved(x, op.kind.sort, op.id);
    assert op in s';
    WitnessesStay(s, s', n, x);
  }

  lemma BuriedIs(s: set<Op>, n: OpId, x: Node, op: Op)
    requires Honest(s + {op}) && NodeIs(s, n, x) && Buries(op, n)
    ensures NodeIs(s + {op}, n, Buried(x, op.id))
  {
    var s' := s + {op};
    assert op in s';
    WitnessesStay(s, s', n, x);
  }

  /** An op about another node changes nothing here. */
  lemma OtherIs(s: set<Op>, n: OpId, x: Node, op: Op)
    requires NodeIs(s, n, x) && !Moves(op, n) && !Buries(op, n)
    ensures NodeIs(s + {op}, n, x)
  {
    var s' := s + {op};
    WitnessesStay(s, s', n, x);
  }

  lemma BornMore(s: set<Op>, op: Op)
    ensures Born(s + {op}) == Born(s) + (if op.kind.CreateNode? then {op.id} else {})
    ensures op in s + {op}
  {
  }

  lemma FreshId(s: set<Op>, op: Op)
    requires op.id !in Ids(s) && op.id.counter >= 1
    ensures op.id !in Born(s)
  {
  }

  lemma RootedMore(s: set<Op>, op: Op)
    requires Rooted(s) && Structural(op) && Need(op) in Born(s)
    ensures Rooted(s + {op})
  {
    BornMore(s, op);
  }

  /** Applying a ready op adds it to the described set. */
  lemma ApplyIs(nodes: map<OpId, Node>, s: set<Op>, op: Op)
    requires Honest(s + {op}) && Rooted(s) && IsTable(nodes, s) && op.id !in Ids(s) && Structural(op)
             && Need(op) in nodes
    ensures IsTable(ApplyOp(nodes, op), s + {op})
  {
    var s', nodes' := s + {op}, ApplyOp(nodes, op);
    BornMore(s, op);
    FreshId(s, op);
    forall n | n in nodes' ensures NodeIs(s', n, nodes'[n]) {
      if Creates(op, n) {
        NewbornIs(s, op);
      } else if Moves(op, n) {
        MovedIs(s, n, nodes[n], op);
      } else if Buries(op, n) {
        BuriedIs(s, n, nodes[n], op);
      } else {
        OtherIs(s, n, nodes[n], op);
      }
    }
  }

  lemma NewbornIs(s: set<Op>, op: Op)
    requires Honest(s + {op}) && Rooted(s) && op.id !in Ids(s) && op.kind.CreateNode? && Structural(op)
    ensures NodeIs(s + {op}, op.id, Node(Some(op.kind.parent), op.kind.sort, op.id, op.kind.seed, None, op.id))
  {
    var s' := s + {op};
    assert op in s';
    forall o | o in s ensures !Moves(o, op.id) && !Buries(o, op.id) {
      assert o in s' && Structural(o);
      assert Need(o) in Born(s);
      assert op.id !in Born(s);
    }
  }

  // ---------------------------------------------------------------- logs

  /** Every op of the log found the node it needs. */
  ghost predicate Grounded(log: seq<Op>) {
    forall i {:trigger log[i]} :: 0 <= i < |log| && Structural(log[i]) ==> Need(log[i]) in Born(Members(log[..i]))
  }

  /** The log holds every op of `s` whose node exists. */
  ghost predicate Saturated(s: set<Op>, log: seq<Op>) {
    && Members(log) <= s && Grounded(log)
    && (forall op {:trigger Structural(op)} :: op in s && Structural(op) && Need(op) in Born(Members(log)) ==>
        op in log)
  }

  lemma BornMonotone(a: set<Op>, b: set<Op>)
    requires a <= b
    ensures Born(a) <= Born(b)
  {
  }

  /** A grounded log is contained in any log that is saturated for its ops. */
  lemma {:induction false} GroundedIsHeld(s: set<Op>, a: seq<Op>, b: seq<Op>, i: nat)
    requires Honest(s) && Members(a) <= s && Grounded(a) && Saturated(s, b) && i <= |a|
    ensures Members(a[..i]) <= Members(b)
  {
    if i > 0 {
      GroundedIsHeld(s, a, b, i - 1);
      BornMonotone(Members(a[..i - 1]), Members(b));
      var op := a[i - 1];
      assert op in Members(a);
      assert a[..i] == a[..i - 1] + [op];
      assert Structural(op) && Need(op) in Born(Members(b));
    }
  }

  /** There is one saturated set of ops. */
  lemma SaturatedUnique(s: set<Op>, a: seq<Op>, b: seq<Op>)
    requires Honest(s) && Saturated(s, a) && Saturated(s, b)
    ensures Members(a) == Members(b)
  {
    GroundedIsHeld(s, a, b, |a|);
    GroundedIsHeld(s, b, a, |b|);
    assert a[..|a|] == a && b[..|b|] == b;
  }
}
