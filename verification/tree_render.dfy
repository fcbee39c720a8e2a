/** Rendering: the live children of a node in key order, and the text of a document. */
module TreeRender {
  import opened Basics
  import opened TreeOps
  import opened TreeKeys

  /** TreeSortKey.compare, as a strict order. */
  predicate KeyLess(a: SortKey, b: SortKey) {
    Before(a.frac, b.frac) || (a.frac == b.frac && a.peer < b.peer)
  }

  lemma KeyLessTrans(a: SortKey, b: SortKey, c: SortKey)
    requires KeyLess(a, b) && KeyLess(b, c)
    ensures KeyLess(a, c)
  {
    if Before(a.frac, b.frac) && Before(b.frac, c.frac) { BeforeTrans(a.frac, b.frac, c.frac); }
  }

  lemma KeyLessTotal(a: SortKey, b: SortKey)
    ensures KeyLess(a, b) || a == b || KeyLess(b, a)
    ensures !(KeyLess(a, b) && KeyLess(b, a)) && !KeyLess(a, a)
  {
    BeforeTotal(a.frac, b.frac);
    BeforeTotal(a.frac, a.frac);
  }

  // ---------------------------------------------------------------- order

  type Nodes = map<OpId, Node>

  predicate NodeLess(nodes: Nodes, a: OpId, b: OpId) {
    a in nodes && b in nodes && KeyLess(nodes[a].sort, nodes[b].sort)
  }

  ghost function Least(nodes: Nodes, s: set<OpId>): (m: OpId)
    requires s != {}
    ensures m in s && forall x :: x in s ==> !NodeLess(nodes, x, m)
    decreases |s|
  {
    var x :| x in s;
    if s == {x} then (assert !NodeLess(nodes, x, x) by { if x in nodes { KeyLessTotal(nodes[x].sort, nodes[x].sort);
        } } x)
    else
      var m := Least(nodes, s - {x});
      LeastOf(nodes, s, x, m);
      if NodeLess(nodes, x, m) then x else m
  }

  lemma LeastOf(nodes: Nodes, s: set<OpId>, x: OpId, m: OpId)
    requires x in s && m in s && forall y :: y in s - {x} ==> !NodeLess(nodes, y, m)
    ensures NodeLess(nodes, x, m) ==> forall y :: y in s ==> !NodeLess(nodes, y, x)
    ensures !NodeLess(nodes, x, m) ==> forall y :: y in s ==> !NodeLess(nodes, y, m)
  {
    if NodeLess(nodes, x, m) {
      forall y | y in s ensures !NodeLess(nodes, y, x) {
        KeyLessTotal(nodes[x].sort, nodes[x].sort);
        if y != x && NodeLess(nodes, y, x) {
          assert y in s - {x};
          KeyLessTrans(nodes[y].sort, nodes[x].sort, nodes[m].sort);
        }
      }
    }
  }

  /** The ids of `s` by ascending key. */
  ghost function Ordered(nodes: Nodes, s: set<OpId>): (order: seq<OpId>)
    ensures Members(order) == s
    decreases |s|
  {
    if s == {} then []
    else
      var m := Least(nodes, s);
      var rest := Ordered(nodes, s - {m});
      assert Members([m] + rest) == {m} + Members(rest);
      [m] + rest
  }

  ghost predicate Ascending(nodes: Nodes, order: seq<OpId>) {
    forall i, j :: 0 <= i < j < |order| ==> NodeLess(nodes, order[i], order[j])
  }

  ghost predicate DistinctKeys(nodes: Nodes, s: set<OpId>) {
    && s <= nodes.Keys
    && (forall a, b :: a in s && b in s && a != b ==> nodes[a].sort != nodes[b].sort)
  }

  lemma {:induction false} OrderedAscends(nodes: Nodes, s: set<OpId>)
    requires DistinctKeys(nodes, s)
    ensures Ascending(nodes, Ordered(nodes, s))
    decreases |s|
  {
    if s != {} {
      var m := Least(nodes, s);
      OrderedAscends(nodes, s - {m});
      var rest := Ordered(nodes, s - {m});
      forall j | 0 <= j < |rest| ensures NodeLess(nodes, m, rest[j]) {
        assert rest[j] in Members(rest);
        KeyLessTotal(nodes[m].sort, nodes[rest[j]].sort);
      }
    }
  }

  /** There is one ascending order of a set of ids. */
  lemma {:induction false} AscendingUnique(nodes: Nodes, a: seq<OpId>, b: seq<OpId>)
    requires Ascending(nodes, a) && Ascending(nodes, b) && Members(a) == Members(b)
    ensures a == b
    decreases |a|
  {
    if a == [] {
      NonEmptyMembers(b);
    } else {
      NonEmptyMembers(a);
      NonEmptyMembers(b);
      HeadsAgree(nodes, a, b);
      RestMembers(nodes, a);
      RestMembers(nodes, b);
      AscendingUnique(nodes, a[1..], b[1..]);
      assert a == [a[0]] + a[1..] && b == [b[0]] + b[1..];
    }
  }

  lemma HeadsAgree(nodes: Nodes, a: seq<OpId>, b: seq<OpId>)
    requires Ascending(nodes, a) && Ascending(nodes, b) && Members(a) == Members(b) && a != [] && b != []
    ensures a[0] == b[0]
  {
    assert b[0] in Members(a) && a[0] in Members(b);
    var i :| 0 <= i < |a| && a[i] == b[0];
    var j :| 0 <= j < |b| && b[j] == a[0];
    if i > 0 && j > 0 { KeyLessTotal(nodes[a[0]].sort, nodes[b[0]].sort); }
  }

  lemma RestMembers(nodes: Nodes, a: seq<OpId>)
    requires Ascending(nodes, a) && a != []
    ensures Members(a[1..]) == Members(a) - {a[0]}
  {
    forall i | 0 < i < |a| ensures a[i] != a[0] {
      assert NodeLess(nodes, a[0], a[i]);
      KeyLessTotal(nodes[a[0]].sort, nodes[a[0]].sort);
    }
    assert a == [a[0]] + a[1..];
  }

  // ---------------------------------------------------------------- the document

  /** Every node but the root hangs below an older node. */
  ghost predicate Hangs(nodes: Nodes, bound: int, n: OpId)
    requires n in nodes
  {
    && 0 <= n.counter <= bound
    && (n != ROOT ==>
        nodes[n].parent.Some? && nodes[n].parent.value in nodes && nodes[n].parent.value.counter < n.counter)
  }

  ghost predicate Shape(nodes: Nodes, bound: int) {
    && ROOT in nodes && nodes[ROOT].body.Element? && nodes[ROOT].parent.None?
    && (forall n {:trigger nodes[n]} :: n in nodes ==> Hangs(nodes, bound, n))
  }

  function Live(nodes: Nodes, p: OpId): set<OpId> {
    set n | n in nodes && nodes[n].parent == Some(p) && nodes[n].tomb.None?
  }

  /** What the walk of Render appends for node `n`. */
  ghost function Text(nodes: Nodes, bound: int, n: OpId): string
    requires Shape(nodes, bound) && n in nodes
    decreases bound - n.counter, 1, 0
  {
    assert Hangs(nodes, bound, n);
    if nodes[n].body.Leaf? then nodes[n].body.text else TextAll(nodes, bound, n, Ordered(nodes, Live(nodes, n)))
  }

  ghost function TextAll(nodes: Nodes, bound: int, p: OpId, order: seq<OpId>): string
    requires Shape(nodes, bound) && p in nodes && Members(order) <= Live(nodes, p)
    decreases bound - p.counter, 0, |order|
  {
    if order == [] then ""
    else
      assert order[0] in Members(order) && Hangs(nodes, bound, order[0]);
      Text(nodes, bound, order[0]) + TextAll(nodes, bound, p, order[1..])
  }

  ghost function Render(r: Replica): string
    requires Shape(r.nodes, r.counter)
  {
    Text(r.nodes, r.counter, ROOT)
  }

  /** The walk does not depend on the bound that makes it stop. */
  lemma {:induction false} BoundFree(nodes: Nodes, b: int, c: int, n: OpId)
    requires Shape(nodes, b) && Shape(nodes, c) && n in nodes
    ensures Text(nodes, b, n) == Text(nodes, c, n)
    decreases b - n.counter, 1, 0
  {
    assert Hangs(nodes, b, n);
    if !nodes[n].body.Leaf? { BoundFreeAll(nodes, b, c, n, Ordered(nodes, Live(nodes, n))); }
  }

  lemma {:induction false} BoundFreeAll(nodes: Nodes, b: int, c: int, p: OpId, order: seq<OpId>)
    requires Shape(nodes, b) && Shape(nodes, c) && p in nodes && Members(order) <= Live(nodes, p)
    ensures TextAll(nodes, b, p, order) == TextAll(nodes, c, p, order)
    decreases b - p.counter, 0, |order|
  {
    if order != [] {
      assert order[0] in Members(order) && Hangs(nodes, b, order[0]);
      BoundFree(nodes, b, c, order[0]);
      BoundFreeAll(nodes, b, c, p, order[1..]);
    }
  }

  lemma {:induction false} TextAllJoins(nodes: Nodes, bound: int, p: OpId, a: seq<OpId>, b: seq<OpId>)
    requires Shape(nodes, bound) && p in nodes && Members(a + b) <= Live(nodes, p)
    ensures Members(a) <= Live(nodes, p) && Members(b) <= Live(nodes, p)
    ensures TextAll(nodes, bound, p, a + b) == TextAll(nodes, bound, p, a) + TextAll(nodes, bound, p, b)
    decreases |a|
  {
    assert Members(a + b) == Members(a) + Members(b);
    if a == [] {
      assert a + b == b;
    } else {
      assert (a + b)[1..] == a[1..] + b;
      assert Members(a[1..] + b) <= Members(a + b);
      TextAllJoins(nodes, bound, p, a[1..], b);
      TextAllTurns(nodes, bound, p, a);
      TextAllTurns(nodes, bound, p, a + b);
    }
  }

  lemma TextAllTurns(nodes: Nodes, bound: int, p: OpId, order: seq<OpId>)
    requires Shape(nodes, bound) && p in nodes && Members(order) <= Live(nodes, p) && order != []
    ensures order[0] in nodes && Members(order[1..]) <= Live(nodes, p)
    ensures TextAll(nodes, bound, p, order) == Text(nodes, bound, order[0]) + TextAll(nodes, bound, p, order[1..])
  {
    assert order[0] in Members(order) && Hangs(nodes, bound, order[0]);
  }
}
