/** Splitting a buried leaf: its tail comes back to life, and the document changes if anything shows its parent. */
module TreeDeadSplits {
  import opened Basics
  import opened TreeOps
  import opened TreeRender
  import opened TreeEdits

  /**
    A buried leaf is no anchor: its tail comes back to life at the end of the parent, which grows by the tail's text.
   */
  lemma DeadSplitAppends(r: Replica, n: OpId, at: nat)
    requires LocalInv(r) && IsLeaf(r.nodes, n) && at <= |r.nodes[n].body.text| && HasParent(r.nodes, n)
             && r.nodes[n].tomb.Some?
    requires r.nodes[n].parent.value in r.nodes && r.nodes[r.nodes[n].parent.value].body.Element?
    ensures var p := r.nodes[n].parent.value;
            var r' := Perform(r, Split(n, at));
            LocalInv(r') && p in r'.nodes && Text(r'.nodes, r'.counter, p) == Text(r.nodes, r.counter, p)
                + r.nodes[n].body.text[at..]
  {
    var r' := Perform(r, Split(n, at));
    var p := r.nodes[n].parent.value;
    SplitOk(r, n, at);
    SplitIs(r, n, at);
    DeadSplitText(r, r'.nodes, n, at, r.counter + 1);
    ShapeMore(r.nodes, r.counter, r.counter + 1);
    BoundFree(r.nodes, r.counter, r.counter + 1, p);
  }

  lemma DeadSplitText(r: Replica, nodes': Nodes, n: OpId, at: nat, bound: int)
    requires IsSplit(r, nodes', n, at) && r.nodes[n].tomb.Some? && bound == r.counter + 1
    requires r.nodes[n].parent.value in r.nodes && r.nodes[r.nodes[n].parent.value].body.Element?
    ensures Shape(r.nodes, bound)
    ensures Text(nodes', bound, r.nodes[n].parent.value) == Text(r.nodes, bound, r.nodes[n].parent.value)
            + r.nodes[n].body.text[at..]
  {
    var p := r.nodes[n].parent.value;
    var order := Children(r.nodes, p);
    ShapeMore(r.nodes, r.counter, bound);
    DeadSplitHere(r, nodes', n, at);
    SplitLive(r, nodes', n, at, p);
    TextAllJoins(nodes', bound, p, order, [NextId(r)]);
    TextOne(nodes', bound, p, NextId(r));
    DeadSplitAll(r, nodes', n, at, bound, p, order);
  }

  lemma DeadSplitHere(r: Replica, nodes': Nodes, n: OpId, at: nat)
    requires IsSplit(r, nodes', n, at) && r.nodes[n].tomb.Some?
    ensures Children(nodes', r.nodes[n].parent.value) == Children(r.nodes, r.nodes[n].parent.value) + [NextId(r)]
  {
    var order := Children(r.nodes, r.nodes[n].parent.value);
    assert n !in Members(order);
    SplitHere(r, nodes', n, at);
    InsertedLast(order, n, NextId(r));
  }

  lemma InsertedLast(order: seq<OpId>, n: OpId, t: OpId)
    requires n !in order
    ensures Inserted(order, Slot(order, Some(n)), t) == order + [t]
  {
    assert order[..|order|] == order;
  }

  /** A buried leaf is not rendered, so the nodes that do not list the tail keep their text. */
  lemma {:induction false} DeadSplitSame(r: Replica, nodes': Nodes, n: OpId, at: nat, bound: int, m: OpId)
    requires IsSplit(r, nodes', n, at) && r.nodes[n].tomb.Some? && Shape(r.nodes, bound) && Shape(nodes', bound)
    requires m in r.nodes && m != n && r.nodes[n].parent.value.counter < m.counter
    ensures m in nodes' && Text(nodes', bound, m) == Text(r.nodes, bound, m)
    decreases bound - m.counter, 1, 0
  {
    assert Hangs(r.nodes, bound, m);
    SplitHalfText(r, nodes', n, at);
    if !r.nodes[m].body.Leaf? {
      SplitElsewhere(r, nodes', n, at, m);
      DeadSplitAll(r, nodes', n, at, bound, m, Children(r.nodes, m));
    }
  }

  lemma {:induction false} DeadSplitAll(r: Replica, nodes': Nodes, n: OpId, at: nat, bound: int, m: OpId,
          order: seq<OpId>)
    requires IsSplit(r, nodes', n, at) && r.nodes[n].tomb.Some? && Shape(r.nodes, bound) && Shape(nodes', bound)
    requires m in r.nodes && m in nodes' && r.nodes[n].parent.value.counter <= m.counter
    requires Members(order) <= Live(r.nodes, m) && Members(order) <= Live(nodes', m)
    ensures TextAll(nodes', bound, m, order) == TextAll(r.nodes, bound, m, order)
    decreases bound - m.counter, 0, |order|
  {
    if order != [] {
      assert order[0] in Members(order) && Hangs(r.nodes, bound, order[0]);
      DeadSplitSame(r, nodes', n, at, bound, order[0]);
      DeadSplitAll(r, nodes', n, at, bound, m, order[1..]);
    }
  }

  // ---------------------------------------------------------------- the whole document

  /** The walk from `m` comes to the element `p`. */
  ghost predicate Shown(nodes: Nodes, bound: int, m: OpId, p: OpId)
    requires Shape(nodes, bound) && m in nodes
    decreases bound - m.counter
  {
    assert Hangs(nodes, bound, m);
    nodes[m].body.Element? && (m == p || exists c ::
        c in Live(nodes, m) && Hangs(nodes, bound, c) && Shown(nodes, bound, c, p))
  }

  /** Some node of `order` shows `p`. */
  ghost predicate ShownIn(nodes: Nodes, bound: int, order: seq<OpId>, p: OpId)
    requires Shape(nodes, bound)
  {
    exists c :: c in order && c in nodes && Shown(nodes, bound, c, p)
  }

  /** Longer if `grows`, and otherwise the same. */
  predicate Grown(before: string, after: string, grows: bool) {
    if grows then |after| > |before| else after == before
  }

  lemma {:induction false} DeadSplitGrows(r: Replica, nodes': Nodes, n: OpId, at: nat, bound: int, m: OpId)
    requires IsSplit(r, nodes', n, at) && r.nodes[n].tomb.Some? && bound == r.counter + 1 && Shape(r.nodes, bound)
             && Shape(nodes', bound)
    requires m in r.nodes && m != n
    ensures m in nodes'
    ensures Grown(Text(r.nodes, bound, m), Text(nodes', bound, m),
                  at < |r.nodes[n].body.text| && Shown(r.nodes, bound, m, r.nodes[n].parent.value))
    decreases bound - m.counter, 1, 0
  {
    var p := r.nodes[n].parent.value;
    assert Hangs(r.nodes, bound, m) && Hangs(r.nodes, bound, n);
    SplitHalfText(r, nodes', n, at);
    if !r.nodes[m].body.Leaf? {
      if m == p {
        DeadSplitText(r, nodes', n, at, bound);
      } else {
        SplitElsewhere(r, nodes', n, at, m);
        DeadSplitGrowsAll(r, nodes', n, at, bound, m, Children(r.nodes, m));
        ShownBelow(r.nodes, bound, m, p);
      }
    }
  }

  lemma ShownBelow(nodes: Nodes, bound: int, m: OpId, p: OpId)
    requires Shape(nodes, bound) && m in nodes && m != p && nodes[m].body.Element?
    ensures Shown(nodes, bound, m, p) <==> ShownIn(nodes, bound, Children(nodes, m), p)
  {
    assert Members(Children(nodes, m)) == Live(nodes, m);
    forall c | c in Live(nodes, m) ensures c in Children(nodes, m) && Hangs(nodes, bound, c) {
      assert c in Members(Children(nodes, m));
    }
    forall c | c in Children(nodes, m) ensures c in Live(nodes, m) { assert c in Members(Children(nodes, m)); }
  }

  lemma {:induction false} DeadSplitGrowsAll(r: Replica, nodes': Nodes, n: OpId, at: nat, bound: int, m: OpId,
          order: seq<OpId>)
    requires IsSplit(r, nodes', n, at) && r.nodes[n].tomb.Some? && bound == r.counter + 1 && Shape(r.nodes, bound)
             && Shape(nodes', bound)
    requires m in r.nodes && m in nodes' && Members(order) <= Live(r.nodes, m) && Members(order) <= Live(nodes', m)
    ensures Grown(TextAll(r.nodes, bound, m, order), TextAll(nodes', bound, m, order),
                  at < |r.nodes[n].body.text| && ShownIn(r.nodes, bound, order, r.nodes[n].parent.value))
    decreases bound - m.counter, 0, |order|
  {
    if order != [] {
      assert order[0] in Members(order) && Hangs(r.nodes, bound, order[0]);
      DeadSplitGrows(r, nodes', n, at, bound, order[0]);
      DeadSplitGrowsAll(r, nodes', n, at, bound, m, order[1..]);
      assert order == [order[0]] + order[1..];
      TextAllTurns(r.nodes, bound, m, order);
      TextAllTurns(nodes', bound, m, order);
    }
  }

  lemma {:induction false} ShownBoundFree(nodes: Nodes, b: int, c: int, m: OpId, p: OpId)
    requires Shape(nodes, b) && Shape(nodes, c) && m in nodes
    ensures Shown(nodes, b, m, p) <==> Shown(nodes, c, m, p)
    decreases b - m.counter
  {
    forall k | k in Live(nodes, m) ensures Hangs(nodes, b, k) && Hangs(nodes, c, k)
        && (Shown(nodes, b, k, p) <==> Shown(nodes, c, k, p)) {
      assert Hangs(nodes, b, k);
      ShownBoundFree(nodes, b, c, k, p);
    }
  }

  /**
    Exactly when splitting a leaf keeps the document, for every leaf with a parent: the leaf is live, or the tail is
    empty, or the walk from the root does not come to the parent.
   */
  lemma SplitRenders(r: Replica, n: OpId, at: nat)
    requires LocalInv(r) && IsLeaf(r.nodes, n) && at <= |r.nodes[n].body.text| && HasParent(r.nodes, n)
    ensures var r' := Perform(r, Split(n, at));
            && LocalInv(r')
            && (Render(r') == Render(r) <==>
                  r.nodes[n].tomb.None? || at == |r.nodes[n].body.text|
                      || !Shown(r.nodes, r.counter, ROOT, r.nodes[n].parent.value))
            && |Render(r')| >= |Render(r)|
  {
    if r.nodes[n].tomb.None? {
      SplitKeepsRender(r, n, at);
    } else {
      SplitOk(r, n, at);
      SplitIs(r, n, at);
      ShapeMore(r.nodes, r.counter, r.counter + 1);
      DeadSplitGrows(r, Perform(r, Split(n, at)).nodes, n, at, r.counter + 1, ROOT);
      BoundFree(r.nodes, r.counter, r.counter + 1, ROOT);
      ShownBoundFree(r.nodes, r.counter, r.counter + 1, ROOT, r.nodes[n].parent.value);
    }
  }
}
