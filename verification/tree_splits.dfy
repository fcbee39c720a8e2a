/** Two replicas split the same leaf before they hear of each other. */
module TreeSplits {
  import opened Basics
  import opened TreeOps

  /** A split of `n` that this replica could apply now. */
  ghost predicate Splits(r: Replica, op: Op, n: OpId) {
    && op.id.counter >= 1 && op.id !in r.nodes && !Contains(r.frontier, op.id)
    && op.kind.SplitLeaf? && op.kind.node == n && op.kind.tail == op.id && Contains(r.frontier, op.kind.prev)
  }

  /** What a reader of the tree sees: everything but the id of the last text op. */
  ghost predicate SameTree(a: map<OpId, Node>, b: map<OpId, Node>) {
    a.Keys == b.Keys && forall n :: n in a ==> n in b && a[n] == b[n].(head := a[n].head)
  }

  /** An update with two ops that are both ready applies them in the order given. */
  lemma BothApply(r: Replica, x: Op, y: Op, n: OpId)
    requires r.buffered == [] && n in r.nodes && r.nodes[n].body.Leaf? && x.id != y.id && Splits(r, x, n)
             && Splits(r, y, n)
    ensures ApplyUpdate(r, [x, y]).nodes == ApplyOp(ApplyOp(r.nodes, x), y)
  {
    var taken := TakeIn(r, [x, y]);
    assert [x, y][1..] == [y] && [y][1..] == [];
    assert taken == TakeIn(TakeOne(r, x), [y]) == TakeOne(TakeOne(r, x), y);
    assert [] + [x] + [y] == [x, y];
    assert taken.buffered == [x, y] && taken == r.(counter := taken.counter, buffered := [x, y]);
    var r0 := taken.(buffered := []);
    var r1 := Offer(r0, x);
    assert r1 == Commit(r0, x);
    assert !Contains(r1.frontier, y.id) && Ready(r1.nodes, r1.frontier, y);
    assert Pass(r0, [x, y]) == Commit(r1, y) by {
      assert Pass(r1, [y]) == Pass(Offer(r1, y), []);
    }
    assert Drain(taken) == Drain(Commit(r1, y));
  }

  /** The leaf, its two tails and everything else after both splits. */
  lemma TwoSplits(nodes: map<OpId, Node>, x: Op, y: Op, n: OpId)
    requires n in nodes && nodes[n].body.Leaf? && x.id !in nodes && y.id !in nodes && x.id != y.id
    requires x.kind.SplitLeaf? && x.kind.node == n && x.kind.tail == x.id && y.kind.SplitLeaf? && y.kind.node == n
             && y.kind.tail == y.id
    ensures var text := nodes[n].body.text;
            var (a, b) := (Clamp(x.kind.at, |text|), Clamp(y.kind.at, |text|));
            var low := if a < b then a else b;
            var nodes' := ApplyOp(ApplyOp(nodes, x), y);
            && nodes'.Keys == nodes.Keys + {x.id, y.id}
            && (forall m :: m in nodes && m != n ==> nodes'[m] == nodes[m])
            && nodes'[n] == nodes[n].(body := Leaf(nodes[n].body.tag, text[..low]), head := y.id)
            && nodes'[x.id] == Node(nodes[n].parent, x.kind.sort, x.id, Leaf(nodes[n].body.tag, text[a..]), None, x.id)
            && nodes'[y.id] == Node(nodes[n].parent, y.kind.sort, y.id, Leaf(nodes[n].body.tag, text[low..a]), None,
                y.id)
  {
    var text := nodes[n].body.text;
    var a, b := Clamp(x.kind.at, |text|), Clamp(y.kind.at, |text|);
    var low := if a < b then a else b;
    assert Clamp(y.kind.at, |text[..a]|) == low;
    assert text[..a][..low] == text[..low] && text[..a][low..] == text[low..a];
  }

  /**
    Concurrent splits of one leaf.  Two replicas in the same state that are given the two splits in opposite orders end
    with the same tree exactly when one of the splits is at or past the end of the text; and they never agree on the
    text op that comes last.
   */
  lemma ConcurrentSplits(r: Replica, x: Op, y: Op, n: OpId)
    requires r.buffered == [] && n in r.nodes && r.nodes[n].body.Leaf? && x.id != y.id && Splits(r, x, n)
             && Splits(r, y, n)
    ensures SameTree(ApplyUpdate(r, [x, y]).nodes, ApplyUpdate(r, [y, x]).nodes) <==>
            x.kind.at >= |r.nodes[n].body.text| || y.kind.at >= |r.nodes[n].body.text|
    ensures ApplyUpdate(r, [x, y]).nodes != ApplyUpdate(r, [y, x]).nodes
  {
    BothApply(r, x, y, n);
    BothApply(r, y, x, n);
    BothOrders(r.nodes, x, y, n);
  }

  lemma BothOrders(nodes: map<OpId, Node>, x: Op, y: Op, n: OpId)
    requires n in nodes && nodes[n].body.Leaf? && x.id !in nodes && y.id !in nodes && x.id != y.id
    requires x.kind.SplitLeaf? && x.kind.node == n && x.kind.tail == x.id && y.kind.SplitLeaf? && y.kind.node == n
             && y.kind.tail == y.id
    ensures var a, b := ApplyOp(ApplyOp(nodes, x), y), ApplyOp(ApplyOp(nodes, y), x);
            && a != b
            && (SameTree(a, b) <==> x.kind.at >= |nodes[n].body.text| || y.kind.at >= |nodes[n].body.text|)
  {
    TwoSplits(nodes, x, y, n);
    TwoSplits(nodes, y, x, n);
    TailsAgree(nodes[n].body.text, x.kind.at, y.kind.at);
  }

  /** The two tails, cut in either order. */
  lemma TailsAgree(text: string, s: nat, t: nat)
    ensures var (a, b) := (Clamp(s, |text|), Clamp(t, |text|));
            var low := if a < b then a else b;
            (text[a..] == text[low..b] && text[low..a] == text[b..]) <==> s >= |text| || t >= |text|
  {
    var a, b := Clamp(s, |text|), Clamp(t, |text|);
    var low := if a < b then a else b;
    if text[a..] == text[low..b] && text[low..a] == text[b..] {
      assert |text| - a == b - low && a - low == |text| - b;
    }
  }
}
