/** One replica's own edits: live siblings keep distinct keys, and splitting or merging leaves keeps the text. */
module TreeEdits {
  import opened Basics
  import opened TreeOps
  import opened TreeKeys
  import opened TreeRender

  // ---------------------------------------------------------------- the invariant

  ghost predicate NodeOk(nodes: Nodes, bound: int, peer: nat, n: OpId)
    requires n in nodes
  {
    nodes[n].stamp.counter <= bound && (n != ROOT ==> Proper(nodes[n].sort.frac) && nodes[n].sort.peer == peer)
  }

  predicate LiveSiblings(nodes: Nodes, a: OpId, b: OpId) {
    && a in nodes && b in nodes && a != b
    && nodes[a].parent.Some? && nodes[a].parent == nodes[b].parent && nodes[a].tomb.None? && nodes[b].tomb.None?
  }

  ghost predicate NodesInv(nodes: Nodes, bound: int, peer: nat) {
    && bound >= 0 && Shape(nodes, bound)
    && (forall n {:trigger NodeOk(nodes, bound, peer, n)} :: n in nodes ==> NodeOk(nodes, bound, peer, n))
    && (forall a, b {:trigger LiveSiblings(nodes, a, b)} :: LiveSiblings(nodes, a, b) ==>
        nodes[a].sort != nodes[b].sort)
  }

  ghost predicate LocalInv(r: Replica) {
    NodesInv(r.nodes, r.counter, r.peer)
  }

  ghost function Children(nodes: Nodes, p: OpId): (order: seq<OpId>)
    ensures Members(order) == Live(nodes, p)
  {
    Ordered(nodes, Live(nodes, p))
  }

  lemma ChildrenAscend(nodes: Nodes, bound: int, peer: nat, p: OpId)
    requires NodesInv(nodes, bound, peer)
    ensures DistinctKeys(nodes, Live(nodes, p)) && Ascending(nodes, Children(nodes, p))
  {
    forall a, b | a in Live(nodes, p) && b in Live(nodes, p) && a != b ensures nodes[a].sort != nodes[b].sort {
      assert LiveSiblings(nodes, a, b);
    }
    OrderedAscends(nodes, Live(nodes, p));
  }

  // ---------------------------------------------------------------- minting a key

  function IndexOf(order: seq<OpId>, x: OpId): (i: nat)
    ensures i <= |order| && (i < |order| ==> order[i] == x) && (i == |order| ==> x !in order)
  {
    if order == [] then 0 else if order[0] == x then 0 else 1 + IndexOf(order[1..], x)
  }

  /** Where keyAfter puts a child: in front, right after a live anchor, or at the end when the anchor is gone. */
  function Slot(order: seq<OpId>, after: Option<OpId>): (pos: nat)
    ensures pos <= |order|
  {
    match after
    case None => 0
    case Some(a) => if IndexOf(order, a) < |order| then IndexOf(order, a) + 1 else |order|
  }

  function FracAt(nodes: Nodes, n: OpId): Key {
    if n in nodes then nodes[n].sort.frac else []
  }

  /** A key for position `pos` among the children `order`. */
  function KeyAt(nodes: Nodes, order: seq<OpId>, pos: nat, peer: nat): SortKey
    requires pos <= |order|
  {
    SortKey(KeyBetween(if pos > 0 then FracAt(nodes, order[pos - 1]) else [],
                       if pos < |order| then Some(FracAt(nodes, order[pos])) else None), peer)
  }

  /** keyAfter. */
  ghost function KeyAfter(r: Replica, p: OpId, after: Option<OpId>): SortKey {
    KeyAt(r.nodes, Children(r.nodes, p), Slot(Children(r.nodes, p), after), r.peer)
  }

  ghost predicate OrderOk(nodes: Nodes, order: seq<OpId>, peer: nat) {
    && Ascending(nodes, order)
    && (forall i :: 0 <= i < |order| ==>
        order[i] in nodes && Proper(nodes[order[i]].sort.frac) && nodes[order[i]].sort.peer == peer)
  }

  lemma NotPadded(lo: Key, hi: Key)
    requires Proper(hi) && Before(lo, hi)
    ensures !Padded(lo, hi)
  {
    BeforeTotal(lo, lo);
    assert |lo| == |hi| ==> hi[..|lo|] == hi;
  }

  /** The minted key fits its gap. */
  lemma KeyAtGap(nodes: Nodes, order: seq<OpId>, pos: nat, peer: nat)
    requires OrderOk(nodes, order, peer) && pos <= |order|
    ensures var k := KeyAt(nodes, order, pos, peer);
            && Proper(k.frac) && k.peer == peer
            && (pos > 0 ==> KeyLess(nodes[order[pos - 1]].sort, k))
            && (pos < |order| ==> KeyLess(k, nodes[order[pos]].sort))
  {
    var lo := if pos > 0 then FracAt(nodes, order[pos - 1]) else [];
    if pos < |order| {
      var hi := FracAt(nodes, order[pos]);
      if pos > 0 { assert NodeLess(nodes, order[pos - 1], order[pos]); }
      NotPadded(lo, hi);
      KeyBetweenExact(lo, hi);
    } else {
      MintProper(lo, None, Turns(lo, None));
      MintAbove(lo);
    }
  }

  lemma KeyAtFits(nodes: Nodes, order: seq<OpId>, pos: nat, peer: nat, i: nat)
    requires OrderOk(nodes, order, peer) && pos <= |order| && i < |order|
    ensures var k := KeyAt(nodes, order, pos, peer);
            if i < pos then KeyLess(nodes[order[i]].sort, k) else KeyLess(k, nodes[order[i]].sort)
  {
    KeyAtGap(nodes, order, pos, peer);
    var k := KeyAt(nodes, order, pos, peer);
    if i < pos - 1 {
      assert NodeLess(nodes, order[i], order[pos - 1]);
      KeyLessTrans(nodes[order[i]].sort, nodes[order[pos - 1]].sort, k);
    } else if i > pos {
      assert NodeLess(nodes, order[pos], order[i]);
      KeyLessTrans(k, nodes[order[pos]].sort, nodes[order[i]].sort);
    }
  }

  lemma ChildrenOk(nodes: Nodes, bound: int, peer: nat, p: OpId)
    requires NodesInv(nodes, bound, peer)
    ensures OrderOk(nodes, Children(nodes, p), peer)
  {
    ChildrenAscend(nodes, bound, peer, p);
    var order := Children(nodes, p);
    forall i | 0 <= i < |order| ensures order[i] in nodes && Proper(nodes[order[i]].sort.frac)
        && nodes[order[i]].sort.peer == peer {
      assert order[i] in Members(order);
      assert NodeOk(nodes, bound, peer, order[i]);
    }
  }

  /** A minted key is new among the live children it joins. */
  lemma KeyAfterFresh(r: Replica, p: OpId, after: Option<OpId>)
    requires LocalInv(r)
    ensures var k := KeyAfter(r, p, after);
            && Proper(k.frac) && k.peer == r.peer && (forall c :: c in Live(r.nodes, p) ==> r.nodes[c].sort != k)
  {
    var order := Children(r.nodes, p);
    var pos := Slot(order, after);
    ChildrenOk(r.nodes, r.counter, r.peer, p);
    KeyAtGap(r.nodes, order, pos, r.peer);
    forall c | c in Live(r.nodes, p) ensures r.nodes[c].sort != KeyAfter(r, p, after) {
      assert c in Members(order);
      var i :| 0 <= i < |order| && order[i] == c;
      KeyAtFits(r.nodes, order, pos, r.peer, i);
      KeyLessTotal(r.nodes[c].sort, r.nodes[c].sort);
    }
  }

  // ---------------------------------------------------------------- the edits

  datatype Edit =
    | Create(parent: OpId, after: Option<OpId>, seed: Body)
    | Bury(node: OpId)
    | Move(node: OpId, after: Option<OpId>)
    | Rewrite(node: OpId, text: string)
    | Split(node: OpId, at: nat)
    | Merge(left: OpId, right: OpId)

  function NextId(r: Replica): OpId {
    OpId(r.counter + 1, r.peer)
  }

  function CommitNew(r: Replica, kind: Kind): Replica {
    Commit(r.(counter := r.counter + 1), Op(NextId(r), kind))
  }

  predicate IsLeaf(nodes: Nodes, n: OpId) {
    n in nodes && nodes[n].body.Leaf?
  }

  predicate HasParent(nodes: Nodes, n: OpId) {
    n in nodes && nodes[n].parent.Some?
  }

  /** MergeAdjacentLeaves accepts two leaves that follow each other among the live children of the left one's parent. */
  ghost predicate Adjacent(nodes: Nodes, left: OpId, right: OpId)
    requires HasParent(nodes, left)
  {
    var order := Children(nodes, nodes[left].parent.value);
    var i := IndexOf(order, left);
    i + 1 < |order| && order[i + 1] == right
  }

  /** The op a call commits; a call the source rejects commits nothing. */
  ghost function OpOf(r: Replica, e: Edit): Option<Kind> {
    match e
    case Create(p, after, seed) => if p in r.nodes then Some(CreateNode(NextId(r), p, KeyAfter(r, p, after), seed))
                                   else None
    case Bury(n) => if n in r.nodes && n != ROOT then Some(Tombstone(n)) else None
    case Move(n, after) =>
      if HasParent(r.nodes, n) then Some(Reorder(n, KeyAfter(r, r.nodes[n].parent.value, after))) else None
    case Rewrite(n, text) => if IsLeaf(r.nodes, n) then Some(LeafEdit(n, r.nodes[n].head, text)) else None
    case Split(n, at) =>
      if IsLeaf(r.nodes, n) && at <= |r.nodes[n].body.text| && HasParent(r.nodes, n) then
        Some(SplitLeaf(n, NextId(r), KeyAfter(r, r.nodes[n].parent.value, Some(n)), at, r.nodes[n].head))
      else None
    case Merge(l, x) =>
      if IsLeaf(r.nodes, l) && IsLeaf(r.nodes, x) && HasParent(r.nodes, l) && Adjacent(r.nodes, l, x) then
        Some(MergeLeaves(l, x, r.nodes[l].head, r.nodes[x].head))
      else None
  }

  ghost function Perform(r: Replica, e: Edit): Replica {
    match OpOf(r, e)
    case None => r
    case Some(kind) => CommitNew(r, kind)
  }

  // ---------------------------------------------------------------- edits keep the invariant

  lemma IdsBounded(nodes: Nodes, bound: int)
    requires Shape(nodes, bound)
    ensures forall n :: n in nodes ==> n.counter <= bound
  {
    forall n | n in nodes ensures n.counter <= bound { assert Hangs(nodes, bound, n); }
  }

  /** A new live child with a key of its own. */
  lemma AddOk(nodes: Nodes, bound: int, peer: nat, x: Node)
    requires NodesInv(nodes, bound, peer) && x.parent.Some? && x.parent.value in nodes
    requires x.stamp.counter <= bound + 1 && Proper(x.sort.frac) && x.sort.peer == peer
    requires forall c :: c in Live(nodes, x.parent.value) ==> nodes[c].sort != x.sort
    ensures NodesInv(nodes[OpId(bound + 1, peer) := x], bound + 1, peer)
  {
    var id := OpId(bound + 1, peer);
    var nodes' := nodes[id := x];
    assert Hangs(nodes, bound, x.parent.value);
    IdsBounded(nodes, bound);
    forall n | n in nodes' ensures Hangs(nodes', bound + 1, n) && NodeOk(nodes', bound + 1, peer, n) {
      if n != id { assert Hangs(nodes, bound, n) && NodeOk(nodes, bound, peer, n); }
    }
    forall a, b | LiveSiblings(nodes', a, b) ensures nodes'[a].sort != nodes'[b].sort {
      if a != id && b != id {
        assert LiveSiblings(nodes, a, b);
      } else {
        assert (if a == id then b else a) in Live(nodes, x.parent.value);
      }
    }
  }

  /** A node changed in place; a live one may only take a key that no live sibling has. */
  lemma ChangeOk(nodes: Nodes, bound: int, bound': int, peer: nat, n: OpId, x: Node)
    requires NodesInv(nodes, bound, peer) && bound <= bound' && n in nodes && x.parent == nodes[n].parent
    requires x.stamp.counter <= bound' && (n != ROOT ==> Proper(x.sort.frac) && x.sort.peer == peer)
    requires n == ROOT ==> x.body.Element?
    requires x.tomb.None? ==> nodes[n].tomb.None?
    requires x.tomb.None? && x.sort != nodes[n].sort && x.parent.Some? ==>
               forall c :: c in Live(nodes, x.parent.value) && c != n ==> nodes[c].sort != x.sort
    ensures NodesInv(nodes[n := x], bound', peer)
  {
    var nodes' := nodes[n := x];
    forall m | m in nodes' ensures Hangs(nodes', bound', m) && NodeOk(nodes', bound', peer, m) {
      assert Hangs(nodes, bound, m) && NodeOk(nodes, bound, peer, m);
    }
    forall a, b | LiveSiblings(nodes', a, b) ensures nodes'[a].sort != nodes'[b].sort {
      assert LiveSiblings(nodes, a, b);
      if a == n { assert b in Live(nodes, x.parent.value); }
      if b == n { assert a in Live(nodes, x.parent.value); }
    }
  }

  lemma MoveOk(r: Replica, n: OpId, after: Option<OpId>)
    requires LocalInv(r) && HasParent(r.nodes, n)
    ensures LocalInv(CommitNew(r, Reorder(n, KeyAfter(r, r.nodes[n].parent.value, after))))
  {
    KeyAfterFresh(r, r.nodes[n].parent.value, after);
    MoveToOk(r, n, KeyAfter(r, r.nodes[n].parent.value, after));
  }

  lemma MoveToOk(r: Replica, n: OpId, k: SortKey)
    requires LocalInv(r) && HasParent(r.nodes, n) && Proper(k.frac) && k.peer == r.peer
    requires forall c :: c in Live(r.nodes, r.nodes[n].parent.value) ==> r.nodes[c].sort != k
    ensures LocalInv(CommitNew(r, Reorder(n, k)))
  {
    MovedOk(r.nodes, r.counter, r.peer, n, k);
    MoveIs(r, n, k);
  }

  lemma MovedOk(nodes: Nodes, bound: int, peer: nat, n: OpId, k: SortKey)
    requires NodesInv(nodes, bound, peer) && HasParent(nodes, n) && Proper(k.frac) && k.peer == peer
    requires forall c :: c in Live(nodes, nodes[n].parent.value) ==> nodes[c].sort != k
    ensures NodesInv(nodes[n := Moved(nodes[n], k, OpId(bound + 1, peer))], bound + 1, peer)
  {
    assert NodeOk(nodes, bound, peer, n);
    ChangeOk(nodes, bound, bound + 1, peer, n, Moved(nodes[n], k, OpId(bound + 1, peer)));
  }

  lemma MoveIs(r: Replica, n: OpId, k: SortKey)
    requires n in r.nodes
    ensures var r' := CommitNew(r, Reorder(n, k));
            r'.nodes == r.nodes[n := Moved(r.nodes[n], k, NextId(r))] && r'.counter == r.counter + 1
                && r'.peer == r.peer
  {
  }

  /** What a split leaves in the node, and the node it adds. */
  function HeadOf(r: Replica, n: OpId, at: nat): Node
    requires IsLeaf(r.nodes, n) && at <= |r.nodes[n].body.text|
  {
    r.nodes[n].(body := Leaf(r.nodes[n].body.tag, r.nodes[n].body.text[..at]), head := NextId(r))
  }

  ghost function TailOf(r: Replica, n: OpId, at: nat): Node
    requires IsLeaf(r.nodes, n) && at <= |r.nodes[n].body.text| && HasParent(r.nodes, n)
  {
    var p := r.nodes[n].parent.value;
    Node(Some(p), KeyAfter(r, p, Some(n)), NextId(r), Leaf(r.nodes[n].body.tag, r.nodes[n].body.text[at..]), None,
        NextId(r))
  }

  lemma SplitIs(r: Replica, n: OpId, at: nat)
    requires LocalInv(r) && IsLeaf(r.nodes, n) && at <= |r.nodes[n].body.text| && HasParent(r.nodes, n)
    ensures NextId(r) !in r.nodes
    ensures var r' := Perform(r, Split(n, at));
            r'.nodes == r.nodes[n := HeadOf(r, n, at)][NextId(r) := TailOf(r, n, at)] && r'.counter == r.counter + 1
                && r'.peer == r.peer
  {
    IdsBounded(r.nodes, r.counter);
  }

  lemma SplitOk(r: Replica, n: OpId, at: nat)
    requires LocalInv(r) && IsLeaf(r.nodes, n) && at <= |r.nodes[n].body.text| && HasParent(r.nodes, n)
    ensures LocalInv(Perform(r, Split(n, at)))
  {
    SplitIs(r, n, at);
    SplitNodesOk(r, n, at);
  }

  lemma SplitNodesOk(r: Replica, n: OpId, at: nat)
    requires LocalInv(r) && IsLeaf(r.nodes, n) && at <= |r.nodes[n].body.text| && HasParent(r.nodes, n)
    ensures NodesInv(r.nodes[n := HeadOf(r, n, at)][NextId(r) := TailOf(r, n, at)], r.counter + 1, r.peer)
  {
    HeadOk(r, n, at);
    AddOk(r.nodes[n := HeadOf(r, n, at)], r.counter, r.peer, TailOf(r, n, at));
  }

  lemma HeadOk(r: Replica, n: OpId, at: nat)
    requires LocalInv(r) && IsLeaf(r.nodes, n) && at <= |r.nodes[n].body.text| && HasParent(r.nodes, n)
    ensures var nodes1 := r.nodes[n := HeadOf(r, n, at)];
            var x := TailOf(r, n, at);
            && NodesInv(nodes1, r.counter, r.peer) && x.parent.value in nodes1
            && Proper(x.sort.frac) && x.sort.peer == r.peer
            && (forall c :: c in Live(nodes1, x.parent.value) ==> nodes1[c].sort != x.sort)
  {
    var p := r.nodes[n].parent.value;
    assert NodeOk(r.nodes, r.counter, r.peer, n);
    assert Hangs(r.nodes, r.counter, n);
    ChangeOk(r.nodes, r.counter, r.counter, r.peer, n, HeadOf(r, n, at));
    KeyAfterFresh(r, p, Some(n));
    assert Live(r.nodes[n := HeadOf(r, n, at)], p) == Live(r.nodes, p);
  }

  lemma MergeOk(r: Replica, l: OpId, x: OpId)
    requires LocalInv(r) && IsLeaf(r.nodes, l) && IsLeaf(r.nodes, x) && HasParent(r.nodes, l) && Adjacent(r.nodes, l, x)
    ensures LocalInv(Perform(r, Merge(l, x)))
  {
    var left := r.nodes[l];
    var joined := left.(body := Leaf(left.body.tag, left.body.text + r.nodes[x].body.text), head := NextId(r));
    JoinedOk(r.nodes, r.counter, r.peer, l, joined);
    BuriedOk(r.nodes[l := joined], r.counter + 1, r.peer, x, NextId(r));
    MergeCommits(r, l, x);
  }

  lemma JoinedOk(nodes: Nodes, bound: int, peer: nat, n: OpId, x: Node)
    requires NodesInv(nodes, bound, peer) && IsLeaf(nodes, n) && x == nodes[n].(body := x.body, head := x.head)
    ensures NodesInv(nodes[n := x], bound + 1, peer)
  {
    assert NodeOk(nodes, bound, peer, n);
    ChangeOk(nodes, bound, bound + 1, peer, n, x);
  }

  lemma BuriedOk(nodes: Nodes, bound: int, peer: nat, n: OpId, id: OpId)
    requires NodesInv(nodes, bound, peer) && n in nodes && n != ROOT
    ensures NodesInv(nodes[n := Buried(nodes[n], id)], bound, peer)
  {
    assert NodeOk(nodes, bound, peer, n);
    ChangeOk(nodes, bound, bound, peer, n, Buried(nodes[n], id));
  }

  lemma MergeCommits(r: Replica, l: OpId, x: OpId)
    requires IsLeaf(r.nodes, l) && IsLeaf(r.nodes, x)
    ensures var r' := CommitNew(r, MergeLeaves(l, x, r.nodes[l].head, r.nodes[x].head));
            var left := r.nodes[l];
            var joined := left.(body := Leaf(left.body.tag, left.body.text + r.nodes[x].body.text), head := NextId(r));
            && r'.nodes == r.nodes[l := joined][x := Buried(r.nodes[l := joined][x], NextId(r))]
            && r'.counter == r.counter + 1 && r'.peer == r.peer
  {
  }

  lemma CreateOk(r: Replica, p: OpId, after: Option<OpId>, seed: Body)
    requires LocalInv(r) && p in r.nodes
    ensures LocalInv(Perform(r, Create(p, after, seed)))
  {
    KeyAfterFresh(r, p, after);
    CreateAtOk(r, p, KeyAfter(r, p, after), seed);
  }

  lemma CreateAtOk(r: Replica, p: OpId, k: SortKey, seed: Body)
    requires LocalInv(r) && p in r.nodes && Proper(k.frac) && k.peer == r.peer
    requires forall c :: c in Live(r.nodes, p) ==> r.nodes[c].sort != k
    ensures LocalInv(CommitNew(r, CreateNode(NextId(r), p, k, seed)))
  {
    IdsBounded(r.nodes, r.counter);
    AddOk(r.nodes, r.counter, r.peer, Node(Some(p), k, NextId(r), seed, None, NextId(r)));
    CreateIs(r, p, k, seed);
  }

  lemma CreateIs(r: Replica, p: OpId, k: SortKey, seed: Body)
    requires NextId(r) !in r.nodes
    ensures var r' := CommitNew(r, CreateNode(NextId(r), p, k, seed));
            && r'.nodes == r.nodes[NextId(r) := Node(Some(p), k, NextId(r), seed, None, NextId(r))]
            && r'.counter == r.counter + 1 && r'.peer == r.peer
  {
  }

  lemma PerformOk(r: Replica, e: Edit)
    requires LocalInv(r)
    ensures LocalInv(Perform(r, e))
  {
    match e
    case Create(p, after, seed) => if p in r.nodes { CreateOk(r, p, after, seed); }
    case Bury(n) =>
      if n in r.nodes {
        assert NodeOk(r.nodes, r.counter, r.peer, n);
        ChangeOk(r.nodes, r.counter, r.counter + 1, r.peer, n, Buried(r.nodes[n], NextId(r)));
      }
    case Move(n, after) => if HasParent(r.nodes, n) { MoveOk(r, n, after); }
    case Rewrite(n, text) =>
      if IsLeaf(r.nodes, n) {
        assert NodeOk(r.nodes, r.counter, r.peer, n);
        ChangeOk(r.nodes, r.counter, r.counter + 1, r.peer, n,
            r.nodes[n].(body := Leaf(r.nodes[n].body.tag, text), head := NextId(r)));
      }
    case Split(n, at) =>
      if IsLeaf(r.nodes, n) && at <= |r.nodes[n].body.text| && HasParent(r.nodes, n) { SplitOk(r, n, at); }
    case Merge(l, x) =>
      if IsLeaf(r.nodes, l) && IsLeaf(r.nodes, x) && HasParent(r.nodes, l) && Adjacent(r.nodes, l, x) {
        MergeOk(r, l, x);
      }
  }

  ghost function PerformAll(peer: nat, edits: seq<Edit>): Replica {
    if edits == [] then NewReplica(peer) else Perform(PerformAll(peer, edits[..|edits| - 1]), edits[|edits| - 1])
  }

  /** Over any run of a replica's own edits, live siblings have distinct keys. */
  lemma {:induction false} LocalRunOk(peer: nat, edits: seq<Edit>)
    ensures LocalInv(PerformAll(peer, edits))
    decreases |edits|
  {
    if edits == [] {
      var r := NewReplica(peer);
      assert Hangs(r.nodes, 0, ROOT) && NodeOk(r.nodes, 0, peer, ROOT);
    } else {
      LocalRunOk(peer, edits[..|edits| - 1]);
      PerformOk(PerformAll(peer, edits[..|edits| - 1]), edits[|edits| - 1]);
    }
  }

  // ---------------------------------------------------------------- splits and merges keep the text

  /**
    Two tables that differ in one leaf: `whole` holds in `h` the text that `parts` holds in `h` and, right after it
    among the children of `p`, in `t`.
   */
  ghost predicate Halves(whole: Nodes, parts: Nodes, p: OpId, h: OpId, t: OpId, pre: seq<OpId>, post: seq<OpId>) {
    HalfText(whole, parts, h, t) && HalfHere(whole, parts, p, h, t, pre, post) && HalfElsewhere(whole, parts, p, h, t)
  }

  ghost predicate HalfText(whole: Nodes, parts: Nodes, h: OpId, t: OpId) {
    && h != t && IsLeaf(whole, h) && IsLeaf(parts, h) && IsLeaf(parts, t)
    && whole[h].body.text == parts[h].body.text + parts[t].body.text
    && (forall n :: n in whole && n != h && n != t ==> n in parts && whole[n].body == parts[n].body)
  }

  ghost predicate HalfHere(whole: Nodes, parts: Nodes, p: OpId, h: OpId, t: OpId, pre: seq<OpId>, post: seq<OpId>) {
    && Children(whole, p) == pre + [h] + post && Children(parts, p) == pre + [h, t] + post
    && h !in pre + post && t !in pre + post
  }

  ghost predicate HalfElsewhere(whole: Nodes, parts: Nodes, p: OpId, h: OpId, t: OpId) {
    forall n {:trigger Children(whole, n)} :: n in whole && n != p ==>
      Children(parts, n) == Children(whole, n) && h !in Children(whole, n) && t !in Children(whole, n)
  }

  lemma {:induction false} HalvesText(whole: Nodes, parts: Nodes, bound: int, p: OpId, h: OpId, t: OpId, pre: seq<OpId>,
          post: seq<OpId>, n: OpId)
    requires Shape(whole, bound) && Shape(parts, bound) && Halves(whole, parts, p, h, t, pre, post)
    requires n in whole && n != h && n != t
    ensures n in parts && Text(parts, bound, n) == Text(whole, bound, n)
    decreases bound - n.counter, 1, 0
  {
    assert Hangs(whole, bound, n);
    if !whole[n].body.Leaf? {
      if n == p {
        HalvesHere(whole, parts, bound, p, h, t, pre, post);
      } else {
        HalvesAll(whole, parts, bound, p, h, t, pre, post, n, Children(whole, n));
      }
    }
  }

  lemma {:induction false} HalvesAll(whole: Nodes, parts: Nodes, bound: int, p: OpId, h: OpId, t: OpId, pre: seq<OpId>,
          post: seq<OpId>, n: OpId, order: seq<OpId>)
    requires Shape(whole, bound) && Shape(parts, bound) && Halves(whole, parts, p, h, t, pre, post)
    requires n in whole && n in parts && Members(order) <= Live(whole, n) && Members(order) <= Live(parts, n)
             && h !in order && t !in order
    ensures TextAll(parts, bound, n, order) == TextAll(whole, bound, n, order)
    decreases bound - n.counter, 0, |order|
  {
    if order != [] {
      assert order[0] in Members(order) && Hangs(whole, bound, order[0]);
      HalvesText(whole, parts, bound, p, h, t, pre, post, order[0]);
      HalvesAll(whole, parts, bound, p, h, t, pre, post, n, order[1..]);
    }
  }

  lemma {:induction false} HalvesHere(whole: Nodes, parts: Nodes, bound: int, p: OpId, h: OpId, t: OpId, pre: seq<OpId>,
          post: seq<OpId>)
    requires Shape(whole, bound) && Shape(parts, bound) && Halves(whole, parts, p, h, t, pre, post) && p in whole
             && p in parts
    ensures TextAll(parts, bound, p, Children(parts, p)) == TextAll(whole, bound, p, Children(whole, p))
    decreases bound - p.counter, 0, |pre| + |post| + 1
  {
    TextAllJoins(whole, bound, p, pre + [h], post);
    TextAllJoins(whole, bound, p, pre, [h]);
    TextAllJoins(parts, bound, p, pre + [h, t], post);
    TextAllJoins(parts, bound, p, pre, [h, t]);
    TextAllJoins(parts, bound, p, [h], [t]);
    assert [h] + [t] == [h, t];
    HalvesAll(whole, parts, bound, p, h, t, pre, post, p, pre);
    HalvesAll(whole, parts, bound, p, h, t, pre, post, p, post);
    TextOne(whole, bound, p, h);
    TextOne(parts, bound, p, h);
    TextOne(parts, bound, p, t);
  }

  lemma TextOne(nodes: Nodes, bound: int, p: OpId, n: OpId)
    requires Shape(nodes, bound) && p in nodes && n in Live(nodes, p) && IsLeaf(nodes, n)
    ensures Members([n]) <= Live(nodes, p) && TextAll(nodes, bound, p, [n]) == nodes[n].body.text
  {
    assert [n][1..] == [];
    assert TextAll(nodes, bound, p, []) == "";
  }

  /** Children with the same keys come in the same order. */
  lemma SameChildren(a: Nodes, b: Nodes, boundA: int, boundB: int, peer: nat, n: OpId)
    requires NodesInv(a, boundA, peer) && NodesInv(b, boundB, peer) && Live(a, n) == Live(b, n)
    requires forall c :: c in Live(a, n) ==> a[c].sort == b[c].sort
    ensures Children(a, n) == Children(b, n)
  {
    ChildrenAscend(a, boundA, peer, n);
    ChildrenAscend(b, boundB, peer, n);
    var x, y := Children(a, n), Children(b, n);
    forall i, j | 0 <= i < j < |x| ensures NodeLess(b, x[i], x[j]) {
      assert x[i] in Members(x) && x[j] in Members(x);
      assert NodeLess(a, x[i], x[j]);
    }
    AscendingUnique(b, x, y);
  }

  ghost predicate SameKeys(a: Nodes, b: Nodes, order: seq<OpId>) {
    forall i {:trigger order[i]} :: 0 <= i < |order| ==>
        order[i] in a && order[i] in b && b[order[i]].sort == a[order[i]].sort
  }

  function Inserted(order: seq<OpId>, pos: nat, t: OpId): (r: seq<OpId>)
    requires pos <= |order|
    ensures |r| == |order| + 1 && Members(r) == Members(order) + {t}
    ensures forall i :: 0 <= i < |r| ==> r[i] == if i < pos then order[i] else if i == pos then t else order[i - 1]
  {
    assert order == order[..pos] + order[pos..];
    order[..pos] + [t] + order[pos..]
  }

  lemma InsertAscends(a: Nodes, b: Nodes, order: seq<OpId>, pos: nat, peer: nat, t: OpId)
    requires OrderOk(a, order, peer) && SameKeys(a, b, order) && pos <= |order| && t in b
             && b[t].sort == KeyAt(a, order, pos, peer)
    ensures Ascending(b, Inserted(order, pos, t))
  {
    var order' := Inserted(order, pos, t);
    forall i, j | 0 <= i < j < |order'| ensures NodeLess(b, order'[i], order'[j]) {
      if i == pos {
        KeyAtFits(a, order, pos, peer, j - 1);
      } else if j == pos {
        KeyAtFits(a, order, pos, peer, i);
      } else {
        assert NodeLess(a, order[if i < pos then i else i - 1], order[if j < pos then j else j - 1]);
      }
    }
  }

  /** A child with a key for position `pos` shows up there. */
  lemma InsertedChild(a: Nodes, b: Nodes, bound: int, peer: nat, p: OpId, t: OpId, pos: nat)
    requires NodesInv(a, bound, peer) && NodesInv(b, bound + 1, peer) && pos <= |Children(a, p)| && t in b
    requires Live(b, p) == Live(a, p) + {t} && (forall c :: c in Live(a, p) ==> a[c].sort == b[c].sort)
    requires b[t].sort == KeyAt(a, Children(a, p), pos, peer)
    ensures Children(b, p) == Inserted(Children(a, p), pos, t)
  {
    var order := Children(a, p);
    ChildrenOk(a, bound, peer, p);
    ChildrenAscend(b, bound + 1, peer, p);
    forall i | 0 <= i < |order| ensures order[i] in a && order[i] in b && b[order[i]].sort == a[order[i]].sort {
      assert order[i] in Members(order);
    }
    InsertAscends(a, b, order, pos, peer, t);
    AscendingUnique(b, Inserted(order, pos, t), Children(b, p));
  }

  // ---------------------------------------------------------------- split

  /** The table after a split, with what is known about both tables. */
  ghost predicate IsSplit(r: Replica, nodes': Nodes, n: OpId, at: nat) {
    LocalInv(r) && SplitTable(r, nodes', n, at) && NodesInv(nodes', r.counter + 1, r.peer)
  }

  ghost predicate SplitTable(r: Replica, nodes': Nodes, n: OpId, at: nat) {
    && IsLeaf(r.nodes, n) && at <= |r.nodes[n].body.text| && HasParent(r.nodes, n) && NextId(r) !in r.nodes
    && nodes' == r.nodes[n := HeadOf(r, n, at)][NextId(r) := TailOf(r, n, at)]
  }

  lemma SplitLive(r: Replica, nodes': Nodes, n: OpId, at: nat, m: OpId)
    requires SplitTable(r, nodes', n, at)
    ensures Live(nodes', m) == Live(r.nodes, m) + (if m == r.nodes[n].parent.value then {NextId(r)} else {})
    ensures forall c :: c in Live(r.nodes, m) ==> nodes'[c].sort == r.nodes[c].sort
  {
    forall c ensures c in Live(nodes', m) <==> c in Live(r.nodes, m) || (c == NextId(r) && m == r.nodes[n].parent.value)
    {
      if c in r.nodes { SplitKept(r, nodes', n, at, c); }
    }
    forall c | c in Live(r.nodes, m) ensures nodes'[c].sort == r.nodes[c].sort { SplitKept(r, nodes', n, at, c); }
  }

  /** A node that was there keeps everything but its text. */
  lemma SplitKept(r: Replica, nodes': Nodes, n: OpId, at: nat, c: OpId)
    requires SplitTable(r, nodes', n, at) && c in r.nodes
    ensures c in nodes' && nodes'[c].parent == r.nodes[c].parent && nodes'[c].tomb == r.nodes[c].tomb
    ensures nodes'[c].sort == r.nodes[c].sort && (c != n ==> nodes'[c].body == r.nodes[c].body)
  {
  }

  lemma SplitElsewhere(r: Replica, nodes': Nodes, n: OpId, at: nat, m: OpId)
    requires IsSplit(r, nodes', n, at) && m != r.nodes[n].parent.value
    ensures Children(nodes', m) == Children(r.nodes, m) && n !in Children(r.nodes, m)
            && NextId(r) !in Children(r.nodes, m)
  {
    SplitLive(r, nodes', n, at, m);
    SameChildren(r.nodes, nodes', r.counter, r.counter + 1, r.peer, m);
    assert n !in Live(r.nodes, m) && NextId(r) !in Live(r.nodes, m);
    assert Members(Children(r.nodes, m)) == Live(r.nodes, m);
  }

  lemma SplitHere(r: Replica, nodes': Nodes, n: OpId, at: nat)
    requires IsSplit(r, nodes', n, at)
    ensures var order := Children(r.nodes, r.nodes[n].parent.value);
            && NextId(r) !in order
            && Children(nodes', r.nodes[n].parent.value) == Inserted(order, Slot(order, Some(n)), NextId(r))
  {
    var p := r.nodes[n].parent.value;
    var order := Children(r.nodes, p);
    SplitLive(r, nodes', n, at, p);
    TailKey(r, nodes', n, at, order);
    InsertedChild(r.nodes, nodes', r.counter, r.peer, p, NextId(r), Slot(order, Some(n)));
    assert NextId(r) !in Members(order);
  }

  lemma TailKey(r: Replica, nodes': Nodes, n: OpId, at: nat, order: seq<OpId>)
    requires SplitTable(r, nodes', n, at) && order == Children(r.nodes, r.nodes[n].parent.value)
    ensures NextId(r) in nodes' && nodes'[NextId(r)].sort == KeyAt(r.nodes, order, Slot(order, Some(n)), r.peer)
  {
  }

  lemma InsertedAfter(order: seq<OpId>, i: nat, t: OpId)
    requires i < |order|
    ensures order == order[..i] + [order[i]] + order[i + 1..]
    ensures Inserted(order, i + 1, t) == order[..i] + [order[i], t] + order[i + 1..]
  {
    assert order[..i + 1] == order[..i] + [order[i]];
  }

  /** Splitting a live leaf puts the tail right after it and touches nothing else. */
  lemma SplitHalves(r: Replica, nodes': Nodes, n: OpId, at: nat)
    requires IsSplit(r, nodes', n, at) && r.nodes[n].tomb.None?
    ensures var p := r.nodes[n].parent.value;
            var order := Children(r.nodes, p);
            var i := IndexOf(order, n);
            i < |order| && Halves(r.nodes, nodes', p, n, NextId(r), order[..i], order[i + 1..])
  {
    var p := r.nodes[n].parent.value;
    SplitHalfHere(r, nodes', n, at);
    SplitHalfText(r, nodes', n, at);
    forall m | m in r.nodes && m != p
      ensures Children(nodes', m) == Children(r.nodes, m) && n !in Children(r.nodes, m)
              && NextId(r) !in Children(r.nodes, m)
    {
      SplitElsewhere(r, nodes', n, at, m);
    }
  }

  lemma SplitHalfText(r: Replica, nodes': Nodes, n: OpId, at: nat)
    requires SplitTable(r, nodes', n, at)
    ensures HalfText(r.nodes, nodes', n, NextId(r))
  {
    forall c | c in r.nodes && c != n && c != NextId(r) ensures c in nodes' && r.nodes[c].body == nodes'[c].body {
      SplitKept(r, nodes', n, at, c);
    }
    var text := r.nodes[n].body.text;
    assert text == text[..at] + text[at..];
  }

  lemma SplitHalfHere(r: Replica, nodes': Nodes, n: OpId, at: nat)
    requires IsSplit(r, nodes', n, at) && r.nodes[n].tomb.None?
    ensures var p := r.nodes[n].parent.value;
            var order := Children(r.nodes, p);
            var i := IndexOf(order, n);
            i < |order| && HalfHere(r.nodes, nodes', p, n, NextId(r), order[..i], order[i + 1..])
  {
    var p := r.nodes[n].parent.value;
    var order := Children(r.nodes, p);
    var i := IndexOf(order, n);
    assert n in Members(order);
    SplitHere(r, nodes', n, at);
    InsertedAfter(order, i, NextId(r));
    ChildrenOnce(r.nodes, r.counter, r.peer, p, i);
  }

  lemma ChildrenOnce(nodes: Nodes, bound: int, peer: nat, p: OpId, i: nat)
    requires NodesInv(nodes, bound, peer) && i < |Children(nodes, p)|
    ensures Children(nodes, p)[i] !in Children(nodes, p)[..i] + Children(nodes, p)[i + 1..]
  {
    ChildrenAscend(nodes, bound, peer, p);
    var order := Children(nodes, p);
    forall j | 0 <= j < |order| && j != i ensures order[j] != order[i] {
      assert NodeLess(nodes, order[if i < j then i else j], order[if i < j then j else i]);
      if order[i] in nodes { KeyLessTotal(nodes[order[i]].sort, nodes[order[i]].sort); }
    }
  }

  /** Splitting a live leaf never changes the document. */
  lemma SplitKeepsRender(r: Replica, n: OpId, at: nat)
    requires LocalInv(r) && IsLeaf(r.nodes, n) && at <= |r.nodes[n].body.text| && HasParent(r.nodes, n)
             && r.nodes[n].tomb.None?
    ensures LocalInv(Perform(r, Split(n, at))) && Render(Perform(r, Split(n, at))) == Render(r)
  {
    var r' := Perform(r, Split(n, at));
    var p := r.nodes[n].parent.value;
    var order := Children(r.nodes, p);
    var i := IndexOf(order, n);
    SplitOk(r, n, at);
    SplitIs(r, n, at);
    SplitHalves(r, r'.nodes, n, at);
    ShapeMore(r.nodes, r.counter, r.counter + 1);
    BoundFree(r.nodes, r.counter, r.counter + 1, ROOT);
    HalvesText(r.nodes, r'.nodes, r.counter + 1, p, n, NextId(r), order[..i], order[i + 1..], ROOT);
  }

  lemma ShapeMore(nodes: Nodes, b: int, c: int)
    requires Shape(nodes, b) && b <= c
    ensures Shape(nodes, c)
  {
    forall n | n in nodes ensures Hangs(nodes, c, n) { assert Hangs(nodes, b, n); }
  }

  // ---------------------------------------------------------------- merge

  /** The table after a merge, with what is known about both tables. */
  ghost predicate IsMerge(r: Replica, nodes': Nodes, l: OpId, x: OpId) {
    && LocalInv(r) && IsLeaf(r.nodes, l) && IsLeaf(r.nodes, x) && HasParent(r.nodes, l) && Adjacent(r.nodes, l, x)
    && l != x
    && nodes' == r.nodes[l := Joined(r, l, x)][x := Buried(r.nodes[x], NextId(r))]
    && NodesInv(nodes', r.counter + 1, r.peer)
  }

  function Joined(r: Replica, l: OpId, x: OpId): Node
    requires IsLeaf(r.nodes, l) && IsLeaf(r.nodes, x)
  {
    r.nodes[l].(body := Leaf(r.nodes[l].body.tag, r.nodes[l].body.text + r.nodes[x].body.text), head := NextId(r))
  }

  lemma MergeIs(r: Replica, l: OpId, x: OpId)
    requires LocalInv(r) && IsLeaf(r.nodes, l) && IsLeaf(r.nodes, x) && HasParent(r.nodes, l) && Adjacent(r.nodes, l, x)
    ensures IsMerge(r, Perform(r, Merge(l, x)).nodes, l, x) && Perform(r, Merge(l, x)).counter == r.counter + 1
  {
    MergeOk(r, l, x);
    AdjacentDiffer(r, l, x);
    MergedNodes(r, l, x);
  }

  lemma MergedNodes(r: Replica, l: OpId, x: OpId)
    requires IsLeaf(r.nodes, l) && IsLeaf(r.nodes, x) && HasParent(r.nodes, l) && Adjacent(r.nodes, l, x) && l != x
    ensures var r' := Perform(r, Merge(l, x));
            && r'.nodes == r.nodes[l := Joined(r, l, x)][x := Buried(r.nodes[x], NextId(r))]
            && r'.counter == r.counter + 1 && r'.peer == r.peer
  {
    MergeCommits(r, l, x);
  }

  lemma AdjacentDiffer(r: Replica, l: OpId, x: OpId)
    requires LocalInv(r) && HasParent(r.nodes, l) && Adjacent(r.nodes, l, x)
    ensures l != x
  {
    var p := r.nodes[l].parent.value;
    ChildrenAscend(r.nodes, r.counter, r.peer, p);
    var order := Children(r.nodes, p);
    var i := IndexOf(order, l);
    assert NodeLess(r.nodes, order[i], order[i + 1]);
    KeyLessTotal(r.nodes[l].sort, r.nodes[l].sort);
  }

  lemma AdjacentLive(r: Replica, l: OpId, x: OpId)
    requires HasParent(r.nodes, l) && Adjacent(r.nodes, l, x)
    ensures l in Live(r.nodes, r.nodes[l].parent.value) && x in Live(r.nodes, r.nodes[l].parent.value)
  {
    var order := Children(r.nodes, r.nodes[l].parent.value);
    var i := IndexOf(order, l);
    assert order[i] in Members(order) && order[i + 1] in Members(order);
  }

  lemma MergeLive(r: Replica, nodes': Nodes, l: OpId, x: OpId, m: OpId)
    requires IsMerge(r, nodes', l, x)
    ensures Live(nodes', m) == Live(r.nodes, m) - {x}
    ensures x in Live(r.nodes, m) || l in Live(r.nodes, m) ==> m == r.nodes[l].parent.value
    ensures forall c :: c in Live(nodes', m) ==> nodes'[c].sort == r.nodes[c].sort
  {
    AdjacentLive(r, l, x);
    MergedLive(r.nodes, nodes', l, x, NextId(r), m);
  }

  lemma MergedLive(nodes: Nodes, nodes': Nodes, l: OpId, x: OpId, id: OpId, m: OpId)
    requires l in nodes && x in nodes && l in nodes' && nodes' == nodes[l := nodes'[l]][x := Buried(nodes[x], id)]
    requires l != x && nodes'[l].parent == nodes[l].parent && nodes'[l].tomb == nodes[l].tomb
    requires nodes'[l].sort == nodes[l].sort
    ensures Live(nodes', m) == Live(nodes, m) - {x}
    ensures forall c :: c in Live(nodes', m) ==> nodes'[c].sort == nodes[c].sort
  {
    forall c | c in nodes && c != x ensures c in Live(nodes', m) <==> c in Live(nodes, m) {}
  }

  lemma MergeElsewhere(r: Replica, nodes': Nodes, l: OpId, x: OpId, m: OpId)
    requires IsMerge(r, nodes', l, x) && m != r.nodes[l].parent.value
    ensures Children(r.nodes, m) == Children(nodes', m) && l !in Children(nodes', m) && x !in Children(nodes', m)
  {
    MergeLive(r, nodes', l, x, m);
    SameChildren(nodes', r.nodes, r.counter + 1, r.counter, r.peer, m);
    assert Members(Children(r.nodes, m)) == Live(r.nodes, m);
  }

  function Removed(order: seq<OpId>, k: nat): (r: seq<OpId>)
    requires k < |order|
    ensures |r| == |order| - 1 && forall i :: 0 <= i < |r| ==> r[i] == order[if i < k then i else i + 1]
  {
    order[..k] + order[k + 1..]
  }

  lemma RemovedMembers(order: seq<OpId>, k: nat)
    requires k < |order| && order[k] !in order[..k] + order[k + 1..]
    ensures Members(Removed(order, k)) == Members(order) - {order[k]}
  {
    assert order == order[..k] + [order[k]] + order[k + 1..];
  }

  lemma RemovedAscends(a: Nodes, b: Nodes, order: seq<OpId>, k: nat)
    requires Ascending(a, order) && k < |order| && SameKeys(a, b, Removed(order, k))
    ensures Ascending(b, Removed(order, k))
  {
    var r := Removed(order, k);
    forall i, j | 0 <= i < j < |r| ensures NodeLess(b, r[i], r[j]) {
      assert NodeLess(a, order[if i < k then i else i + 1], order[if j < k then j else j + 1]);
    }
  }

  lemma RemovedChild(r: Replica, nodes': Nodes, l: OpId, x: OpId, k: nat)
    requires IsMerge(r, nodes', l, x) && k < |Children(r.nodes, r.nodes[l].parent.value)|
             && Children(r.nodes, r.nodes[l].parent.value)[k] == x
    ensures Children(nodes', r.nodes[l].parent.value) == Removed(Children(r.nodes, r.nodes[l].parent.value), k)
  {
    var p := r.nodes[l].parent.value;
    var order := Children(r.nodes, p);
    ChildrenAscend(r.nodes, r.counter, r.peer, p);
    ChildrenAscend(nodes', r.counter + 1, r.peer, p);
    ChildrenOnce(r.nodes, r.counter, r.peer, p, k);
    RemovedMembers(order, k);
    MergeLive(r, nodes', l, x, p);
    var order' := Removed(order, k);
    forall i | 0 <= i < |order'| ensures order'[i] in r.nodes && order'[i] in nodes'
        && nodes'[order'[i]].sort == r.nodes[order'[i]].sort {
      assert order'[i] in Members(order');
    }
    RemovedAscends(r.nodes, nodes', order, k);
    AscendingUnique(nodes', order', Children(nodes', p));
  }

  lemma AroundPair(order: seq<OpId>, i: nat)
    requires i + 1 < |order|
    requires order[i] !in order[..i] + order[i + 1..] && order[i + 1] !in order[..i + 1] + order[i + 2..]
    ensures order == order[..i] + [order[i], order[i + 1]] + order[i + 2..]
    ensures Removed(order, i + 1) == order[..i] + [order[i]] + order[i + 2..]
    ensures order[i] !in order[..i] + order[i + 2..] && order[i + 1] !in order[..i] + order[i + 2..]
  {
    assert order[..i + 1] == order[..i] + [order[i]];
    assert order[i + 1..] == [order[i + 1]] + order[i + 2..];
  }

  lemma MergeHere(r: Replica, nodes': Nodes, l: OpId, x: OpId)
    requires IsMerge(r, nodes', l, x)
    ensures var p := r.nodes[l].parent.value;
            var order := Children(r.nodes, p);
            var i := IndexOf(order, l);
            i + 1 < |order| && HalfHere(nodes', r.nodes, p, l, x, order[..i], order[i + 2..])
  {
    var p := r.nodes[l].parent.value;
    var order := Children(r.nodes, p);
    var i := IndexOf(order, l);
    RemovedChild(r, nodes', l, x, i + 1);
    ChildrenOnce(r.nodes, r.counter, r.peer, p, i);
    ChildrenOnce(r.nodes, r.counter, r.peer, p, i + 1);
    AroundPair(order, i);
  }

  /** Merging two adjacent live leaves never changes the document. */
  lemma MergeKeepsRender(r: Replica, l: OpId, x: OpId)
    requires LocalInv(r) && IsLeaf(r.nodes, l) && IsLeaf(r.nodes, x) && HasParent(r.nodes, l) && Adjacent(r.nodes, l, x)
    ensures LocalInv(Perform(r, Merge(l, x))) && Render(Perform(r, Merge(l, x))) == Render(r)
  {
    var nodes' := Perform(r, Merge(l, x)).nodes;
    var p := r.nodes[l].parent.value;
    var order := Children(r.nodes, p);
    var i := IndexOf(order, l);
    MergeOk(r, l, x);
    MergeIs(r, l, x);
    MergeHalves(r, nodes', l, x);
    ShapeMore(r.nodes, r.counter, r.counter + 1);
    BoundFree(r.nodes, r.counter, r.counter + 1, ROOT);
    HalvesText(nodes', r.nodes, r.counter + 1, p, l, x, order[..i], order[i + 2..], ROOT);
  }

  lemma MergeHalves(r: Replica, nodes': Nodes, l: OpId, x: OpId)
    requires IsMerge(r, nodes', l, x)
    ensures var p := r.nodes[l].parent.value;
            var order := Children(r.nodes, p);
            var i := IndexOf(order, l);
            i + 1 < |order| && Halves(nodes', r.nodes, p, l, x, order[..i], order[i + 2..])
  {
    MergeHere(r, nodes', l, x);
    MergeHalfElsewhere(r, nodes', l, x);
    MergeHalfText(r.nodes, nodes', l, x, NextId(r));
  }

  lemma MergeHalfElsewhere(r: Replica, nodes': Nodes, l: OpId, x: OpId)
    requires IsMerge(r, nodes', l, x)
    ensures HalfElsewhere(nodes', r.nodes, r.nodes[l].parent.value, l, x)
  {
    forall m | m in nodes' && m != r.nodes[l].parent.value
      ensures Children(r.nodes, m) == Children(nodes', m) && l !in Children(nodes', m) && x !in Children(nodes', m)
    {
      MergeElsewhere(r, nodes', l, x, m);
    }
  }

  lemma MergeHalfText(nodes: Nodes, nodes': Nodes, l: OpId, x: OpId, id: OpId)
    requires IsLeaf(nodes, l) && IsLeaf(nodes, x) && l != x && l in nodes' && x in nodes'
    requires nodes' == nodes[l := nodes'[l]][x := Buried(nodes[x], id)] && nodes'[l].body.Leaf?
    requires nodes'[l].body.text == nodes[l].body.text + nodes[x].body.text
    ensures HalfText(nodes', nodes, l, x)
  {
  }

  /**
    After any run of a replica's own edits, no merge changes the rendered document, accepted or refused, and no split
    does unless it is of a buried leaf.
   */
  lemma SplitsAndMergesKeepRender(peer: nat, edits: seq<Edit>, e: Edit)
    requires e.Split? || e.Merge?
    requires var nodes := PerformAll(peer, edits).nodes; e.Split? && e.node in nodes ==> nodes[e.node].tomb.None?
    ensures LocalInv(PerformAll(peer, edits)) && LocalInv(PerformAll(peer, edits + [e]))
    ensures Render(PerformAll(peer, edits + [e])) == Render(PerformAll(peer, edits))
  {
    var r := PerformAll(peer, edits);
    LocalRunOk(peer, edits);
    LocalRunOk(peer, edits + [e]);
    assert (edits + [e])[..|edits|] == edits;
    if OpOf(r, e).Some? {
      match e
      case Split(n, at) => SplitKeepsRender(r, n, at);
      case Merge(l, x) => MergeKeepsRender(r, l, x);
    }
  }
}
