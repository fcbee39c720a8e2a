/**
  The lossless tree document: operations, the node table, the dotted version frontier and causal buffering.

  The embedded text of a leaf is a string here, so an edit carries the text it leaves behind.
 */
module TreeOps {
  import opened Basics

  datatype OpId = OpId(counter: int, peer: nat)

  const ROOT := OpId(0, 0)

  predicate Less(a: OpId, b: OpId) {
    a.counter < b.counter || (a.counter == b.counter && a.peer < b.peer)
  }

  function MinOpId(a: OpId, b: OpId): OpId {
    if Less(b, a) then b else a
  }

  datatype SortKey = SortKey(frac: seq<int>, peer: nat)

  datatype Body = Element(kind: string) | Leaf(tag: string, text: string)

  datatype Kind =
    | CreateNode(id: OpId, parent: OpId, sort: SortKey, seed: Body)
    | Tombstone(node: OpId)
    | Reorder(node: OpId, sort: SortKey)
    | LeafEdit(node: OpId, prev: OpId, after: string)
    | SplitLeaf(node: OpId, tail: OpId, sort: SortKey, at: nat, prev: OpId)
    | MergeLeaves(left: OpId, right: OpId, prevLeft: OpId, prevRight: OpId)

  datatype Op = Op(id: OpId, kind: Kind)

  datatype Node = Node(parent: Option<OpId>, sort: SortKey, stamp: OpId, body: Body, tomb: Option<OpId>, head: OpId)

  // ---------------------------------------------------------------- the frontier

  datatype DotRange = DotRange(contiguous: int, sparse: set<int>)

  type Frontier = map<nat, DotRange>

  predicate Within(r: DotRange, counter: int) {
    counter <= r.contiguous || counter in r.sparse
  }

  /** The loop of Observe: the prefix swallows the dots that follow it. */
  function Collapse(r: DotRange): (r': DotRange)
    ensures forall c :: Within(r', c) <==> Within(r, c)
    ensures r'.contiguous + 1 !in r'.sparse && r.contiguous <= r'.contiguous
    decreases |r.sparse|
  {
    var next := r.contiguous + 1;
    if next in r.sparse then Collapse(DotRange(next, r.sparse - {next})) else r
  }

  function ObserveDot(r: DotRange, counter: int): (r': DotRange)
    ensures forall c :: Within(r', c) <==> Within(r, c) || c == counter
  {
    if counter <= r.contiguous then r else Collapse(DotRange(r.contiguous, r.sparse + {counter}))
  }

  predicate Contains(f: Frontier, id: OpId) {
    id.peer in f && Within(f[id.peer], id.counter)
  }

  function Observe(f: Frontier, id: OpId): Frontier {
    f[id.peer := ObserveDot(if id.peer in f then f[id.peer] else DotRange(0, {}), id.counter)]
  }

  // ---------------------------------------------------------------- applying

  datatype Replica = Replica(peer: nat, counter: int, nodes: map<OpId, Node>, frontier: Frontier, log: seq<Op>,
          buffered: seq<Op>)

  function NewReplica(peer: nat): Replica {
    Replica(peer, 0, map[ROOT := Node(None, SortKey([], 0), ROOT, Element("root"), None, ROOT)], map[], [], [])
  }

  function Buried(n: Node, id: OpId): Node {
    n.(tomb := if n.tomb.None? then Some(id) else Some(MinOpId(n.tomb.value, id)))
  }

  function Moved(n: Node, sort: SortKey, id: OpId): Node {
    if Less(n.stamp, id) then n.(sort := sort, stamp := id) else n
  }

  function Clamp(at: nat, n: nat): nat {
    if at > n then n else at
  }

  /** applySplit. */
  function ApplySplit(nodes: map<OpId, Node>, node: OpId, tail: OpId, sort: SortKey, at: nat,
          id: OpId): map<OpId, Node> {
    if node !in nodes || !nodes[node].body.Leaf? then nodes
    else
      var n := nodes[node];
      var cut := Clamp(at, |n.body.text|);
      var nodes1 := nodes[node := n.(body := Leaf(n.body.tag, n.body.text[..cut]), head := id)];
      if tail in nodes then nodes1
      else nodes1[tail := Node(n.parent, sort, id, Leaf(n.body.tag, n.body.text[cut..]), None, id)]
  }

  /** applyMerge. */
  function ApplyMerge(nodes: map<OpId, Node>, left: OpId, right: OpId, id: OpId): map<OpId, Node> {
    if left !in nodes || right !in nodes || !nodes[left].body.Leaf? || !nodes[right].body.Leaf? then nodes
    else
      var l := nodes[left];
      var nodes1 := nodes[left := l.(body := Leaf(l.body.tag, l.body.text + nodes[right].body.text), head := id)];
      nodes1[right := Buried(nodes1[right], id)]
  }

  /** applyOp. */
  function ApplyOp(nodes: map<OpId, Node>, op: Op): map<OpId, Node> {
    match op.kind
    case CreateNode(id, parent, sort, seed) =>
      if id in nodes then nodes else nodes[id := Node(Some(parent), sort, op.id, seed, None, op.id)]
    case Tombstone(n) =>
      if n in nodes then nodes[n := Buried(nodes[n], op.id)] else nodes
    case Reorder(n, sort) =>
      if n in nodes then nodes[n := Moved(nodes[n], sort, op.id)] else nodes
    case LeafEdit(n, _, after) =>
      if n in nodes && nodes[n].body.Leaf? then nodes[n := nodes[n].(body := Leaf(nodes[n].body.tag, after),
          head := op.id)] else nodes
    case SplitLeaf(n, tail, sort, at, _) => ApplySplit(nodes, n, tail, sort, at, op.id)
    case MergeLeaves(l, r, _, _) => ApplyMerge(nodes, l, r, op.id)
  }

  /** dependenciesReady. */
  predicate Ready(nodes: map<OpId, Node>, f: Frontier, op: Op) {
    match op.kind
    case CreateNode(_, parent, _, _) => parent in nodes
    case Tombstone(n) => n in nodes
    case Reorder(n, _) => n in nodes
    case LeafEdit(n, prev, _) => n in nodes && Contains(f, prev)
    case SplitLeaf(n, _, _, _, prev) => n in nodes && Contains(f, prev)
    case MergeLeaves(l, r, pl, pr) => l in nodes && r in nodes && Contains(f, pl) && Contains(f, pr)
  }

  /** commitLocal, and the accepting branch of drainBuffered. */
  function Commit(r: Replica, op: Op): Replica {
    r.(nodes := ApplyOp(r.nodes, op), frontier := Observe(r.frontier, op.id), log := r.log + [op])
  }

  /** One buffered op: skipped, applied or kept. */
  function Offer(r: Replica, op: Op): Replica {
    if Contains(r.frontier, op.id) then r
    else if Ready(r.nodes, r.frontier, op) then Commit(r, op)
    else r.(buffered := r.buffered + [op])
  }

  /** One pass over what was buffered; progress shows in the log. */
  function Pass(r: Replica, pending: seq<Op>): (r': Replica)
    ensures |r'.log| + |r'.buffered| <= |r.log| + |r.buffered| + |pending| && |r.log| <= |r'.log|
    decreases |pending|
  {
    if pending == [] then r else Pass(Offer(r, pending[0]), pending[1..])
  }

  /** drainBuffered. */
  function Drain(r: Replica): Replica
    decreases |r.buffered|
  {
    var r1 := Pass(r.(buffered := []), r.buffered);
    if |r1.log| == |r.log| then r1 else Drain(r1)
  }

  function Max(a: int, b: int): int {
    if a < b then b else a
  }

  /** The intake loop of ApplyUpdate. */
  function TakeIn(r: Replica, ops: seq<Op>): (r': Replica)
    decreases |ops|
  {
    if ops == [] then r else TakeIn(TakeOne(r, ops[0]), ops[1..])
  }

  function TakeOne(r: Replica, op: Op): Replica {
    var r1 := r.(counter := Max(r.counter, op.id.counter));
    if Contains(r.frontier, op.id) then r1 else r1.(buffered := r.buffered + [op])
  }

  function ApplyUpdate(r: Replica, ops: seq<Op>): Replica {
    Drain(TakeIn(r, ops))
  }

  /** The ops of `log` that a frontier lacks; Diff also sorts them by id. */
  function Missing(log: seq<Op>, their: Frontier): seq<Op> {
    if log == [] then []
    else
      var before := Missing(log[..|log| - 1], their);
      if Contains(their, log[|log| - 1].id) then before else before + [log[|log| - 1]]
  }

  lemma {:induction false} MissingHas(log: seq<Op>, their: Frontier, op: Op)
    ensures op in Missing(log, their) <==> op in log && !Contains(their, op.id)
  {
    if log != [] {
      assert log == log[..|log| - 1] + [log[|log| - 1]];
      MissingHas(log[..|log| - 1], their, op);
    }
  }
}
