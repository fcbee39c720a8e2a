/** The replica object: its loops against the functions of the model. */
module TreeReplica {
  import opened Basics
  import opened TreeOps

  class LosslessTree {
    const peer: nat
    var counter: int
    var nodes: map<OpId, Node>
    var frontier: Frontier
    var log: seq<Op>
    var buffered: seq<Op>

    function Model(): Replica
      reads this
    {
      Replica(peer, counter, nodes, frontier, log, buffered)
    }

    constructor (peer: nat)
      ensures Model() == NewReplica(peer)
    {
      this.peer := peer;
      counter := 0;
      nodes := map[ROOT := Node(None, SortKey([], 0), ROOT, Element("root"), None, ROOT)];
      frontier := map[];
      log := [];
      buffered := [];
    }

    /** TreeVersionFrontier.Observe with TreeDotRange.Observe. */
    method ObserveId(id: OpId)
      modifies this`frontier
      ensures frontier == Observe(old(frontier), id)
    {
      var r := if id.peer in frontier then frontier[id.peer] else DotRange(0, {});
      if id.counter > r.contiguous { r := CollapseFrom(DotRange(r.contiguous, r.sparse + {id.counter})); }
      frontier := frontier[id.peer := r];
    }

    method CollapseFrom(start: DotRange) returns (r: DotRange)
      ensures r == Collapse(start)
    {
      r := start;
      while r.contiguous + 1 in r.sparse
        invariant Collapse(r) == Collapse(start)
        decreases |r.sparse|
      {
        var next := r.contiguous + 1;
        r := DotRange(next, r.sparse - {next});
      }
    }

    /** commitLocal: applyOp, then record. */
    method CommitOp(op: Op)
      modifies this`nodes, this`frontier, this`log
      ensures Model() == Commit(old(Model()), op)
    {
      nodes := ApplyOp(nodes, op);
      ObserveId(op.id);
      log := log + [op];
    }

    /** drainBuffered: passes over the buffer until one of them applies nothing. */
    method DrainBuffered()
      modifies this`nodes, this`frontier, this`log, this`buffered
      ensures Model() == Drain(old(Model()))
    {
      var progressed := true;
      while progressed
        invariant (if progressed then Drain(Model()) else Model()) == Drain(old(Model()))
        decreases |buffered|, progressed
      {
        ghost var before := Model();
        progressed := SweepBuffered();
        assert progressed ==> |buffered| < |before.buffered|;
      }
    }

    /** One pass of drainBuffered; the result says whether an op was applied. */
    method SweepBuffered() returns (progressed: bool)
      modifies this`nodes, this`frontier, this`log, this`buffered
      ensures Model() == Pass(old(Model()).(buffered := []), old(buffered))
      ensures progressed <==> |log| != |old(log)|
    {
      progressed := false;
      var pending := buffered;
      buffered := [];
      ghost var start := Model();
      for i := 0 to |pending|
        invariant Pass(Model(), pending[i..]) == Pass(start, pending)
        invariant |old(log)| <= |log| && (progressed <==> |log| != |old(log)|)
      {
        var op := pending[i];
        assert pending[i..][0] == op && pending[i..][1..] == pending[i + 1..];
        if Contains(frontier, op.id) {
        } else if Ready(nodes, frontier, op) {
          CommitOp(op);
          progressed := true;
        } else {
          buffered := buffered + [op];
        }
      }
      assert pending[|pending|..] == [];
    }

    method Update(ops: seq<Op>)
      modifies this
      ensures Model() == ApplyUpdate(old(Model()), ops)
    {
      for i := 0 to |ops|
        invariant TakeIn(Model(), ops[i..]) == TakeIn(old(Model()), ops)
      {
        var op := ops[i];
        assert ops[i..][0] == op && ops[i..][1..] == ops[i + 1..];
        if op.id.counter > counter { counter := op.id.counter; }
        if !Contains(frontier, op.id) { buffered := buffered + [op]; }
      }
      assert ops[|ops|..] == [];
      DrainBuffered();
    }

    /** The ops a partner with frontier `their` lacks, before they are sorted by id. */
    method Diff(their: Frontier) returns (ops: seq<Op>)
      ensures ops == Missing(log, their)
    {
      ops := [];
      for i := 0 to |log|
        invariant ops == Missing(log[..i], their)
      {
        assert log[..i + 1][..i] == log[..i];
        if !Contains(their, log[i].id) { ops := ops + [log[i]]; }
      }
      assert log[..|log|] == log;
    }
  }
}
