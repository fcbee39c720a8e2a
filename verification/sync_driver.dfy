/** One tick of the full-duplex driver: replay, drain, receive, acknowledge. */
module SyncDriver {
  import opened ReliableSync
  import opened Outbox
  import opened OutboxStores

  /** What arrives: a data frame, or one of the control frames. */
  datatype Message<!S> = Data(frame: Frame<S>) | OutboxAck(through: Epoch) | ResyncRequest(from: Epoch)

  function DataOf<S>(msgs: seq<Message<S>>): seq<Frame<S>> {
    if msgs == [] then []
    else
      var before := DataOf(msgs[..|msgs| - 1]);
      if msgs[|msgs| - 1].Data? then before + [msgs[|msgs| - 1].frame] else before
  }

  /** The coordinator after a batch of frames, and the frames handed to the host. */
  function Coordinated<S>(c: Coordinator, frames: seq<Frame<S>>): (Coordinator, seq<Frame<S>>) {
    if frames == [] then (c, [])
    else
      var (c1, applied) := Coordinated(c, frames[..|frames| - 1]);
      var (c2, action) := Classify(c1, HeadOf(frames[|frames| - 1]));
      (c2, if action == Apply then applied + [frames[|frames| - 1]] else applied)
  }

  function FoldAll<S>(projection: S, frames: seq<Frame<S>>): S {
    if frames == [] then projection else Fold(FoldAll(projection, frames[..|frames| - 1]), frames[|frames| - 1])
  }

  /** Folding what a tick hands over is receiving what came in. */
  lemma {:induction false} FoldingApplied<S>(r: Receiver<S>, frames: seq<Frame<S>>)
    ensures var (c, applied) := Coordinated(r.c, frames);
            ReceiveAll(r, frames).c == c && ReceiveAll(r, frames).projection == FoldAll(r.projection, applied)
    decreases |frames|
  {
    if frames != [] {
      var before := frames[..|frames| - 1];
      FoldingApplied(r, before);
      var (c1, applied) := Coordinated(r.c, before);
      var (c2, action) := Classify(c1, HeadOf(frames[|frames| - 1]));
      if action == Apply { assert (applied + [frames[|frames| - 1]])[..|applied|] == applied; }
    }
  }

  /** So a host that folds every tick's frames always shows the sender's state at its epoch. */
  lemma TickKeepsTruth<S>(at: Epoch -> S, c: Coordinator, projection: S, frames: seq<Frame<S>>)
    requires projection == at(c.lastEpoch) && forall f :: f in frames ==> Honest(at, f)
    ensures var (c', applied) := Coordinated(c, frames); FoldAll(projection, applied) == at(c'.lastEpoch)
  {
    var r := Receiver(c, projection, []);
    FoldingApplied(r, frames);
    ProjectionIsTrue(at, r, frames);
  }

  /** The greatest acknowledgement among the messages, at least `acked`. */
  function AckedBy<S>(acked: Epoch, msgs: seq<Message<S>>): Epoch {
    if msgs == [] then acked
    else
      var before := AckedBy(acked, msgs[..|msgs| - 1]);
      if msgs[|msgs| - 1].OutboxAck? then Max(before, msgs[|msgs| - 1].through) else before
  }

  lemma PutMore<S>(recs: seq<Record<Frame<S>>>, rec: Record<Frame<S>>)
    ensures PutFrames(recs + [rec]) == if rec.Put? then PutFrames(recs) + [rec.frame] else PutFrames(recs)
  {
    assert (recs + [rec])[..|recs|] == recs;
  }

  lemma StagedHead<S>(sent: seq<Frame<S>>, staged: seq<(Epoch, Frame<S>)>)
    requires staged != []
    ensures sent + Payloads(staged) == (sent + [staged[0].1]) + Payloads(staged[1..])
  {
    assert Payloads(staged) == [staged[0].1] + Payloads(staged[1..]);
  }

  class Driver<S> {
    const outbox: StoreOutbox<Frame<S>>
    const coordinator: ResyncCoordinator
    var pending: seq<(Epoch, Frame<S>)>
    var peerAckedThrough: Epoch
    var ackOwed: bool
    var replayPending: bool
    var stalled: bool

    constructor (outbox: StoreOutbox<Frame<S>>, coordinator: ResyncCoordinator)
      ensures this.outbox == outbox && this.coordinator == coordinator
      ensures pending == [] && peerAckedThrough == 0 && !ackOwed && !replayPending && !stalled
    {
      this.outbox, this.coordinator := outbox, coordinator;
      pending, peerAckedThrough, ackOwed, replayPending, stalled := [], 0, false, false, false;
    }

    method Enqueue(epoch: Epoch, frame: Frame<S>)
      modifies this`pending
      ensures pending == old(pending) + [(epoch, frame)]
    {
      pending := pending + [(epoch, frame)];
    }

    method OnReconnect()
      modifies this`replayPending, this`ackOwed, this`stalled
      ensures replayPending && ackOwed && !stalled
    {
      replayPending, ackOwed, stalled := true, true, false;
    }

    /**
      Step 1: after a reconnect, send what the outbox retains, oldest first; a failed send ends it and is retried after
      the next reconnect.  `up` says which sends succeed.
     */
    method ReplayUnacked(up: nat -> bool) returns (sent: seq<Frame<S>>)
      modifies this`replayPending, this`stalled, outbox
      ensures !old(replayPending) ==>
              sent == [] && stalled == old(stalled) && !replayPending && outbox.ackedThrough == old(outbox.ackedThrough)
      ensures old(replayPending) ==>
                var all := Payloads(Replay(Alone(outbox.store.records, old(outbox.ackedThrough)), 0, peerAckedThrough));
                && sent <= all && (sent != all <==> replayPending) && (replayPending ==> stalled)
                && (!replayPending ==> stalled == old(stalled))
                && (forall i :: 0 <= i < |sent| ==> up(i)) && (replayPending ==> !up(|sent|))
    {
      sent := [];
      if replayPending {
        replayPending := false;
        var entries := outbox.ReplayFrom(peerAckedThrough);
        while |sent| < |entries|
          invariant |sent| <= |entries| && sent == Payloads(entries)[..|sent|] && !replayPending
                    && stalled == old(stalled)
          invariant forall i :: 0 <= i < |sent| ==> up(i)
        {
          if !up(|sent|) {
            stalled, replayPending := true, true;
            return;
          }
          sent := sent + [entries[|sent|].1];
        }
      }
    }

    /**
      Step 2: append each staged frame to the outbox, then send it; the first failed send stops the drain.  No staged
      frame is lost: what was put and what is staged, put together, never changes.
     */
    method DrainPending(up: nat -> bool) returns (sent: seq<Frame<S>>)
      modifies this`pending, this`stalled, outbox.store
      ensures old(stalled) ==>
              sent == [] && pending == old(pending) && outbox.store.records == old(outbox.store.records)
      ensures PutFrames(outbox.store.records) + Payloads(pending) == PutFrames(old(outbox.store.records))
              + Payloads(old(pending))
      ensures old(outbox.store.records) <= outbox.store.records
      ensures !stalled ==> pending == []
      ensures sent <= Payloads(old(pending))
      ensures |old(pending)| - |pending| - |sent| == (if stalled && !old(stalled) then 1 else 0)
    {
      sent := [];
      ghost var all := Payloads(pending);
      ghost var recs0 := outbox.store.records;
      while !stalled && pending != []
        invariant stalled == old(stalled)
        invariant all == sent + Payloads(pending)
        invariant stalled ==> outbox.store.records == recs0 && sent == [] && pending == old(pending)
        invariant recs0 <= outbox.store.records
                  && PutFrames(outbox.store.records) + Payloads(pending) == PutFrames(recs0) + all
        decreases |pending|
      {
        StagedHead(sent, pending);
        var frame := AppendNext();
        if up(|sent|) {
          sent := sent + [frame];
        } else {
          stalled := true;
          return;
        }
      }
    }

    /** Moves the first staged frame to the outbox. */
    method AppendNext() returns (frame: Frame<S>)
      requires pending != []
      modifies this`pending, outbox.store
      ensures frame == old(pending)[0].1 && pending == old(pending)[1..]
      ensures outbox.store.records == old(outbox.store.records) + [Put(old(pending)[0].0, frame)]
      ensures PutFrames(outbox.store.records) + Payloads(pending) == PutFrames(old(outbox.store.records))
              + Payloads(old(pending))
    {
      var entry := pending[0];
      StagedHead(PutFrames(outbox.store.records), pending);
      PutMore(outbox.store.records, Put(entry.0, entry.1));
      outbox.AppendFrame(entry.0, entry.1);
      pending := pending[1..];
      frame := entry.1;
    }

    /** Step 3: route what came in. */
    method ReceiveAll(inbound: seq<Message<S>>) returns (applied: seq<Frame<S>>)
      modifies this`peerAckedThrough, this`ackOwed, outbox, outbox.store, coordinator
      ensures (coordinator.Model(), applied) == Coordinated(old(coordinator.Model()), DataOf(inbound))
      ensures peerAckedThrough == AckedBy(old(peerAckedThrough), inbound)
      ensures ackOwed <==> old(ackOwed) || applied != []
      ensures PutFrames(outbox.store.records) == PutFrames(old(outbox.store.records))
    {
      applied := [];
      for i := 0 to |inbound|
        invariant (coordinator.Model(), applied) == Coordinated(old(coordinator.Model()), DataOf(inbound[..i]))
        invariant peerAckedThrough == AckedBy(old(peerAckedThrough), inbound[..i])
        invariant ackOwed <==> old(ackOwed) || applied != []
        invariant PutFrames(outbox.store.records) == PutFrames(old(outbox.store.records))
      {
        assert inbound[..i + 1][..i] == inbound[..i];
        match inbound[i]
        case OutboxAck(through) =>
          if through > peerAckedThrough { peerAckedThrough := through; }
          AckedKeepsPuts(outbox.store.records, outbox.ackedThrough, through);
          outbox.AckThrough(through);
        case ResyncRequest(_) =>
        case Data(f) =>
          var data := DataOf(inbound[..i]);
          assert (data + [f])[..|data|] == data;
          var action;
          match f {
            case Delta(base, epoch, _) => action := coordinator.IngestDelta(base, epoch);
            case Snapshot(epoch, _) => action := coordinator.IngestSnapshot(epoch);
          }
          if action == Apply {
            ackOwed := true;
            applied := applied + [f];
          }
      }
      assert inbound[..|inbound|] == inbound;
    }
  }

  /** An acknowledgement puts no frame. */
  lemma AckedKeepsPuts<S>(recs: seq<Record<Frame<S>>>, acked: Epoch, through: Epoch)
    ensures var w := Take(Take(Alone(recs, acked), Ack(0, through)), Prune(0)); PutFrames(w.recs) == PutFrames(recs)
  {
    var w1 := Take(Alone(recs, acked), Ack(0, through));
    PutMore(recs, Cursor(w1.doomed[0]));
    PutMore(w1.recs, Delete(w1.doomed[0]));
  }
}
