/** The stores and the outbox as objects. */
module OutboxStores {
  import opened Basics
  import opened ReliableSync
  import opened Outbox

  /** A store seen by one handle, number 0, with the cursor it remembers. */
  function Alone<F>(recs: seq<Record<F>>, acked: Epoch): World<F> {
    var none: map<nat, Epoch> := map[];
    World(recs, none[0 := acked], none)
  }

  /** FileOutboxStore over its records. */
  class JournalStore<F> {
    var records: seq<Record<F>>

    constructor ()
      ensures records == []
    {
      records := [];
    }

    method Append(rec: Record<F>)
      modifies this
      ensures records == old(records) + [rec]
    {
      records := records + [rec];
    }

    method LoadCursor() returns (cursor: Epoch)
      ensures cursor == CursorOf(records)
    {
      cursor := 0;
      for i := 0 to |records|
        invariant cursor == CursorOf(records[..i])
      {
        assert records[..i + 1][..i] == records[..i];
        if records[i].Cursor? && records[i].epoch > cursor { cursor := records[i].epoch; }
      }
      assert records[..|records|] == records;
    }

    method ScanAfter(cursor: Epoch) returns (r: seq<(Epoch, F)>)
      ensures r == JournalScan(records, cursor)
    {
      var entries: map<Epoch, F> := map[];
      var deleted := 0;
      for i := 0 to |records|
        invariant entries == Entries(records[..i]) && deleted == DeletedThrough(records[..i])
      {
        assert records[..i + 1][..i] == records[..i];
        match records[i]
        case Put(e, f) => entries := entries[e := f];
        case Delete(e) => if e > deleted { deleted := e; }
        case Cursor(_) =>
      }
      assert records[..|records|] == records;
      var from := if deleted > cursor then deleted else cursor;
      var epochs := Sorted(After(entries, from));
      r := [];
      for i := 0 to |epochs|
        invariant |r| == i && forall k :: 0 <= k < i ==> epochs[k] in entries && r[k] == (epochs[k], entries[epochs[k]])
      {
        assert epochs[i] in Members(epochs);
        r := r + [(epochs[i], entries[epochs[i]])];
      }
      assert r == Scan(entries, from);
    }
  }

  /** DurableStoreOutbox over a journal; other handles may write to the same store between calls. */
  class StoreOutbox<F> {
    const store: JournalStore<F>
    var ackedThrough: Epoch

    constructor (store: JournalStore<F>)
      ensures this.store == store && ackedThrough == CursorOf(store.records)
    {
      this.store := store;
      new;
      ackedThrough := store.LoadCursor();
    }

    method AckedThrough() returns (e: Epoch)
      modifies this
      ensures e == ackedThrough == Max(old(ackedThrough), CursorOf(store.records))
    {
      var persisted := store.LoadCursor();
      if persisted > ackedThrough { ackedThrough := persisted; }
      e := ackedThrough;
    }

    method AppendFrame(epoch: Epoch, frame: F)
      modifies store
      ensures store.records == old(store.records) + [Put(epoch, frame)]
    {
      store.Append(Put(epoch, frame));
    }

    /** Both halves of an acknowledgement: the cursor is written before anything is deleted. */
    method AckThrough(epoch: Epoch)
      modifies this, store
      ensures var w0 := Alone(old(store.records), old(ackedThrough));
              var w2 := Take(Take(w0, Ack(0, epoch)), Prune(0));
              store.records == w2.recs && ackedThrough == w2.acked[0]
    {
      ghost var w0 := Alone(store.records, ackedThrough);
      var target := AckedThrough();
      if epoch > target { target := epoch; }
      if target > ackedThrough {
        store.Append(Cursor(target));
        ackedThrough := target;
      }
      ghost var w1 := Take(w0, Ack(0, epoch));
      assert store.records == w1.recs && w1.doomed[0] == target;
      store.Append(Delete(target));
    }

    method ReplayFrom(cursor: Epoch) returns (r: seq<(Epoch, F)>)
      modifies this
      ensures r == Replay(Alone(store.records, old(ackedThrough)), 0, cursor)
      ensures ackedThrough == Max(old(ackedThrough), CursorOf(store.records))
    {
      var acked := AckedThrough();
      r := store.ScanAfter(if acked > cursor then acked else cursor);
    }

    /** RetainedEpochs: the epochs a replay from the start would send. */
    method RetainedEpochs() returns (epochs: seq<Epoch>)
      modifies this
      ensures var all := Replay(Alone(store.records, old(ackedThrough)), 0, 0);
              |epochs| == |all| && forall i :: 0 <= i < |all| ==> epochs[i] == all[i].0
      ensures ackedThrough == Max(old(ackedThrough), CursorOf(store.records))
    {
      var acked := AckedThrough();
      var stored := store.ScanAfter(acked);
      epochs := [];
      for i := 0 to |stored|
        invariant |epochs| == i && forall j :: 0 <= j < i ==> epochs[j] == stored[j].0
      {
        epochs := epochs + [stored[i].0];
      }
    }
  }
}
