/**
  The durable outbox: one protocol over two stores, a map in memory and an append-only journal whose records are
  folded on every scan, shared by any number of handles that can stop between any two records.
 */
module Outbox {
  import opened Basics
  import opened ReliableSync

  datatype Record<F> = Put(epoch: Epoch, frame: F) | Cursor(epoch: Epoch) | Delete(epoch: Epoch)

  function Max(a: nat, b: nat): nat {
    if a < b then b else a
  }

  // ---------------------------------------------------------------- ascending epochs

  function Least(s: set<nat>): (m: nat)
    requires s != {}
    ensures m in s && forall x :: x in s ==> m <= x
  {
    ghost var k := LeastOf(s);
    assert k in s && forall x :: x in s ==> k <= x;
    var m :| m in s && forall x :: x in s ==> m <= x;
    m
  }

  ghost function LeastOf(s: set<nat>): (m: nat)
    requires s != {}
    ensures m in s && forall x :: x in s ==> m <= x
    decreases |s|
  {
    var x :| x in s;
    if s == {x} then x
    else
      var k := LeastOf(s - {x});
      assert forall y :: y in s ==> y == x || y in s - {x};
      if k < x then k else x
  }

  function Sorted(s: set<nat>): (r: seq<nat>)
    ensures Members(r) == s
    decreases |s|
  {
    if s == {} then []
    else
      var m := Least(s);
      var rest := Sorted(s - {m});
      assert Members([m] + rest) == {m} + Members(rest);
      [m] + rest
  }

  lemma {:induction false} SortedRises(s: set<nat>)
    ensures Rising(Sorted(s))
    decreases |s|
  {
    if s != {} {
      var m := Least(s);
      SortedRises(s - {m});
      var rest := Sorted(s - {m});
      forall i | 0 <= i < |rest| ensures m < rest[i] { assert rest[i] in Members(rest); }
    }
  }

  predicate Rising(r: seq<nat>) {
    forall i, j :: 0 <= i < j < |r| ==> r[i] < r[j]
  }

  lemma {:induction false} RisingUnique(a: seq<nat>, b: seq<nat>)
    requires Rising(a) && Rising(b) && Members(a) == Members(b)
    ensures a == b
    decreases |a|
  {
    NonEmptyMembers(a);
    NonEmptyMembers(b);
    if a != [] {
      assert a[0] in Members(b) && b[0] in Members(a);
      assert a[0] == b[0];
      assert a == [a[0]] + a[1..] && b == [b[0]] + b[1..];
      assert Members(a[1..]) == Members(a) - {a[0]} && Members(b[1..]) == Members(b) - {b[0]};
      RisingUnique(a[1..], b[1..]);
    }
  }

  // ---------------------------------------------------------------- the journal

  /** The frames of a journal, the last put of an epoch winning. */
  function Entries<F>(recs: seq<Record<F>>): map<Epoch, F> {
    if recs == [] then map[]
    else
      var before := Entries(recs[..|recs| - 1]);
      match recs[|recs| - 1]
      case Put(e, f) => before[e := f]
      case Cursor(_) => before
      case Delete(_) => before
  }

  /** Delete records are folded with max. */
  function DeletedThrough<F>(recs: seq<Record<F>>): Epoch {
    if recs == [] then 0
    else
      var before := DeletedThrough(recs[..|recs| - 1]);
      if recs[|recs| - 1].Delete? then Max(before, recs[|recs| - 1].epoch) else before
  }

  /** So are cursor records. */
  function CursorOf<F>(recs: seq<Record<F>>): Epoch {
    if recs == [] then 0
    else
      var before := CursorOf(recs[..|recs| - 1]);
      if recs[|recs| - 1].Cursor? then Max(before, recs[|recs| - 1].epoch) else before
  }

  function After<F>(entries: map<Epoch, F>, cursor: Epoch): set<Epoch> {
    set e | e in entries && e > cursor
  }

  function Listed<F>(entries: map<Epoch, F>, epochs: seq<Epoch>): (r: seq<(Epoch, F)>)
    requires Members(epochs) <= entries.Keys
    ensures |r| == |epochs|
  {
    seq(|epochs|, i requires 0 <= i < |epochs| => (assert epochs[i] in Members(epochs); (epochs[i],
        entries[epochs[i]])))
  }

  /** The retained frames above a cursor, ascending. */
  function Scan<F>(entries: map<Epoch, F>, cursor: Epoch): seq<(Epoch, F)> {
    Listed(entries, Sorted(After(entries, cursor)))
  }

  function JournalScan<F>(recs: seq<Record<F>>, cursor: Epoch): seq<(Epoch, F)> {
    Scan(Entries(recs), Max(cursor, DeletedThrough(recs)))
  }

  // ---------------------------------------------------------------- the memory store

  datatype Memory<F> = Memory(entries: map<Epoch, F>, cursor: Epoch)

  function MemoryStep<F>(m: Memory<F>, rec: Record<F>): Memory<F> {
    match rec
    case Put(e, f) => m.(entries := m.entries[e := f])
    case Cursor(e) => m.(cursor := Max(m.cursor, e))
    case Delete(e) => m.(entries := map x | x in m.entries && x > e :: m.entries[x])
  }

  /** The memory store after the same operations. */
  function MemoryOf<F>(recs: seq<Record<F>>): Memory<F> {
    if recs == [] then Memory(map[], 0) else MemoryStep(MemoryOf(recs[..|recs| - 1]), recs[|recs| - 1])
  }

  /** The stores hold the same cursor, and the same frames above what was deleted. */
  lemma {:induction false} MemoryAgrees<F>(recs: seq<Record<F>>, e: Epoch)
    requires e > DeletedThrough(recs)
    ensures MemoryOf(recs).cursor == CursorOf(recs)
    ensures e in MemoryOf(recs).entries <==> e in Entries(recs)
    ensures e in Entries(recs) ==> MemoryOf(recs).entries[e] == Entries(recs)[e]
    decreases |recs|
  {
    if recs != [] { MemoryAgrees(recs[..|recs| - 1], e); }
  }

  lemma ScanAgrees<F>(recs: seq<Record<F>>, cursor: Epoch)
    requires cursor >= DeletedThrough(recs)
    ensures Scan(MemoryOf(recs).entries, cursor) == JournalScan(recs, cursor)
  {
    var a, b := MemoryOf(recs).entries, Entries(recs);
    forall e | e > cursor ensures (e in a <==> e in b) && (e in a ==> a[e] == b[e]) { MemoryAgrees(recs, e); }
    assert After(a, cursor) == After(b, cursor);
    var epochs := Sorted(After(a, cursor));
    forall i | 0 <= i < |epochs| ensures Listed(a, epochs)[i] == Listed(b, epochs)[i] {
      assert epochs[i] in Members(epochs);
    }
  }

  // ---------------------------------------------------------------- handles

  /**
    The records written so far, the cursor each open handle remembers, and the deletes that are still to be written.
   */
  datatype World<F> = World(recs: seq<Record<F>>, acked: map<nat, Epoch>, doomed: map<nat, Epoch>)

  datatype Step<F> =
    | Open(handle: nat)
    | Append(handle: nat, epoch: Epoch, frame: F)
    | Ack(handle: nat, epoch: Epoch)
    | Prune(handle: nat)
    | Look(handle: nat)

  predicate Enabled<F>(w: World<F>, s: Step<F>) {
    match s
    case Open(_) => true
    case Prune(h) => h in w.doomed && h in w.acked
    case _ => s.handle in w.acked
  }

  /** AckedThrough: the remembered cursor or the stored one. */
  function Acked<F>(w: World<F>, h: nat): Epoch
    requires h in w.acked
  {
    Max(w.acked[h], CursorOf(w.recs))
  }

  /**
    Each step writes at most one record: AckThrough is Ack followed by Prune, and Open is also what follows a crash.
   */
  function Take<F>(w: World<F>, s: Step<F>): World<F>
    requires Enabled(w, s)
  {
    match s
    case Open(h) => World(w.recs, w.acked[h := CursorOf(w.recs)], w.doomed - {h})
    case Append(_, e, f) => w.(recs := w.recs + [Put(e, f)])
    case Look(h) => w.(acked := w.acked[h := Acked(w, h)])
    case Ack(h, e) =>
      var target := Max(Acked(w, h), e);
      World(if target > Acked(w, h) then w.recs + [Cursor(target)]
            else w.recs, w.acked[h := target], w.doomed[h := target])
    case Prune(h) => w.(recs := w.recs + [Delete(w.doomed[h])], doomed := w.doomed - {h})
  }

  ghost predicate Inv<F>(w: World<F>) {
    && DeletedThrough(w.recs) <= CursorOf(w.recs)
    && (forall h :: h in w.acked ==> w.acked[h] <= CursorOf(w.recs))
    && (forall h :: h in w.doomed ==> w.doomed[h] <= CursorOf(w.recs))
  }

  lemma OneMore<F>(recs: seq<Record<F>>, rec: Record<F>)
    ensures CursorOf(recs + [rec]) == if rec.Cursor? then Max(CursorOf(recs), rec.epoch) else CursorOf(recs)
    ensures DeletedThrough(recs + [rec]) == if rec.Delete? then Max(DeletedThrough(recs), rec.epoch)
                                            else DeletedThrough(recs)
    ensures Entries(recs + [rec]) == if rec.Put? then Entries(recs)[rec.epoch := rec.frame] else Entries(recs)
  {
    assert (recs + [rec])[..|recs|] == recs;
  }

  /** A cursor is stored before anything at or below it is deleted, whoever writes. */
  lemma TakeOk<F>(w: World<F>, s: Step<F>)
    requires Inv(w) && Enabled(w, s)
    ensures Inv(Take(w, s)) && CursorOf(w.recs) <= CursorOf(Take(w, s).recs)
  {
    match s
    case Append(_, e, f) => AppendOk(w, s, e, f);
    case Ack(h, e) => AckOk(w, h, e);
    case Prune(h) => PruneOk(w, h);
    case _ =>
  }

  lemma AppendOk<F>(w: World<F>, s: Step<F>, e: Epoch, f: F)
    requires Inv(w) && Enabled(w, s) && s.Append? && s.epoch == e && s.frame == f
    ensures Inv(Take(w, s)) && CursorOf(w.recs) <= CursorOf(Take(w, s).recs)
  {
    OneMore(w.recs, Put(e, f));
  }

  lemma PruneOk<F>(w: World<F>, h: nat)
    requires Inv(w) && h in w.doomed && h in w.acked
    ensures Inv(Take(w, Prune(h))) && CursorOf(w.recs) <= CursorOf(Take(w, Prune(h)).recs)
  {
    OneMore(w.recs, Delete(w.doomed[h]));
  }

  lemma AckOk<F>(w: World<F>, h: nat, e: Epoch)
    requires Inv(w) && h in w.acked
    ensures Inv(Take(w, Ack(h, e))) && CursorOf(w.recs) <= CursorOf(Take(w, Ack(h, e)).recs)
  {
    OneMore(w.recs, Cursor(Max(Acked(w, h), e)));
  }

  ghost predicate IsRun<F>(steps: seq<Step<F>>, worlds: seq<World<F>>) {
    && |worlds| == |steps| + 1 && worlds[0] == World([], map[], map[])
    && forall i :: 0 <= i < |steps| ==> Enabled(worlds[i], steps[i]) && worlds[i + 1] == Take(worlds[i], steps[i])
  }

  lemma {:induction false} RunOk<F>(steps: seq<Step<F>>, worlds: seq<World<F>>, n: nat)
    requires IsRun(steps, worlds) && n < |worlds|
    ensures Inv(worlds[n])
  {
    if n > 0 {
      RunOk(steps, worlds, n - 1);
      TakeOk(worlds[n - 1], steps[n - 1]);
    }
  }

  /** ReplayFrom over each store. */
  function Replay<F>(w: World<F>, h: nat, cursor: Epoch): seq<(Epoch, F)>
    requires h in w.acked
  {
    JournalScan(w.recs, Max(cursor, Acked(w, h)))
  }

  function MemoryReplay<F>(w: World<F>, h: nat, cursor: Epoch): seq<(Epoch, F)>
    requires h in w.acked
  {
    var m := MemoryOf(w.recs);
    Scan(m.entries, Max(cursor, Max(w.acked[h], m.cursor)))
  }

  /** In every run the journal and the memory store replay the same frames, from any cursor. */
  lemma StoresAgree<F>(steps: seq<Step<F>>, worlds: seq<World<F>>, n: nat, h: nat, cursor: Epoch)
    requires IsRun(steps, worlds) && n < |worlds| && h in worlds[n].acked
    ensures Replay(worlds[n], h, cursor) == MemoryReplay(worlds[n], h, cursor)
  {
    RunOk(steps, worlds, n);
    var w := worlds[n];
    MemoryAgrees(w.recs, DeletedThrough(w.recs) + 1);
    ScanAgrees(w.recs, Max(cursor, Acked(w, h)));
  }

  predicate WasPut<F>(recs: seq<Record<F>>, e: Epoch, i: nat) {
    i < |recs| && recs[i].Put? && recs[i].epoch == e
  }

  ghost predicate LastPut<F>(recs: seq<Record<F>>, e: Epoch, i: nat) {
    WasPut(recs, e, i) && forall j: nat :: i < j ==> !WasPut(recs, e, j)
  }

  /** An entry is the last frame put at its epoch. */
  lemma {:induction false} EntriesAreLastPuts<F>(recs: seq<Record<F>>, e: Epoch)
    ensures e in Entries(recs) ==> exists i: nat :: LastPut(recs, e, i) && Entries(recs)[e] == recs[i].frame
    ensures e !in Entries(recs) ==> forall i: nat :: !WasPut(recs, e, i)
    decreases |recs|
  {
    if recs != [] {
      var before, last := recs[..|recs| - 1], |recs| - 1;
      EntriesAreLastPuts(before, e);
      assert forall i: nat :: i != last ==> (WasPut(before, e, i) <==> WasPut(recs, e, i));
      if WasPut(recs, e, last) {
        assert LastPut(recs, e, last);
      } else if e in Entries(before) {
        var i: nat :| LastPut(before, e, i) && Entries(before)[e] == before[i].frame;
        assert LastPut(recs, e, i);
      }
    }
  }

  /**
    Crash safety.  In every state of every run, and so after a stop between any two records, each handle replays exactly
    the frames put above the stored cursor and the caller's, ascending, and nothing at or below them.
   */
  lemma ReplayIsUnacked<F>(steps: seq<Step<F>>, worlds: seq<World<F>>, n: nat, h: nat, cursor: Epoch)
    requires IsRun(steps, worlds) && n < |worlds| && h in worlds[n].acked
    ensures var w := worlds[n];
            var r := Replay(w, h, cursor);
            && (forall i, j :: 0 <= i < j < |r| ==> r[i].0 < r[j].0)
            && (forall e, f :: (e, f) in r <==>
                e > cursor && e > CursorOf(w.recs) && e in Entries(w.recs) && f == Entries(w.recs)[e])
  {
    RunOk(steps, worlds, n);
    var w := worlds[n];
    var c := Max(cursor, Acked(w, h));
    assert Max(c, DeletedThrough(w.recs)) == Max(cursor, CursorOf(w.recs));
    ScanIs(Entries(w.recs), Max(cursor, CursorOf(w.recs)));
  }

  lemma ScanIs<F>(entries: map<Epoch, F>, cursor: Epoch)
    ensures var r := Scan(entries, cursor);
            && (forall i, j :: 0 <= i < j < |r| ==> r[i].0 < r[j].0)
            && (forall e, f :: (e, f) in r <==> e > cursor && e in entries && f == entries[e])
  {
    var epochs := Sorted(After(entries, cursor));
    var r := Scan(entries, cursor);
    SortedRises(After(entries, cursor));
    forall e, f | e > cursor && e in entries && f == entries[e] ensures (e, f) in r {
      assert e in Members(epochs);
      var i :| 0 <= i < |epochs| && epochs[i] == e;
      assert r[i] == (e, f);
    }
    forall e, f | (e, f) in r ensures e > cursor && e in entries && f == entries[e] {
      var i :| 0 <= i < |r| && r[i] == (e, f);
      assert epochs[i] in Members(epochs);
    }
  }

  // ---------------------------------------------------------------- recovery

  /** The frames put, in order. */
  function PutFrames<S>(recs: seq<Record<Frame<S>>>): seq<Frame<S>> {
    if recs == [] then []
    else
      var before := PutFrames(recs[..|recs| - 1]);
      if recs[|recs| - 1].Put? then before + [recs[|recs| - 1].frame] else before
  }

  /** Frames are put under their own epoch, and each delta starts where the one before it ended. */
  ghost predicate InOrder<S>(start: Epoch, recs: seq<Record<Frame<S>>>) {
    && (forall i :: 0 <= i < |recs| && recs[i].Put? ==> recs[i].epoch == EpochOf(recs[i].frame))
    && Contiguous(start, PutFrames(recs))
  }

  ghost predicate Indexes<S>(entries: map<Epoch, Frame<S>>, frames: seq<Frame<S>>) {
    && (forall i {:trigger frames[i]} :: 0 <= i < |frames| ==>
        EpochOf(frames[i]) in entries && entries[EpochOf(frames[i])] == frames[i])
    && (forall e :: e in entries ==> exists i :: 0 <= i < |frames| && EpochOf(frames[i]) == e)
  }

  lemma PrefixInOrder<S>(start: Epoch, recs: seq<Record<Frame<S>>>)
    requires InOrder(start, recs) && recs != []
    ensures InOrder(start, recs[..|recs| - 1])
  {
    var a, b := PutFrames(recs[..|recs| - 1]), PutFrames(recs);
    forall i | 0 <= i < |a| ensures Follows(start, a, i) { assert Follows(start, b, i); }
  }

  lemma {:induction false} PutsAreEntries<S>(start: Epoch, recs: seq<Record<Frame<S>>>)
    requires InOrder(start, recs)
    ensures Indexes(Entries(recs), PutFrames(recs))
    decreases |recs|
  {
    if recs != [] {
      var before := recs[..|recs| - 1];
      PrefixInOrder(start, recs);
      PutsAreEntries(start, before);
      var last := recs[|recs| - 1];
      if last.Put? {
        var a, b := PutFrames(before), PutFrames(recs);
        forall i | 0 <= i < |a| ensures EpochOf(a[i]) != last.epoch {
          EpochsRise(start, b, i, |a|);
          EpochsRise(start, b, |a|, |a|);
        }
        forall e | e in Entries(recs) ensures exists i :: 0 <= i < |b| && EpochOf(b[i]) == e {
          if e == last.epoch {
            assert EpochOf(b[|a|]) == e;
          } else {
            var i :| 0 <= i < |a| && EpochOf(a[i]) == e;
            assert b[i] == a[i];
          }
        }
      }
    }
  }

  /** How many of the frames lie at or below a cursor. */
  function Below<S>(frames: seq<Frame<S>>, cursor: Epoch): (k: nat)
    ensures k <= |frames| && (forall i :: 0 <= i < k ==> EpochOf(frames[i]) <= cursor)
            && (k < |frames| ==> EpochOf(frames[k]) > cursor)
  {
    if frames == [] || EpochOf(frames[0]) > cursor then 0 else 1 + Below(frames[1..], cursor)
  }

  function Payloads<F>(r: seq<(Epoch, F)>): (p: seq<F>)
    ensures |p| == |r|
  {
    seq(|r|, i requires 0 <= i < |r| => r[i].1)
  }

  function EpochsOf<S>(frames: seq<Frame<S>>): (r: seq<Epoch>)
    ensures |r| == |frames|
  {
    seq(|frames|, i requires 0 <= i < |frames| => EpochOf(frames[i]))
  }

  /** A scan lists the tail of what was put. */
  lemma ScanIsTail<S>(start: Epoch, recs: seq<Record<Frame<S>>>, cursor: Epoch)
    requires InOrder(start, recs)
    ensures Payloads(Scan(Entries(recs), cursor)) == PutFrames(recs)[Below(PutFrames(recs), cursor)..]
  {
    var frames, entries := PutFrames(recs), Entries(recs);
    var k := Below(frames, cursor);
    var tail := frames[k..];
    PutsAreEntries(start, recs);
    TailEpochs(start, frames, entries, cursor);
    SortedRises(After(entries, cursor));
    RisingUnique(EpochsOf(tail), Sorted(After(entries, cursor)));
    forall i | 0 <= i < |tail| ensures Scan(entries, cursor)[i].1 == tail[i] {
      assert tail[i] == frames[k + i];
      assert Sorted(After(entries, cursor))[i] == EpochOf(tail[i]);
    }
  }

  lemma TailEpochs<S>(start: Epoch, frames: seq<Frame<S>>, entries: map<Epoch, Frame<S>>, cursor: Epoch)
    requires Contiguous(start, frames) && Indexes(entries, frames)
    ensures var epochs := EpochsOf(frames[Below(frames, cursor)..]);
            Rising(epochs) && Members(epochs) == After(entries, cursor)
  {
    var epochs := EpochsOf(frames[Below(frames, cursor)..]);
    TailIsRising(start, frames, Below(frames, cursor));
    forall e | e in Members(epochs) ensures e in After(entries, cursor) {
      TailIsAfter(start, frames, entries, cursor, e);
    }
    forall e | e in After(entries, cursor) ensures e in Members(epochs) { AfterIsTail(frames, entries, cursor, e); }
  }

  lemma TailIsRising<S>(start: Epoch, frames: seq<Frame<S>>, k: nat)
    requires Contiguous(start, frames) && k <= |frames|
    ensures Rising(EpochsOf(frames[k..]))
  {
    var epochs := EpochsOf(frames[k..]);
    forall i, j | 0 <= i < j < |epochs| ensures epochs[i] < epochs[j] { TailRises(start, frames, k + i, k + j); }
  }

  lemma TailRises<S>(start: Epoch, frames: seq<Frame<S>>, i: nat, j: nat)
    requires Contiguous(start, frames) && i < j < |frames|
    ensures EpochOf(frames[i]) < EpochOf(frames[j])
  {
    EpochsRise(start, frames, i, j);
    EpochsRise(start, frames, j, j);
  }

  lemma TailIsAfter<S>(start: Epoch, frames: seq<Frame<S>>, entries: map<Epoch, Frame<S>>, cursor: Epoch, e: Epoch)
    requires Contiguous(start, frames) && Indexes(entries, frames) && e in EpochsOf(frames[Below(frames, cursor)..])
    ensures e in After(entries, cursor)
  {
    var k := Below(frames, cursor);
    var epochs := EpochsOf(frames[k..]);
    var i :| 0 <= i < |epochs| && epochs[i] == e;
    assert epochs[i] == EpochOf(frames[k + i]);
    EpochsRise(start, frames, k, k + i);
  }

  lemma AfterIsTail<S>(frames: seq<Frame<S>>, entries: map<Epoch, Frame<S>>, cursor: Epoch, e: Epoch)
    requires Indexes(entries, frames) && e in After(entries, cursor)
    ensures e in EpochsOf(frames[Below(frames, cursor)..])
  {
    var k := Below(frames, cursor);
    var i :| 0 <= i < |frames| && EpochOf(frames[i]) == e;
    assert EpochsOf(frames[k..])[i - k] == e;
  }

  /**
    Recovery.  With contiguous deltas and acknowledgements only for applied epochs, an in-order replay by any handle, in
    any state of any run, takes the receiver to the last epoch put.
   */
  lemma ReplayRecovers<S>(steps: seq<Step<Frame<S>>>, worlds: seq<World<Frame<S>>>, n: nat, h: nat, start: Epoch,
          r: Receiver<S>, mine: nat)
    requires IsRun(steps, worlds) && n < |worlds| && h in worlds[n].acked && InOrder(start, worlds[n].recs)
    requires var frames := PutFrames(worlds[n].recs);
             mine <= |frames| && r.c.lastEpoch == Reached(start, frames[..mine])
                 && CursorOf(worlds[n].recs) <= r.c.lastEpoch
    ensures var r' := ReceiveAll(r, Payloads(Replay(worlds[n], h, 0)));
            r'.c.lastEpoch == Reached(start, PutFrames(worlds[n].recs)) && r'.requests == r.requests
  {
    RunOk(steps, worlds, n);
    var w := worlds[n];
    var frames := PutFrames(w.recs);
    var k := Below(frames, CursorOf(w.recs));
    ScanIsTail(start, w.recs, CursorOf(w.recs));
    assert Replay(w, h, 0) == Scan(Entries(w.recs), CursorOf(w.recs));
    if mine < k {
      EpochsRise(start, frames, mine, k - 1);
      if mine > 0 { EpochsRise(start, frames, mine - 1, mine); }
      assert false;
    }
    ReplayCatchesUp(r, start, frames, k, mine);
  }
}
