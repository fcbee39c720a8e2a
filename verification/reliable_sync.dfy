/**
  The receiver of the reliable-sync protocol: which frames it folds, over a channel that loses, repeats and reorders.
 */
module ReliableSync {

  type Epoch = nat

  /** A data frame: a change from the state at `base` to the state at `epoch`, or a whole state. */
  datatype Frame<!S> = Delta(base: Epoch, epoch: Epoch, change: S -> S) | Snapshot(at: Epoch, state: S)

  datatype Action = Apply | Ignore | RequestSnapshot(from: Epoch)

  datatype Coordinator = Coordinator(lastEpoch: Epoch, resyncing: bool)

  /** What the coordinator looks at. */
  datatype Head = DeltaHead(base: Epoch, epoch: Epoch) | SnapshotHead(epoch: Epoch)

  function HeadOf<S>(f: Frame<S>): Head {
    match f
    case Delta(base, epoch, _) => DeltaHead(base, epoch)
    case Snapshot(epoch, _) => SnapshotHead(epoch)
  }

  /** IngestDelta and IngestSnapshot. */
  function Classify(c: Coordinator, h: Head): (Coordinator, Action) {
    match h
    case SnapshotHead(epoch) => (Coordinator(epoch, false), Apply)
    case DeltaHead(base, epoch) =>
      if base == c.lastEpoch then
        if epoch >= base + 1 then (Coordinator(epoch, false), Apply) else (c, Ignore)
      else if base < c.lastEpoch then (c, Ignore)
      else if c.resyncing then (c, Ignore)
      else (c.(resyncing := true), RequestSnapshot(c.lastEpoch))
  }

  /** What the host owes a frame it was told to apply. */
  function Fold<S>(projection: S, f: Frame<S>): S {
    match f
    case Delta(_, _, change) => change(projection)
    case Snapshot(_, state) => state
  }

  /** A frame that tells the truth about the sender, whose state at epoch e is `at(e)`. */
  ghost predicate Honest<S>(at: Epoch -> S, f: Frame<S>) {
    match f
    case Delta(base, epoch, change) => change(at(base)) == at(epoch)
    case Snapshot(e, state) => state == at(e)
  }

  datatype Receiver<S> = Receiver(c: Coordinator, projection: S, requests: seq<Epoch>)

  function Receive<S>(r: Receiver<S>, f: Frame<S>): Receiver<S> {
    var (c, action) := Classify(r.c, HeadOf(f));
    match action
    case Apply => Receiver(c, Fold(r.projection, f), r.requests)
    case Ignore => r.(c := c)
    case RequestSnapshot(e) => r.(c := c, requests := r.requests + [e])
  }

  function ReceiveAll<S>(r: Receiver<S>, frames: seq<Frame<S>>): Receiver<S> {
    if frames == [] then r else Receive(ReceiveAll(r, frames[..|frames| - 1]), frames[|frames| - 1])
  }

  /**
    Safety.  Whatever honest frames arrive, in whatever order and however often, the projection is the sender's state
    at the receiver's epoch.
   */
  lemma {:induction false} ProjectionIsTrue<S>(at: Epoch -> S, r: Receiver<S>, frames: seq<Frame<S>>)
    requires r.projection == at(r.c.lastEpoch) && forall f :: f in frames ==> Honest(at, f)
    ensures var r' := ReceiveAll(r, frames); r'.projection == at(r'.c.lastEpoch)
    decreases |frames|
  {
    if frames != [] {
      var before, f := frames[..|frames| - 1], frames[|frames| - 1];
      assert forall g :: g in before ==> g in frames;
      ProjectionIsTrue(at, r, before);
      assert Honest(at, f);
    }
  }

  /** Frames that only carry news the receiver already has leave it alone. */
  predicate Stale<S>(last: Epoch, f: Frame<S>) {
    f.Delta? && f.base < last
  }

  lemma {:induction false} StaleIsIgnored<S>(r: Receiver<S>, frames: seq<Frame<S>>)
    requires forall f :: f in frames ==> Stale(r.c.lastEpoch, f)
    ensures ReceiveAll(r, frames) == r
    decreases |frames|
  {
    if frames != [] {
      assert forall g :: g in frames[..|frames| - 1] ==> g in frames;
      StaleIsIgnored(r, frames[..|frames| - 1]);
      assert Stale(r.c.lastEpoch, frames[|frames| - 1]);
    }
  }

  /** Deltas that follow each other from epoch `start` to epoch `end`. */
  predicate Contiguous<S>(start: Epoch, frames: seq<Frame<S>>) {
    forall i {:trigger Follows(start, frames, i)} :: 0 <= i < |frames| ==> Follows(start, frames, i)
  }

  predicate Follows<S>(start: Epoch, frames: seq<Frame<S>>, i: nat)
    requires i < |frames|
  {
    frames[i].Delta? && frames[i].base == (if i == 0 then start else EpochOf(frames[i - 1]))
        && frames[i].base < frames[i].epoch
  }

  function EpochOf<S>(f: Frame<S>): Epoch {
    match f
    case Delta(_, e, _) => e
    case Snapshot(e, _) => e
  }

  function Reached<S>(start: Epoch, frames: seq<Frame<S>>): Epoch {
    if frames == [] then start else EpochOf(frames[|frames| - 1])
  }

  /** A contiguous run of deltas takes the receiver from its start to its end. */
  lemma {:induction false} ContiguousApplies<S>(r: Receiver<S>, frames: seq<Frame<S>>)
    requires Contiguous(r.c.lastEpoch, frames)
    ensures ReceiveAll(r, frames).c.lastEpoch == Reached(r.c.lastEpoch, frames)
    ensures ReceiveAll(r, frames).requests == r.requests
    decreases |frames|
  {
    if frames != [] {
      var before := frames[..|frames| - 1];
      forall i | 0 <= i < |before| ensures Follows(r.c.lastEpoch, before, i) {
        assert Follows(r.c.lastEpoch, frames, i);
      }
      ContiguousApplies(r, before);
      assert Follows(r.c.lastEpoch, frames, |frames| - 1);
    }
  }

  lemma {:induction false} ReceiveAllJoins<S>(r: Receiver<S>, a: seq<Frame<S>>, b: seq<Frame<S>>)
    ensures ReceiveAll(r, a + b) == ReceiveAll(ReceiveAll(r, a), b)
    decreases |b|
  {
    if b == [] {
      assert a + b == a;
    } else {
      ReceiveAllJoins(r, a, b[..|b| - 1]);
      assert (a + b)[..|a + b| - 1] == a + b[..|b| - 1];
    }
  }

  lemma {:induction false} EpochsRise<S>(start: Epoch, frames: seq<Frame<S>>, i: nat, j: nat)
    requires Contiguous(start, frames) && i <= j < |frames|
    ensures frames[i].Delta? && frames[j].Delta?
    ensures EpochOf(frames[i]) <= EpochOf(frames[j]) && start <= frames[i].base < EpochOf(frames[i])
    ensures i < j ==> EpochOf(frames[i]) <= frames[j].base
    decreases i + j
  {
    assert Follows(start, frames, i) && Follows(start, frames, j);
    if i < j {
      EpochsRise(start, frames, i, j - 1);
    } else if i > 0 {
      EpochsRise(start, frames, i - 1, i - 1);
    }
  }

  /**
    Recovery.  A replay of the contiguous deltas from any point at or before the receiver's own epoch takes it to the
    last of them: what it has is ignored, what it lacks is applied, and no snapshot is asked for.
   */
  lemma ReplayCatchesUp<S>(r: Receiver<S>, start: Epoch, frames: seq<Frame<S>>, from: nat, mine: nat)
    requires Contiguous(start, frames) && from <= mine <= |frames|
    requires r.c.lastEpoch == Reached(start, frames[..mine])
    ensures var r' := ReceiveAll(r, frames[from..]);
            r'.c.lastEpoch == Reached(start, frames) && r'.requests == r.requests
  {
    var seen, news := frames[from..mine], frames[mine..];
    assert frames[from..] == seen + news;
    forall f | f in seen ensures Stale(r.c.lastEpoch, f) {
      var i :| 0 <= i < |seen| && seen[i] == f;
      SeenIsStale(start, frames, from + i, mine);
    }
    StaleIsIgnored(r, seen);
    ReceiveAllJoins(r, seen, news);
    RestIsContiguous(start, frames, mine);
    ContiguousApplies(r, news);
    assert mine == |frames| ==> frames[..mine] == frames;
  }

  lemma SeenIsStale<S>(start: Epoch, frames: seq<Frame<S>>, i: nat, mine: nat)
    requires Contiguous(start, frames) && i < mine <= |frames|
    ensures Stale(Reached(start, frames[..mine]), frames[i])
  {
    EpochsRise(start, frames, i, mine - 1);
    assert Reached(start, frames[..mine]) == EpochOf(frames[mine - 1]);
  }

  lemma RestIsContiguous<S>(start: Epoch, frames: seq<Frame<S>>, k: nat)
    requires Contiguous(start, frames) && k <= |frames|
    ensures Contiguous(Reached(start, frames[..k]), frames[k..])
  {
    forall i | 0 <= i < |frames| - k ensures Follows(Reached(start, frames[..k]), frames[k..], i) {
      assert Follows(start, frames, k + i);
    }
  }

  // ---------------------------------------------------------------- requests

  /** Request `i` asks for a later epoch than the ones before it. */
  ghost predicate Rising(es: seq<Epoch>) {
    forall i, j :: 0 <= i < j < |es| ==> es[i] < es[j]
  }

  /**
    Every new request lies between the epochs the receiver was at, and a second one never repeats the one that is out.
   */
  ghost predicate AsksForward<S>(r: Receiver<S>, r': Receiver<S>, news: seq<Epoch>) {
    && r'.requests == r.requests + news && Rising(news) && r.c.lastEpoch <= r'.c.lastEpoch
    && (forall e :: e in news ==> r.c.lastEpoch <= e <= r'.c.lastEpoch && (r.c.resyncing ==> r.c.lastEpoch < e))
    && (news != [] && !r'.c.resyncing ==> news[|news| - 1] < r'.c.lastEpoch)
    && (news == [] && r.c.resyncing && r'.c.lastEpoch == r.c.lastEpoch ==> r'.c.resyncing)
  }

  /**
    One request per gap.  Over any run of deltas, lost, repeated and reordered, the receiver asks for strictly later
    epochs each time: it never repeats a request that is out, and asks again only after it has advanced.
   */
  lemma {:induction false} RequestsRise<S>(r: Receiver<S>, frames: seq<Frame<S>>) returns (news: seq<Epoch>)
    requires forall f :: f in frames ==> f.Delta?
    ensures AsksForward(r, ReceiveAll(r, frames), news)
    decreases |frames|
  {
    if frames == [] {
      news := [];
      assert r.requests + [] == r.requests;
    } else {
      var before, f := frames[..|frames| - 1], frames[|frames| - 1];
      assert forall g :: g in before ==> g in frames;
      news := RequestsRise(r, before);
      var r1 := ReceiveAll(r, before);
      assert f in frames;
      assert news != [] ==> news[|news| - 1] in news;
      if f.base > r1.c.lastEpoch && !r1.c.resyncing {
        assert r.requests + news + [r1.c.lastEpoch] == r.requests + (news + [r1.c.lastEpoch]);
        LastRises(news, r1.c.lastEpoch);
        news := news + [r1.c.lastEpoch];
      }
    }
  }

  lemma LastRises(es: seq<Epoch>, e: Epoch)
    requires Rising(es) && (es != [] ==> es[|es| - 1] < e)
    ensures Rising(es + [e])
  {
  }

  class ResyncCoordinator {
    var lastEpoch: Epoch
    var resyncing: bool

    function Model(): Coordinator
      reads this
    {
      Coordinator(lastEpoch, resyncing)
    }

    constructor (lastEpoch: Epoch)
      ensures Model() == Coordinator(lastEpoch, false)
    {
      this.lastEpoch := lastEpoch;
      resyncing := false;
    }

    method IngestDelta(base: Epoch, epoch: Epoch) returns (action: Action)
      modifies this
      ensures (Model(), action) == Classify(old(Model()), DeltaHead(base, epoch))
    {
      if base == lastEpoch {
        if epoch >= base + 1 {
          lastEpoch, resyncing := epoch, false;
          return Apply;
        }
        return Ignore;
      } else if base < lastEpoch {
        return Ignore;
      } else if resyncing {
        return Ignore;
      }
      resyncing := true;
      return RequestSnapshot(lastEpoch);
    }

    method IngestSnapshot(epoch: Epoch) returns (action: Action)
      modifies this
      ensures (Model(), action) == Classify(old(Model()), SnapshotHead(epoch))
    {
      lastEpoch, resyncing := epoch, false;
      return Apply;
    }
  }
}
