/** The latest-value durable projection: per key one desired value, one attempt in flight and a durable watermark. */
module LatestDurable {
  import opened Basics

  datatype Revision<V> = Revision(epoch: nat, value: V)

  datatype Envelope<V> = Envelope(generation: nat, epoch: nat, value: V)

  /** `accepted` (the newest revision a producer was told is accepted) is a history variable. */
  datatype Entry<V> = Entry(desired: Option<Revision<V>>, inflight: Option<Envelope<V>>, durableThrough: Option<nat>,
          accepted: Option<Revision<V>>)

  datatype Core<K, V> = Core(generation: nat, entries: map<K, Entry<V>>)

  function Blank<V>(): Entry<V> {
    Entry(None, None, None, None)
  }

  function At<K, V>(c: Core<K, V>, k: K): Entry<V> {
    if k in c.entries then c.entries[k] else Blank()
  }

  datatype Upserted = Accepted | Unchanged | AlreadyDurable(through: nat) | StaleEpoch(current: nat) | EpochConflict

  datatype Claimed<V> = GotClaim(e: Envelope<V>) | Empty | Busy | ClaimStale(current: nat)

  datatype Acked = Advanced(through: nat) | AckUnchanged(through: nat) | AckUnknown | AckStale(current: nat)

  datatype Failed = Pending | Superseded | FailUnknown | FailStale(current: nat)

  /** The newest revision held, desired or in flight. */
  function Newest<V>(e: Entry<V>): Option<Revision<V>> {
    if e.inflight.Some? && (e.desired.None? || e.inflight.value.epoch > e.desired.value.epoch)
        then Some(Revision(e.inflight.value.epoch, e.inflight.value.value))
    else e.desired
  }

  function UpsertEntry<V(==)>(e: Entry<V>, epoch: nat, value: V): (Entry<V>, Upserted) {
    if e.durableThrough.Some? && epoch <= e.durableThrough.value then (e, AlreadyDurable(e.durableThrough.value))
    else
      var newest := Newest(e);
      if newest.Some? && epoch < newest.value.epoch then (e, StaleEpoch(newest.value.epoch))
      else if newest.Some? && epoch == newest.value.epoch
          then (e, if value == newest.value.value then Unchanged else EpochConflict)
      else (e.(desired := Some(Revision(epoch, value)), accepted := Some(Revision(epoch, value))), Accepted)
  }

  function ClaimEntry<V>(e: Entry<V>, generation: nat): (Entry<V>, Claimed<V>) {
    if e.inflight.Some? then (e, Busy)
    else if e.desired.None? then (e, Empty)
    else
      var env := Envelope(generation, e.desired.value.epoch, e.desired.value.value);
      (e.(desired := None, inflight := Some(env)), GotClaim(env))
  }

  function AckEntry<V>(e: Entry<V>, epoch: nat): (Entry<V>, Acked) {
    if e.inflight.None? || e.inflight.value.epoch != epoch then
      (e, if e.durableThrough.Some? && epoch <= e.durableThrough.value then AckUnchanged(e.durableThrough.value)
          else AckUnknown)
    else if e.durableThrough.None? || epoch > e.durableThrough.value
        then (e.(inflight := None, durableThrough := Some(epoch)), Advanced(epoch))
    else (e.(inflight := None), AckUnchanged(e.durableThrough.value))
  }

  /** What a failed or abandoned attempt leaves: a newer desired value, or its own value again. */
  function Requeued<V>(e: Entry<V>): Entry<V> {
    if e.inflight.None? then e
    else if e.desired.Some? && e.desired.value.epoch > e.inflight.value.epoch then e.(inflight := None)
    else e.(inflight := None, desired := Some(Revision(e.inflight.value.epoch, e.inflight.value.value)))
  }

  function FailEntry<V>(e: Entry<V>, epoch: nat): (Entry<V>, Failed) {
    if e.inflight.None? || e.inflight.value.epoch != epoch then (e, FailUnknown)
    else (Requeued(e), if e.desired.Some? && e.desired.value.epoch > epoch then Superseded else Pending)
  }

  predicate Outrun<V>(e: Entry<V>) {
    e.inflight.Some? && e.desired.Some? && e.desired.value.epoch > e.inflight.value.epoch
  }

  /** The keys whose attempt in flight a reconnect queues again, and those whose attempt a newer value replaces. */
  function ToRequeue<K, V>(entries: map<K, Entry<V>>): set<K> {
    set k | k in entries && entries[k].inflight.Some? && !Outrun(entries[k])
  }

  function ToSupersede<K, V>(entries: map<K, Entry<V>>): set<K> {
    set k | k in entries && Outrun(entries[k])
  }

  datatype Step<K, V> =
    | Upsert(key: K, epoch: nat, value: V)
    | Claim(key: K, generation: nat)
    | Ack(key: K, generation: nat, epoch: nat)
    | Fail(key: K, generation: nat, epoch: nat)
    | Reconnect(generation: nat)

  function Take<K, V(==)>(c: Core<K, V>, s: Step<K, V>): Core<K, V> {
    match s
    case Upsert(k, epoch, v) => c.(entries := c.entries[k := UpsertEntry(At(c, k), epoch, v).0])
    case Claim(k, g) => if g != c.generation then c else c.(entries := c.entries[k := ClaimEntry(At(c, k), g).0])
    case Ack(k, g, epoch) => if g != c.generation then c else c.(entries := c.entries[k := AckEntry(At(c, k), epoch).0])
    case Fail(k, g, epoch) => if g != c.generation then c
                              else c.(entries := c.entries[k := FailEntry(At(c, k), epoch).0])
    case Reconnect(g) => if g <= c.generation then c else Core(g, map k | k in c.entries :: Requeued(c.entries[k]))
  }

  function Run<K, V(==)>(generation: nat, steps: seq<Step<K, V>>): Core<K, V> {
    if steps == [] then Core(generation, map[]) else Take(Run(generation, steps[..|steps| - 1]), steps[|steps| - 1])
  }

  // ---------------------------------------------------------------- the invariant

  /** Durable lies below in flight, in flight below desired, and an attempt belongs to the current generation. */
  ghost predicate Ordered<V>(e: Entry<V>, generation: nat) {
    && (e.inflight.Some? && e.desired.Some? ==> e.inflight.value.epoch < e.desired.value.epoch)
    && (e.durableThrough.Some? && e.inflight.Some? ==> e.durableThrough.value < e.inflight.value.epoch)
    && (e.durableThrough.Some? && e.desired.Some? ==> e.durableThrough.value < e.desired.value.epoch)
    && (e.inflight.Some? ==> e.inflight.value.generation == generation)
  }

  /** The newest accepted revision is still held, or it is durable. */
  ghost predicate Kept<V>(e: Entry<V>) {
    match e.accepted
    case None => Newest(e) == None && e.durableThrough == None
    case Some(r) => Newest(e) == Some(r) || (Newest(e) == None && e.durableThrough == Some(r.epoch))
  }

  ghost predicate EntryOk<V>(e: Entry<V>, generation: nat) {
    Ordered(e, generation) && Kept(e)
  }

  lemma EntrySteps<V>(e: Entry<V>, g: nat, g': nat, epoch: nat, value: V)
    requires EntryOk(e, g)
    ensures EntryOk(UpsertEntry(e, epoch, value).0, g)
    ensures EntryOk(ClaimEntry(e, g).0, g)
    ensures EntryOk(AckEntry(e, epoch).0, g)
    ensures EntryOk(FailEntry(e, epoch).0, g)
    ensures EntryOk(Requeued(e), g')
  {
    UpsertStep(e, g, epoch, value);
    SettleSteps(e, g, g', epoch);
  }

  lemma UpsertStep<V>(e: Entry<V>, g: nat, epoch: nat, value: V)
    requires EntryOk(e, g)
    ensures EntryOk(UpsertEntry(e, epoch, value).0, g)
  {
  }

  lemma SettleSteps<V>(e: Entry<V>, g: nat, g': nat, epoch: nat)
    requires EntryOk(e, g)
    ensures EntryOk(ClaimEntry(e, g).0, g) && EntryOk(AckEntry(e, epoch).0, g)
    ensures EntryOk(FailEntry(e, epoch).0, g) && EntryOk(Requeued(e), g')
  {
  }

  ghost predicate Inv<K, V>(c: Core<K, V>) {
    forall k {:trigger c.entries[k]} :: k in c.entries ==> EntryOk(c.entries[k], c.generation)
  }

  lemma TakeOk<K, V>(c: Core<K, V>, s: Step<K, V>)
    requires Inv(c)
    ensures Inv(Take(c, s)) && c.generation <= Take(c, s).generation
  {
    var c' := Take(c, s);
    forall k | k in c'.entries ensures EntryOk(c'.entries[k], c'.generation) {
      var e := At(c, k);
      assert EntryOk(e, c.generation);
      match s
      case Upsert(_, epoch, v) => EntrySteps(e, c.generation, c'.generation, epoch, v);
      case Claim(_, _) => if e.desired.Some? { EntrySteps(e, c.generation, c'.generation, 0, e.desired.value.value); }
      case Ack(_, _, epoch) => AckOk(e, c.generation, epoch);
      case Fail(_, _, epoch) => FailOk(e, c.generation, epoch);
      case Reconnect(_) => RequeueOk(e, c.generation, c'.generation);
    }
  }

  lemma AckOk<V>(e: Entry<V>, g: nat, epoch: nat)
    requires EntryOk(e, g)
    ensures EntryOk(AckEntry(e, epoch).0, g)
  {
    if e.inflight.Some? { EntrySteps(e, g, g, epoch, e.inflight.value.value); }
  }

  lemma FailOk<V>(e: Entry<V>, g: nat, epoch: nat)
    requires EntryOk(e, g)
    ensures EntryOk(FailEntry(e, epoch).0, g)
  {
    if e.inflight.Some? { EntrySteps(e, g, g, epoch, e.inflight.value.value); }
  }

  lemma RequeueOk<V>(e: Entry<V>, g: nat, g': nat)
    requires EntryOk(e, g)
    ensures EntryOk(Requeued(e), g')
  {
    if e.inflight.Some? { EntrySteps(e, g, g', 0, e.inflight.value.value); }
  }

  lemma {:induction false} RunOk<K, V>(generation: nat, steps: seq<Step<K, V>>)
    ensures Inv(Run(generation, steps))
    decreases |steps|
  {
    if steps != [] {
      RunOk(generation, steps[..|steps| - 1]);
      TakeOk(Run(generation, steps[..|steps| - 1]), steps[|steps| - 1]);
    }
  }

  /**
    In every run and for every key: durable < in flight < desired, and the newest accepted revision is pending, in
    flight or durable; it is never lost to a failure or a reconnect.
   */
  lemma NewestIsKept<K, V>(generation: nat, steps: seq<Step<K, V>>, k: K)
    requires k in Run(generation, steps).entries
    ensures var c := Run(generation, steps);
            var e := c.entries[k];
            && Ordered(e, c.generation)
            && (e.accepted.Some? ==>
                Newest(e) == e.accepted || (Newest(e) == None && e.durableThrough == Some(e.accepted.value.epoch)))
  {
    RunOk(generation, steps);
  }

  // ---------------------------------------------------------------- what was accepted

  /** A producer offered this revision in one of the steps. */
  ghost predicate Offered<K, V>(steps: seq<Step<K, V>>, k: K, r: Revision<V>) {
    Upsert(k, r.epoch, r.value) in steps
  }

  ghost predicate OfferedEpoch<K, V>(steps: seq<Step<K, V>>, k: K, epoch: nat) {
    exists i :: 0 <= i < |steps| && steps[i].Upsert? && steps[i].key == k && steps[i].epoch == epoch
  }

  ghost predicate FromProducers<K, V>(steps: seq<Step<K, V>>, k: K, e: Entry<V>) {
    && (e.desired.Some? ==> Offered(steps, k, e.desired.value))
    && (e.inflight.Some? ==> Offered(steps, k, Revision(e.inflight.value.epoch, e.inflight.value.value)))
    && (e.durableThrough.Some? ==> OfferedEpoch(steps, k, e.durableThrough.value))
  }

  lemma OfferedStays<K, V>(steps: seq<Step<K, V>>, k: K, e: Entry<V>)
    requires steps != [] && FromProducers(steps[..|steps| - 1], k, e)
    ensures FromProducers(steps, k, e)
  {
    var before := steps[..|steps| - 1];
    assert forall i :: 0 <= i < |before| ==> before[i] == steps[i];
    assert forall s :: s in before ==> s in steps;
  }

  /**
    Nothing is made up.  In every run whatever is desired, in flight or durable for a key is a revision some producer
    offered for it, with the value it was offered with.
   */
  lemma {:induction false} HeldWasOffered<K, V>(generation: nat, steps: seq<Step<K, V>>, k: K)
    requires k in Run(generation, steps).entries
    ensures FromProducers(steps, k, Run(generation, steps).entries[k])
    decreases |steps|
  {
    if steps != [] {
      var before, s := steps[..|steps| - 1], steps[|steps| - 1];
      var c := Run(generation, before);
      if k in c.entries { HeldWasOffered(generation, before, k); }
      assert s in steps;
      OfferedStays(steps, k, At(c, k));
      OfferedStep(generation, steps, k);
    }
  }

  lemma OfferedStep<K, V>(generation: nat, steps: seq<Step<K, V>>, k: K)
    requires steps != [] && k in Run(generation, steps).entries && steps[|steps| - 1] in steps
    requires FromProducers(steps, k, At(Run(generation, steps[..|steps| - 1]), k))
    ensures FromProducers(steps, k, Run(generation, steps).entries[k])
  {
    var c, s := Run(generation, steps[..|steps| - 1]), steps[|steps| - 1];
    var e := At(c, k);
    if s.Ack? && s.key == k && e.inflight.Some? {
      var i :| 0 <= i < |steps| && steps[i] == Upsert(k, e.inflight.value.epoch, e.inflight.value.value);
    }
  }

  // ---------------------------------------------------------------- acknowledgements

  function DurableIn<K(==), V(==)>(generation: nat, steps: seq<Step<K, V>>, k: K): Option<nat> {
    At(Run(generation, steps), k).durableThrough
  }

  predicate NotBefore(a: Option<nat>, b: Option<nat>) {
    a.Some? ==> b.Some? && a.value <= b.value
  }

  lemma DurableStep<K, V>(c: Core<K, V>, s: Step<K, V>, k: K)
    requires Inv(c)
    ensures NotBefore(At(c, k).durableThrough, At(Take(c, s), k).durableThrough)
    ensures At(Take(c, s), k).durableThrough != At(c, k).durableThrough ==>
              && s.Ack? && s.key == k && s.generation == c.generation
              && At(Take(c, s), k).durableThrough == Some(s.epoch)
              && At(c, k).inflight.Some? && At(c, k).inflight.value.epoch == s.epoch
              && At(c, k).inflight.value.generation == c.generation
              && (At(c, k).durableThrough.Some? ==> At(c, k).durableThrough.value < s.epoch)
  {
    assert EntryOk(At(c, k), c.generation);
  }

  /**
    Acknowledged epochs of a key only rise, over any run.  One that changes was acknowledged in the current generation,
    for the attempt in flight, and lies strictly above the one before: no late caller of an earlier generation moves it.
   */
  lemma {:induction false} AcknowledgedRises<K, V>(generation: nat, steps: seq<Step<K, V>>, i: nat, k: K)
    requires i <= |steps|
    ensures NotBefore(DurableIn(generation, steps[..i], k), DurableIn(generation, steps, k))
    ensures i < |steps| && DurableIn(generation, steps[..i + 1], k) != DurableIn(generation, steps[..i], k) ==>
              && steps[i].Ack? && steps[i].key == k && steps[i].generation == Run(generation, steps[..i]).generation
              && DurableIn(generation, steps[..i + 1], k) == Some(steps[i].epoch)
              && (DurableIn(generation, steps[..i], k).Some? ==>
                  DurableIn(generation, steps[..i], k).value < steps[i].epoch)
    decreases |steps|
  {
    if i < |steps| {
      var before := steps[..|steps| - 1];
      assert before[..i] == steps[..i];
      AcknowledgedRises(generation, before, i, k);
      RunOk(generation, before);
      DurableStep(Run(generation, before), steps[|steps| - 1], k);
      RunOk(generation, steps[..i]);
      DurableStep(Run(generation, steps[..i]), steps[i], k);
      assert steps[..i + 1][..i] == steps[..i];
    } else {
      assert steps[..i] == steps;
    }
  }

  /** The calls of a worker that finishes the attempt in flight, if any, and then the next one. */
  function Drained<K(==), V(==)>(c: Core<K, V>, k: K): Core<K, V>
    requires k in c.entries
  {
    var e := c.entries[k];
    var c1 := if e.inflight.Some? then Take(c, Ack(k, c.generation, e.inflight.value.epoch)) else c;
    var c2 := Take(c1, Claim(k, c.generation));
    var e2 := At(c2, k);
    if e2.inflight.Some? then Take(c2, Ack(k, c.generation, e2.inflight.value.epoch)) else c2
  }

  /** In every run, draining a key makes its newest accepted revision durable and leaves nothing open. */
  lemma DrainMakesDurable<K, V>(generation: nat, steps: seq<Step<K, V>>, k: K)
    requires k in Run(generation, steps).entries && Run(generation, steps).entries[k].accepted.Some?
    ensures var c := Run(generation, steps);
            var e := At(Drained(c, k), k);
            e.durableThrough == Some(c.entries[k].accepted.value.epoch) && e.inflight == None && e.desired == None
  {
    RunOk(generation, steps);
  }

  lemma OneLess<T>(a: set<T>, todo: set<T>, k: T)
    requires k in todo
    ensures |a - (todo - {k})| == |a - todo| + if k in a then 1 else 0
  {
    assert a - (todo - {k}) == if k in a then (a - todo) + {k} else a - todo;
  }

  // ---------------------------------------------------------------- the object

  class Projection<K(==), V(==)> {
    var generation: nat
    var entries: map<K, Entry<V>>

    function Model(): Core<K, V>
      reads this
    {
      Core(generation, entries)
    }

    ghost predicate Valid()
      reads this
    {
      Inv(Model())
    }

    constructor (generation: nat)
      ensures Model() == Core(generation, map[]) && Valid()
    {
      this.generation, entries := generation, map[];
    }

    method UpsertDesired(k: K, epoch: nat, value: V) returns (r: Upserted)
      modifies this
      ensures old(Valid()) ==> Valid()
      ensures Model() == Take(old(Model()), Upsert(k, epoch, value))
              && r == UpsertEntry(At(old(Model()), k), epoch, value).1
    {
      if Valid() { TakeOk(Model(), Upsert(k, epoch, value)); }
      var e := if k in entries then entries[k] else Blank();
      entries := entries[k := e];
      if e.durableThrough.Some? && epoch <= e.durableThrough.value { return AlreadyDurable(e.durableThrough.value); }
      var newest := e.desired;
      if e.inflight.Some? && (newest.None? || e.inflight.value.epoch > newest.value.epoch) {
        newest := Some(Revision(e.inflight.value.epoch, e.inflight.value.value));
      }
      if newest.Some? {
        if epoch < newest.value.epoch { return StaleEpoch(newest.value.epoch); }
        if epoch == newest.value.epoch { return if value == newest.value.value then Unchanged else EpochConflict; }
      }
      entries := entries[k := e.(desired := Some(Revision(epoch, value)), accepted := Some(Revision(epoch, value)))];
      return Accepted;
    }

    method ClaimNext(k: K, g: nat) returns (r: Claimed<V>)
      modifies this
      ensures old(Valid()) ==> Valid()
      ensures Model() == Take(old(Model()), Claim(k, g))
      ensures r == if g != old(generation) then ClaimStale(old(generation)) else ClaimEntry(At(old(Model()), k), g).1
    {
      if Valid() { TakeOk(Model(), Claim(k, g)); }
      if g != generation { return ClaimStale(generation); }
      var e := if k in entries then entries[k] else Blank();
      entries := entries[k := e];
      if e.inflight.Some? { return Busy; }
      if e.desired.None? { return Empty; }
      var env := Envelope(generation, e.desired.value.epoch, e.desired.value.value);
      entries := entries[k := e.(desired := None, inflight := Some(env))];
      return GotClaim(env);
    }

    method AckApplied(k: K, g: nat, epoch: nat) returns (r: Acked)
      modifies this
      ensures old(Valid()) ==> Valid()
      ensures Model() == Take(old(Model()), Ack(k, g, epoch))
      ensures r == if g != old(generation) then AckStale(old(generation)) else AckEntry(At(old(Model()), k), epoch).1
    {
      if Valid() { TakeOk(Model(), Ack(k, g, epoch)); }
      if g != generation { return AckStale(generation); }
      var e := if k in entries then entries[k] else Blank();
      entries := entries[k := e];
      if e.inflight.None? || e.inflight.value.epoch != epoch {
        if e.durableThrough.Some? && epoch <= e.durableThrough.value { return AckUnchanged(e.durableThrough.value); }
        return AckUnknown;
      }
      e := e.(inflight := None);
      entries := entries[k := e];
      if e.durableThrough.None? || epoch > e.durableThrough.value {
        entries := entries[k := e.(durableThrough := Some(epoch))];
        return Advanced(epoch);
      }
      return AckUnchanged(e.durableThrough.value);
    }

    method FailRetryable(k: K, g: nat, epoch: nat) returns (r: Failed)
      modifies this
      ensures old(Valid()) ==> Valid()
      ensures Model() == Take(old(Model()), Fail(k, g, epoch))
      ensures r == if g != old(generation) then FailStale(old(generation)) else FailEntry(At(old(Model()), k), epoch).1
    {
      if Valid() { TakeOk(Model(), Fail(k, g, epoch)); }
      if g != generation { return FailStale(generation); }
      var e := if k in entries then entries[k] else Blank();
      entries := entries[k := e];
      if e.inflight.None? || e.inflight.value.epoch != epoch { return FailUnknown; }
      var attempt := e.inflight.value;
      e := e.(inflight := None);
      entries := entries[k := e];
      if e.desired.Some? && e.desired.value.epoch > attempt.epoch { return Superseded; }
      entries := entries[k := e.(desired := Some(Revision(attempt.epoch, attempt.value)))];
      return Pending;
    }

    /** Reconnect: every attempt in flight is requeued or superseded, entry by entry. */
    method ReconnectAt(g: nat) returns (requeued: nat, superseded: nat)
      modifies this
      ensures old(Valid()) ==> Valid()
      ensures Model() == Take(old(Model()), Reconnect(g))
      ensures requeued == (if g > old(generation) then |ToRequeue(old(entries))| else 0)
      ensures superseded == (if g > old(generation) then |ToSupersede(old(entries))| else 0)
    {
      if Valid() { TakeOk(Model(), Reconnect(g)); }
      requeued, superseded := 0, 0;
      if g > generation {
        requeued, superseded := RequeueAll();
        generation := g;
      }
    }

    method RequeueAll() returns (requeued: nat, superseded: nat)
      modifies this`entries
      ensures entries == map k | k in old(entries) :: Requeued(old(entries)[k])
      ensures requeued == |ToRequeue(old(entries))| && superseded == |ToSupersede(old(entries))|
    {
      requeued, superseded := 0, 0;
      var todo := entries.Keys;
      ghost var was := entries;
      CountNone(was);
      while todo != {}
        invariant (requeued, superseded) == Counts(was, todo)
        invariant todo <= was.Keys && entries == HalfRequeued(was, todo)
        decreases |todo|
      {
        var k :| k in todo;
        CountOne(was, todo, k);
        var again := RequeueOne(k);
        if again.Some? {
          if again.value { requeued := requeued + 1; } else { superseded := superseded + 1; }
        }
        todo := todo - {k};
      }
      CountAll(was);
    }

    /** One entry: whether an attempt was queued again (true) or dropped for a newer value (false). */
    method RequeueOne(k: K) returns (again: Option<bool>)
      requires k in entries
      modifies this`entries
      ensures entries == old(entries)[k := Requeued(old(entries)[k])] && again == Fate(old(entries)[k])
    {
      var e := entries[k];
      if e.inflight.None? { return None; }
      if e.desired.Some? && e.desired.value.epoch > e.inflight.value.epoch {
        entries := entries[k := e.(inflight := None)];
        return Some(false);
      }
      entries := entries[k := e.(inflight := None,
          desired := Some(Revision(e.inflight.value.epoch, e.inflight.value.value)))];
      return Some(true);
    }
  }

  function Fate<V>(e: Entry<V>): Option<bool> {
    if e.inflight.None? then None else Some(!Outrun(e))
  }

  function HalfRequeued<K, V>(was: map<K, Entry<V>>, todo: set<K>): map<K, Entry<V>> {
    map k | k in was :: if k in todo then was[k] else Requeued(was[k])
  }

  function Counts<K, V>(was: map<K, Entry<V>>, todo: set<K>): (nat, nat) {
    (|ToRequeue(was) - todo|, |ToSupersede(was) - todo|)
  }

  lemma CountNone<K, V>(was: map<K, Entry<V>>)
    ensures Counts(was, was.Keys) == (0, 0) && HalfRequeued(was, was.Keys) == was
  {
    assert ToRequeue(was) - was.Keys == {} && ToSupersede(was) - was.Keys == {};
  }

  lemma CountAll<K, V>(was: map<K, Entry<V>>)
    ensures Counts(was, {}) == (|ToRequeue(was)|, |ToSupersede(was)|)
    ensures HalfRequeued(was, {}) == map k | k in was :: Requeued(was[k])
  {
    assert ToRequeue(was) - {} == ToRequeue(was) && ToSupersede(was) - {} == ToSupersede(was);
  }

  lemma CountOne<K, V>(was: map<K, Entry<V>>, todo: set<K>, k: K)
    requires k in todo && k in was
    ensures var (r, s) := Counts(was, todo);
            Counts(was, todo - {k}) == (r + (if Fate(was[k]) == Some(true) then 1 else 0),
                s + if Fate(was[k]) == Some(false) then 1 else 0)
    ensures k in HalfRequeued(was, todo) && HalfRequeued(was, todo)[k] == was[k]
    ensures HalfRequeued(was, todo - {k}) == HalfRequeued(was, todo)[k := Requeued(was[k])]
  {
    OneLess(ToRequeue(was), todo, k);
    OneLess(ToSupersede(was), todo, k);
  }
}
