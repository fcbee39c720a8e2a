/** What every step of the asynchronous graph keeps. */
module AsyncInvariant {
  import opened Basics
  import opened AsyncGraph

  ghost predicate Edge(st: State, r: Id, x: Id) {
    x in Of(st.dependents, r)
  }

  /** The outcome `o` read from `r` is still what `r` has to offer. */
  ghost predicate ReadHolds(st: State, r: Id, o: Outcome) {
    && (r in st.sources || r in st.slots)
    && (r in st.sources ==> o == Ok(st.sources[r]) || (o.Ok? && r in st.batchQueue))
    && (r in st.slots && o.Ok? ==> st.slots[r].state == Resolved && st.slots[r].value == Some(o.value))
  }

  /** Read number `i` of slot `x` has its reverse edge and still holds. */
  ghost predicate ReadOk(env: Env, st: State, x: Id, hist: seq<Outcome>, i: nat)
    requires i < |hist| && x in st.slots
  {
    var a := env.prog(x, hist[..i]);
    a.Read? && a.dep in st.slots[x].deps && ReadHolds(st, a.dep, hist[i])
  }

  ghost predicate TraceHolds(env: Env, st: State, x: Id, hist: seq<Outcome>)
    requires x in st.slots
  {
    forall i :: 0 <= i < |hist| ==> ReadOk(env, st, x, hist, i)
  }

  /** A compute of the slot has come to an end and nothing below has been invalidated since. */
  predicate Settled(s: Slot) {
    s.state == Resolved || s.state == Failed
  }

  /** Every value read from a slot was cached before the result it went into. */
  ghost predicate ReadsOlder(env: Env, st: State, x: Id)
    requires x in st.slots
  {
    forall i :: 0 <= i < |st.slots[x].trace| ==> ReadOlder(env, st, x, i)
  }

  ghost predicate ReadOlder(env: Env, st: State, x: Id, i: nat)
    requires x in st.slots && i < |st.slots[x].trace|
  {
    var a := env.prog(x, st.slots[x].trace[..i]);
    a.Read? && (st.slots[x].trace[i].Ok? && a.dep in st.slots ==> st.slots[a.dep].at < st.slots[x].at)
  }

  ghost predicate EdgesBack(st: State, x: Id)
    requires x in st.slots
  {
    forall r :: r in st.slots[x].deps ==> Edge(st, r, x)
  }

  ghost predicate PhaseOk(env: Env, st: State, x: Id, r: Run)
    requires x in st.slots
  {
    (r.phase.Tracked? || r.phase.Waiting? ==>
       && env.prog(x, r.hist) == Read(r.phase.dep) && r.phase.dep in st.slots && r.phase.dep in st.slots[x].deps)
    && (r.phase.Waiting? && r.phase.waiter in st.mail ==> MailOk(st, r.phase.dep, st.mail[r.phase.waiter]))
  }

  /** A delivered value is the one its slot has cached. */
  ghost predicate MailOk(st: State, d: Id, reply: Reply) {
    reply.Answer? && reply.outcome.Ok? ==>
      d in st.slots && st.slots[d].state == Resolved && st.slots[d].value == Some(reply.outcome.value)
  }

  ghost predicate SlotOk(env: Env, st: State, x: Id)
    requires x in st.slots
  {
    var s := st.slots[x];
    && (s.inFlight.Some? ==>
          && s.state == Computing && s.inFlight.value in st.runs
          && var r := st.runs[s.inFlight.value];
             && r.slot == x && !r.cancelled && !r.phase.Finished?
             && TraceHolds(env, st, x, r.hist) && PhaseOk(env, st, x, r) && EdgesBack(st, x))
    && (s.state == Resolved ==> s.value.Some?)
    && (Settled(s) ==> s.at < st.clock && TraceHolds(env, st, x, s.trace) && EdgesBack(st, x))
  }

  /** Registered waiters belong to a slot with a compute in flight; their channels are empty. */
  ghost predicate WaitersOk(st: State, x: Id)
    requires x in st.slots
  {
    var s := st.slots[x];
    && (s.waiters != [] ==> s.inFlight.Some?)
    && Distinct(s.waiters)
    && (forall w :: w in s.waiters ==> w < st.nextWaiter && w !in st.mail)
  }

  ghost predicate RunOk(st: State, t: Token)
    requires t in st.runs
  {
    var r := st.runs[t];
    && t < st.nextToken && r.slot in st.slots
    && (!r.cancelled && !r.phase.Finished? ==> st.slots[r.slot].inFlight == Some(t))
    && (r.phase.Waiting? ==>
          && r.phase.waiter < st.nextWaiter && r.phase.dep in st.slots
          && (r.phase.waiter in st.slots[r.phase.dep].waiters || r.phase.waiter in st.mail))
  }

  ghost predicate Shape(st: State) {
    && st.sources.Keys !! st.slots.Keys
    && (forall k :: k in st.dependents ==> st.dependents[k] <= st.slots.Keys)
    && (st.batchDepth == 0 ==> st.batchQueue == {})
    && st.batchQueue <= st.sources.Keys
    && (forall w :: w in st.mail ==> w < st.nextWaiter)
  }

  ghost predicate SameWaiter(p: Phase, q: Phase) {
    p.Waiting? && q.Waiting? && p.waiter == q.waiter
  }

  ghost predicate Awaits(st: State, x: Id, w: WaiterId)
    requires x in st.slots
  {
    w in st.slots[x].waiters
  }

  ghost predicate WaitersApart(st: State) {
    && (forall x, y, w :: x in st.slots && y in st.slots && Awaits(st, x, w) && Awaits(st, y, w) ==> x == y)
    && (forall t, u :: t in st.runs && u in st.runs && SameWaiter(st.runs[t].phase, st.runs[u].phase) ==> t == u)
  }

  /** Slots, their edges and the computes in flight. */
  ghost predicate SlotsOk(env: Env, st: State) {
    forall x {:trigger SlotOk(env, st, x)} :: x in st.slots ==> SlotOk(env, st, x)
  }

  /** Waiters, channels and compute records. */
  ghost predicate QueuesOk(st: State) {
    && WaitersApart(st)
    && (forall x {:trigger WaitersOk(st, x)} :: x in st.slots ==> WaitersOk(st, x))
    && (forall t {:trigger RunOk(st, t)} :: t in st.runs ==> RunOk(st, t))
  }

  ghost predicate Inv(env: Env, st: State) {
    Shape(st) && SlotsOk(env, st) && QueuesOk(st)
  }

  /** A settled slot holds what its compute makes of the recorded reads. */
  ghost predicate CacheOk(env: Env, st: State, x: Id)
    requires x in st.slots
  {
    var s := st.slots[x];
    && (s.state == Resolved && s.value.Some? && GuardExact(env, x) ==> env.prog(x, s.trace) == Done(s.value.value))
    && (s.state == Failed ==> env.prog(x, s.trace) == Fail(s.error))
    && (Settled(s) ==> ReadsOlder(env, st, x))
  }

  ghost predicate CachesOk(env: Env, st: State) {
    forall x {:trigger CacheOk(env, st, x)} :: x in st.slots ==> CacheOk(env, st, x)
  }

  /** The memo guard of `x` only suppresses values that really are equal. */
  ghost predicate GuardExact(env: Env, x: Id) {
    forall a, b :: env.same(x, a, b) ==> a == b
  }

  /** The compute of `x` produces no value once one of its reads has failed. */
  ghost predicate PassesErrors(env: Env, x: Id) {
    forall hist: seq<Outcome> {:trigger env.prog(x, hist)} ::
      (exists i :: 0 <= i < |hist| && hist[i].Err?) ==> !env.prog(x, hist).Done?
  }
}
