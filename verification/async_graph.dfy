/**
  The asynchronous reactive graph as a state machine.

  One owner loop executes commands one at a time; compute goroutines run beside it
  and talk to it through commands and one-shot waiter channels.  Every command is one
  atomic step here, and so is every move of a compute between two commands.  A compute
  is deterministic: the outcomes it has read so far decide what it does next.
 */
module AsyncGraph {
  import opened Basics

  /** Values are opaque: everything below holds for any value type with equality. */
  type Value(==, !new)

  type Id = nat
  type Token = nat
  type WaiterId = nat

  datatype Outcome = Ok(value: Value) | Err(code: int)

  datatype Action = Read(dep: Id) | Done(result: Value) | Fail(code: int)

  /** What a waiter channel delivers. */
  datatype Reply = Answer(outcome: Outcome) | Superseded

  datatype SlotState = Empty | Computing | Resolved | Failed

  /** `trace` (the reads behind the last value or error), `at` (when it settled) and `error` (what a failed
      compute reported) are history variables: no step looks at them. */
  datatype Slot = Slot(state: SlotState, revision: nat, value: Option<Value>, inFlight: Option<Token>,
                          waiters: seq<WaiterId>, deps: set<Id>, trace: seq<Outcome>, at: nat, error: int)

  datatype Phase = Idle | Tracked(dep: Id) | Waiting(dep: Id, waiter: WaiterId) | Finished

  /** A compute goroutine: the slot it works for, what it has read, where it stands. */
  datatype Run = Run(slot: Id, hist: seq<Outcome>, phase: Phase, cancelled: bool)

  datatype State = State(sources: map<Id, Value>, slots: map<Id, Slot>, dependents: map<Id, set<Id>>,
                            runs: map<Token, Run>, mail: map<WaiterId, Reply>,
                            nextToken: Token, nextWaiter: WaiterId,
                            batchDepth: nat, batchQueue: set<Id>, clock: nat)

  /** The computes of a graph, and the memo guard of each slot (never true for an unguarded slot). */
  datatype Env = Env(prog: (Id, seq<Outcome>) -> Action, same: (Id, Value, Value) -> bool)

  const CANCELLED: int := -1

  datatype Step =
    | NewSource(id: Id, init: Value)
    | NewComputed(id: Id)
    | Set(id: Id, value: Value)
    | Get(slot: Id)
    | CancelGet(slot: Id, waiter: WaiterId)
    | ReadSource(run: Token)
    | Track(run: Token)
    | Await(run: Token)
    | Receive(run: Token)
    | Abandon(run: Token)
    | Complete(run: Token)
    | BatchBegin
    | BatchEnd

  // ---------------------------------------------------------------- edges

  function Of(m: map<Id, set<Id>>, x: Id): set<Id> {
    if x in m then m[x] else {}
  }

  function AddEdge(m: map<Id, set<Id>>, dep: Id, d: Id): map<Id, set<Id>> {
    m[dep := Of(m, dep) + {d}]
  }

  /** Drops `d` from the dependents of every node in `deps`; an emptied entry disappears. */
  function RemoveEdges(m: map<Id, set<Id>>, deps: set<Id>, d: Id): map<Id, set<Id>> {
    map k | k in m && !(k in deps && m[k] <= {d}) :: if k in deps then m[k] - {d} else m[k]
  }

  function TrackDep(st: State, x: Id, dep: Id): State
    requires x in st.slots
  {
    var s := st.slots[x];
    if dep in s.deps then st
    else st.(slots := st.slots[x := s.(deps := s.deps + {dep})], dependents := AddEdge(st.dependents, dep, x))
  }

  // ---------------------------------------------------------------- propagation

  ghost predicate IsPath(m: map<Id, set<Id>>, p: seq<Id>) {
    |p| >= 2 && forall i :: 0 <= i < |p| - 1 ==> p[i + 1] in Of(m, p[i])
  }

  ghost predicate PathFrom(m: map<Id, set<Id>>, roots: set<Id>, p: seq<Id>, x: Id) {
    IsPath(m, p) && p[0] in roots && p[|p| - 1] == x
  }

  ghost predicate Reaches(m: map<Id, set<Id>>, roots: set<Id>, x: Id) {
    exists p :: PathFrom(m, roots, p, x)
  }

  /** The transitive dependents of `roots`. */
  ghost function Cone(st: State, roots: set<Id>): set<Id> {
    set x | x in st.slots && Reaches(st.dependents, roots, x)
  }

  /** The nodes of `gone` that `x` depends on. */
  function EdgesInto(m: map<Id, set<Id>>, gone: set<Id>, x: Id): set<Id> {
    set c | c in gone && x in Of(m, c)
  }

  predicate Hit(m: map<Id, set<Id>>, gone: set<Id>, x: Id) {
    EdgesInto(m, gone, x) != {}
  }

  function HitWaiters(st: State, gone: set<Id>): set<WaiterId> {
    set x, w | x in st.slots && Hit(st.dependents, gone, x) && w in st.slots[x].waiters :: w
  }

  /** invalidateSlot, once for each of `k` edges. */
  function Invalidated(s: Slot, k: nat): Slot {
    s.(revision := s.revision + k, state := Computing, inFlight := None, waiters := [])
  }

  /** Slot `x` after the out-edges of every node in `gone` have been consumed. */
  function SlotAfter(st: State, gone: set<Id>, x: Id): Slot
    requires x in st.slots
  {
    if Hit(st.dependents, gone, x) then Invalidated(st.slots[x], |EdgesInto(st.dependents, gone, x)|) else st.slots[x]
  }

  function RunAfter(st: State, gone: set<Id>, t: Token): Run
    requires t in st.runs
  {
    if OwnedHit(st, gone, t) then st.runs[t].(cancelled := true) else st.runs[t]
  }

  function Told(mail: map<WaiterId, Reply>, ws: set<WaiterId>): map<WaiterId, Reply> {
    mail + map w | w in ws :: Superseded
  }

  /** The state after the out-edges of every node in `gone` have been consumed. */
  function Consume(st: State, gone: set<Id>): State {
    st.(slots := map x | x in st.slots :: SlotAfter(st, gone, x),
        dependents := st.dependents - gone,
        runs := map t | t in st.runs :: RunAfter(st, gone, t),
        mail := Told(st.mail, HitWaiters(st, gone)))
  }

  predicate OwnedHit(st: State, gone: set<Id>, t: Token)
    requires t in st.runs
  {
    var x := st.runs[t].slot;
    x in st.slots && st.slots[x].inFlight == Some(t) && Hit(st.dependents, gone, x)
  }

  ghost function Propagate(st: State, roots: set<Id>): State {
    Consume(st, roots + Cone(st, roots))
  }

  // ---------------------------------------------------------------- commands

  function Spawn(st: State, x: Id): State
    requires x in st.slots
  {
    var s := st.slots[x];
    st.(slots := st.slots[x := s.(state := Computing, deps := {}, inFlight := Some(st.nextToken))],
        dependents := RemoveEdges(st.dependents, s.deps, x),
        runs := st.runs[st.nextToken := Run(x, [], Idle, false)],
        nextToken := st.nextToken + 1)
  }

  /** A GetAsync that did not find the slot resolved: queue a waiter, start a compute if none runs. */
  function Join(st: State, x: Id): State
    requires x in st.slots
  {
    var s := st.slots[x];
    var st1 := st.(slots := st.slots[x := s.(waiters := s.waiters + [st.nextWaiter])], nextWaiter := st.nextWaiter + 1);
    if s.inFlight == None then Spawn(st1, x) else st1
  }

  function Without<T(==)>(s: seq<T>, w: T): seq<T> {
    if s == [] then [] else if s[0] == w then s[1..] else [s[0]] + Without(s[1..], w)
  }

  function RemoveWaiter(st: State, x: Id, w: WaiterId): State
    requires x in st.slots
  {
    st.(slots := st.slots[x := st.slots[x].(waiters := Without(st.slots[x].waiters, w))])
  }

  function Deliver(mail: map<WaiterId, Reply>, ws: seq<WaiterId>, o: Outcome): map<WaiterId, Reply> {
    mail + map w | w in ws :: Answer(o)
  }

  /** onComplete for a run whose token is still the slot's. */
  function Settle(env: Env, st: State, x: Id, hist: seq<Outcome>): State
    requires x in st.slots && !env.prog(x, hist).Read?
  {
    var s := st.slots[x];
    match env.prog(x, hist)
    case Fail(e) =>
      st.(slots := st.slots[x := s.(inFlight := None, state := Failed, waiters := [],
                                    trace := hist, at := st.clock, error := e)],
          mail := Deliver(st.mail, s.waiters, Err(e)), clock := st.clock + 1)
    case Done(v) =>
      var kept := if s.value.Some? && env.same(x, s.value.value, v) then s.value.value else v;
      st.(slots := st.slots[x := s.(inFlight := None, state := Resolved, value := Some(kept), waiters := [],
                                    trace := hist, at := st.clock)],
          mail := Deliver(st.mail, s.waiters, Ok(kept)), clock := st.clock + 1)
  }

  function WithRun(st: State, t: Token, r: Run): State {
    st.(runs := st.runs[t := r])
  }

  predicate Enabled(env: Env, st: State, step: Step) {
    match step
    case NewSource(id, _) => id !in st.sources && id !in st.slots
    case NewComputed(id) => id !in st.sources && id !in st.slots
    case Set(id, _) => id in st.sources
    case Get(x) => x in st.slots
    case CancelGet(x, w) => x in st.slots && forall t :: t in st.runs ==> !(st.runs[t].phase == Waiting(x, w))
    case ReadSource(t) => AtRead(env, st, t) && NextDep(env, st, t) in st.sources
    case Track(t) => AtRead(env, st, t) && NextDep(env, st, t) in st.slots
    case Await(t) => t in st.runs && st.runs[t].phase.Tracked? && st.runs[t].phase.dep in st.slots
    case Receive(t) => t in st.runs && st.runs[t].phase.Waiting? && st.runs[t].phase.waiter in st.mail
    case Abandon(t) => t in st.runs && st.runs[t].phase.Waiting? && st.runs[t].cancelled
                       && st.runs[t].phase.dep in st.slots
    case Complete(t) => t in st.runs && st.runs[t].phase.Idle? && st.runs[t].slot in st.slots
                        && !env.prog(st.runs[t].slot, st.runs[t].hist).Read?
    case BatchBegin => true
    case BatchEnd => st.batchDepth > 0
  }

  predicate AtRead(env: Env, st: State, t: Token) {
    t in st.runs && st.runs[t].phase.Idle? && st.runs[t].slot in st.slots
    && env.prog(st.runs[t].slot, st.runs[t].hist).Read?
  }

  function NextDep(env: Env, st: State, t: Token): Id
    requires AtRead(env, st, t)
  {
    env.prog(st.runs[t].slot, st.runs[t].hist).dep
  }

  /** Registers the edge before a tracked read, unless the compute has been superseded. */
  function TrackRead(st: State, t: Token, dep: Id): State
    requires t in st.runs && st.runs[t].slot in st.slots
  {
    if st.runs[t].cancelled then st else TrackDep(st, st.runs[t].slot, dep)
  }

  ghost function Take(env: Env, st: State, step: Step): State
    requires Enabled(env, st, step)
  {
    match step
    case NewSource(id, v) => st.(sources := st.sources[id := v])
    case NewComputed(id) => st.(slots := st.slots[id := Slot(Empty, 0, None, None, [], {}, [], 0, 0)])
    case Set(id, v) => Write(st, id, v)
    case Get(x) => if st.slots[x].state == Resolved then st else Join(st, x)
    case CancelGet(x, w) => RemoveWaiter(st, x, w)
    case ReadSource(t) =>
      var a := NextDep(env, st, t);
      var r := st.runs[t];
      WithRun(TrackRead(st, t, a), t, r.(hist := r.hist + [Ok(st.sources[a])]))
    case Track(t) =>
      var d := NextDep(env, st, t);
      WithRun(TrackRead(st, t, d), t, st.runs[t].(phase := Tracked(d)))
    case Await(t) =>
      var r := st.runs[t];
      var d := r.phase.dep;
      if st.slots[d].state == Resolved && st.slots[d].value.Some?
      then WithRun(st, t, r.(hist := r.hist + [Ok(st.slots[d].value.value)], phase := Idle))
      else WithRun(Join(st, d), t, r.(phase := Waiting(d, st.nextWaiter)))
    case Receive(t) =>
      var r := st.runs[t];
      var reply := st.mail[r.phase.waiter];
      WithRun(st.(mail := st.mail - {r.phase.waiter}), t,
              match reply
              case Superseded => r.(phase := Tracked(r.phase.dep))
              case Answer(o) => r.(hist := r.hist + [o], phase := Idle))
    case Abandon(t) =>
      var r := st.runs[t];
      WithRun(RemoveWaiter(st, r.phase.dep, r.phase.waiter), t,
              r.(hist := r.hist + [Err(CANCELLED)], phase := Idle))
    case Complete(t) =>
      var r := st.runs[t];
      var st1 := WithRun(st, t, r.(phase := Finished));
      if st.slots[r.slot].inFlight == Some(t) then Settle(env, st1, r.slot, r.hist) else st1
    case BatchBegin => st.(batchDepth := st.batchDepth + 1)
    case BatchEnd =>
      var st1 := st.(batchDepth := st.batchDepth - 1);
      if st1.batchDepth == 0 then Propagate(st1.(batchQueue := {}), st.batchQueue) else st1
  }

  /** AsyncSource.Set: an equal value changes nothing; inside a batch the root is queued. */
  ghost function Write(st: State, a: Id, v: Value): State
    requires a in st.sources
  {
    if st.sources[a] == v then st
    else
      var st1 := st.(sources := st.sources[a := v]);
      if st.batchDepth > 0 then st1.(batchQueue := st.batchQueue + {a}) else Propagate(st1, {a})
  }

  ghost function Initial(): State {
    State(map[], map[], map[], map[], map[], 0, 0, 0, {}, 0)
  }

  /** `run` is an execution: it starts in the initial state and every step was enabled. */
  ghost predicate IsExecution(env: Env, steps: seq<Step>, states: seq<State>) {
    |states| == |steps| + 1 && states[0] == Initial()
    && forall i :: 0 <= i < |steps| ==>
         Enabled(env, states[i], steps[i]) && states[i + 1] == Take(env, states[i], steps[i])
  }
}
