/**
  A compute that swallows an error can stay stale.

  A failed slot caches nothing, so the next read of it starts over, and starting over drops its edges.  A slot
  that turned the failure into a value of its own depends on those edges: a write that lands before they are
  registered again never reaches it.
 */
module AsyncSwallow {
  import opened Basics
  import opened AsyncGraph
  import opened AsyncInvariant
  import opened AsyncFreshness
  import opened AsyncErrors

  const Input: Id := 0
  const Fragile: Id := 1
  const Fallback: Id := 2

  /** `Fragile` fails while the input is `bad`; `Fallback` turns that failure into the value `bad`. */
  function SwallowingEnv(bad: Value, good: Value): Env {
    Env((x: Id, hist: seq<Outcome>) =>
          if |hist| == 0 then Read(if x == Fragile then Input else Fragile)
          else if x == Fragile then (if hist[0] == Ok(bad) then Fail(7) else Done(good))
          else if hist[0].Ok? then Done(hist[0].value) else Done(bad),
        (x: Id, a: Value, b: Value) => false)
  }

  function Graph(v: Value, fragile: Slot, fallback: Slot, dependents: map<Id, set<Id>>,
                 runs: map<Token, Run>, mail: map<WaiterId, Reply>, nextToken: nat, nextWaiter: nat,
                     clock: nat): State {
    State(map[Input := v], map[Fragile := fragile, Fallback := fallback], dependents, runs, mail,
          nextToken, nextWaiter, 0, {}, clock)
  }

  function Blank(): Slot { Slot(Empty, 0, None, None, [], {}, [], 0, 0) }

  function Busy(t: Token, ws: seq<WaiterId>, deps: set<Id>, trace: seq<Outcome>, error: int): Slot {
    Slot(Computing, 0, None, Some(t), ws, deps, trace, 0, error)
  }

  function Down(bad: Value): Slot { Slot(Failed, 0, None, None, [], {Input}, [Ok(bad)], 0, 7) }

  function Both(): map<Id, set<Id>> { map[Fragile := {Fallback}, Input := {Fragile}] }

  function Stuck(bad: Value): Slot { Slot(Resolved, 0, Some(bad), None, [], {Fragile}, [Err(7)], 1, 0) }

  function Awaiting(): Run { Run(Fallback, [], Waiting(Fragile, 1), false) }

  function FailedRun(bad: Value): Run { Run(Fragile, [Ok(bad)], Finished, false) }

  /** The fragile compute has read the bad input and is about to fail. */
  function BadRead(bad: Value): State {
    Graph(bad, Busy(1, [1], {Input}, [], 0), Busy(0, [0], {Fragile}, [], 0), Both(),
          map[0 := Awaiting(), 1 := Run(Fragile, [Ok(bad)], Idle, false)], map[], 2, 2, 0)
  }

  /** It has failed, and the error waits for the fallback. */
  function ErrorSent(bad: Value): State {
    Graph(bad, Down(bad), Busy(0, [0], {Fragile}, [], 0), Both(), map[0 := Awaiting(), 1 := FailedRun(bad)],
        map[1 := Answer(Err(7))], 2, 2, 1)
  }

  /** The fallback has received the error. */
  function ErrorRead(bad: Value): State {
    Graph(bad, Down(bad), Busy(0, [0], {Fragile}, [], 0), Both(),
          map[0 := Run(Fallback, [Err(7)], Idle, false), 1 := FailedRun(bad)], map[], 2, 2, 1)
  }

  /** The fallback has swallowed the error and resolved. */
  function Swallowed(bad: Value): State {
    Graph(bad, Down(bad), Stuck(bad), Both(), map[0 := Run(Fallback, [Err(7)], Finished, false), 1 := FailedRun(bad)],
          map[0 := Answer(Ok(bad))], 2, 2, 2)
  }

  /** The states of the failing run, from the created graph to the write. */
  function StateAt(bad: Value, good: Value, k: nat): State {
    if k == 0 then Graph(bad, Blank(), Blank(), map[], map[], map[], 0, 0, 0)
    else if k == 1 then Graph(bad, Blank(), Busy(0, [0], {}, [], 0), map[], map[0 := Run(Fallback, [], Idle, false)],
        map[], 1, 1, 0)
    else if k == 2 then Graph(bad, Blank(), Busy(0, [0], {Fragile}, [], 0), map[Fragile := {Fallback}],
                              map[0 := Run(Fallback, [], Tracked(Fragile), false)], map[], 1, 1, 0)
    else if k == 3 then Graph(bad, Busy(1, [1], {}, [], 0), Busy(0, [0], {Fragile}, [], 0), map[Fragile := {Fallback}],
                              map[0 := Awaiting(), 1 := Run(Fragile, [], Idle, false)], map[], 2, 2, 0)
    else if k == 4 then BadRead(bad)
    else if k == 5 then ErrorSent(bad)
    else if k == 6 then ErrorRead(bad)
    else if k == 7 then Swallowed(bad)
    else Graph(if k == 8 then bad else good, Busy(2, [2], {}, [Ok(bad)], 7), Stuck(bad), map[Fragile := {Fallback}],
               map[0 := Run(Fallback, [Err(7)], Finished, false), 1 := FailedRun(bad),
                   2 := Run(Fragile, [], Idle, false)],
               map[0 := Answer(Ok(bad))], 3, 3, 2)
  }

  function StepAt(good: Value, k: nat): Step {
    if k == 0 then Get(Fallback) else if k == 1 then Track(0) else if k == 2 then Await(0)
    else if k == 3 then ReadSource(1) else if k == 4 then Complete(1) else if k == 5 then Receive(0)
    else if k == 6 then Complete(0) else if k == 7 then Get(Fragile) else Set(Input, good)
  }

  lemma SpawnFallback(bad: Value, good: Value, k: nat)
    requires bad != good && k < 2
    ensures Enabled(SwallowingEnv(bad, good), StateAt(bad, good, k), StepAt(good, k))
    ensures Take(SwallowingEnv(bad, good), StateAt(bad, good, k), StepAt(good, k)) == StateAt(bad, good, k + 1)
  {
    assert [] + [0 as WaiterId] == [0];
    assert RemoveEdges(map[], {}, Fallback) == map[];
    assert {} + {Fragile} == {Fragile} && {} + {Fallback} == {Fallback};
  }

  lemma SpawnFragile(bad: Value, good: Value, k: nat)
    requires bad != good && k == 2
    ensures Enabled(SwallowingEnv(bad, good), StateAt(bad, good, k), StepAt(good, k))
    ensures Take(SwallowingEnv(bad, good), StateAt(bad, good, k), StepAt(good, k)) == StateAt(bad, good, k + 1)
  {
    var env, st, st' := SwallowingEnv(bad, good), StateAt(bad, good, 2), StateAt(bad, good, 3);
    assert [] + [1 as WaiterId] == [1];
    assert RemoveEdges(st.dependents, {}, Fragile) == st.dependents;
    var joined := Join(st, Fragile);
    assert joined.slots == st'.slots && joined.dependents == st'.dependents;
    assert Take(env, st, Await(0)).runs == st'.runs;
  }

  lemma ReadBadInput(bad: Value, good: Value, k: nat)
    requires bad != good && k == 3
    ensures Enabled(SwallowingEnv(bad, good), StateAt(bad, good, k), StepAt(good, k))
    ensures Take(SwallowingEnv(bad, good), StateAt(bad, good, k), StepAt(good, k)) == StateAt(bad, good, k + 1)
  {
    var env, st, st' := SwallowingEnv(bad, good), StateAt(bad, good, 3), StateAt(bad, good, 4);
    assert NextDep(env, st, 1) == Input;
    var read := TrackRead(st, 1, Input);
    assert [] + [Ok(bad)] == [Ok(bad)] && {} + {Input} == {Input} && {} + {Fragile} == {Fragile};
    assert read.slots == st'.slots;
    assert read.dependents == st'.dependents;
    assert WithRun(read, 1, st.runs[1].(hist := [Ok(bad)])).runs == st'.runs;
  }

  /** Settling a failed compute of the fragile slot of any graph of this shape. */
  lemma SettleFragile(env: Env, hist: seq<Outcome>, e: int, v: Value, s: Slot, fallback: Slot,
          dependents: map<Id, set<Id>>,
                      runs: map<Token, Run>, mail: map<WaiterId, Reply>, t: nat, w: nat, clock: nat)
    requires env.prog(Fragile, hist) == Fail(e)
    ensures Settle(env, Graph(v, s, fallback, dependents, runs, mail, t, w, clock), Fragile, hist) ==
            Graph(v, s.(inFlight := None, state := Failed, waiters := [], trace := hist, at := clock, error := e),
                fallback,
                  dependents, runs, Deliver(mail, s.waiters, Err(e)), t, w, clock + 1)
  {
    var st := Graph(v, s, fallback, dependents, runs, mail, t, w, clock);
    var s1 := s.(inFlight := None, state := Failed, waiters := [], trace := hist, at := clock, error := e);
    assert Settle(env, st, Fragile, hist).slots == map[Fragile := s1, Fallback := fallback];
  }

  lemma FailFragile(bad: Value, good: Value)
    requires bad != good
    ensures Enabled(SwallowingEnv(bad, good), BadRead(bad), Complete(1))
            && Take(SwallowingEnv(bad, good), BadRead(bad), Complete(1)) == ErrorSent(bad)
  {
    var env, st, st' := SwallowingEnv(bad, good), BadRead(bad), ErrorSent(bad);
    var runs := st.runs[1 := st.runs[1].(phase := Finished)];
    SettleFragile(env, [Ok(bad)], 7, bad, st.slots[Fragile], st.slots[Fallback], st.dependents, runs, st.mail, 2, 2, 0);
    assert Take(env, st, Complete(1)) == Settle(env, WithRun(st, 1, runs[1]), Fragile, [Ok(bad)]);
    assert runs == st'.runs && Deliver(st.mail, [1], Err(7)) == st'.mail;
  }

  lemma ReceiveFailure(bad: Value, good: Value)
    requires bad != good
    ensures Enabled(SwallowingEnv(bad, good), ErrorSent(bad), Receive(0))
            && Take(SwallowingEnv(bad, good), ErrorSent(bad), Receive(0)) == ErrorRead(bad)
  {
    var env, st, st' := SwallowingEnv(bad, good), ErrorSent(bad), ErrorRead(bad);
    assert [] + [Outcome.Err(7)] == [Err(7)];
    assert Take(env, st, Receive(0)).runs == st'.runs;
    assert Take(env, st, Receive(0)).mail == st'.mail;
  }

  /** Settling a first compute of the fallback slot of any graph of this shape. */
  lemma SettleFallback(env: Env, hist: seq<Outcome>, good: Value, v: Value, fragile: Slot, s: Slot,
          dependents: map<Id, set<Id>>,
                       runs: map<Token, Run>, mail: map<WaiterId, Reply>, t: nat, w: nat, clock: nat)
    requires env.prog(Fallback, hist) == Done(good) && s.value == None
    ensures Settle(env, Graph(v, fragile, s, dependents, runs, mail, t, w, clock), Fallback, hist) ==
            Graph(v, fragile, s.(inFlight := None, state := Resolved, value := Some(good), waiters := [], trace := hist,
                at := clock),
                  dependents, runs, Deliver(mail, s.waiters, Ok(good)), t, w, clock + 1)
  {
    var st := Graph(v, fragile, s, dependents, runs, mail, t, w, clock);
    var s1 := s.(inFlight := None, state := Resolved, value := Some(good), waiters := [], trace := hist, at := clock);
    assert Settle(env, st, Fallback, hist).slots == map[Fragile := fragile, Fallback := s1];
  }

  lemma ResolveFallback(bad: Value, good: Value)
    requires bad != good
    ensures Enabled(SwallowingEnv(bad, good), ErrorRead(bad), Complete(0))
            && Take(SwallowingEnv(bad, good), ErrorRead(bad), Complete(0)) == Swallowed(bad)
  {
    var env, st, st' := SwallowingEnv(bad, good), ErrorRead(bad), Swallowed(bad);
    var runs := st.runs[0 := st.runs[0].(phase := Finished)];
    assert Take(env, st, Complete(0)) == Settle(env, WithRun(st, 0, runs[0]), Fallback, [Err(7)]);
    ResolvedIs(bad, good, runs);
  }

  lemma ResolvedIs(bad: Value, good: Value, runs: map<Token, Run>)
    requires bad != good && 0 in ErrorRead(bad).runs
    requires runs == ErrorRead(bad).runs[0 := ErrorRead(bad).runs[0].(phase := Finished)]
    ensures Settle(SwallowingEnv(bad, good), WithRun(ErrorRead(bad), 0, runs[0]), Fallback, [Err(7)]) == Swallowed(bad)
  {
    var env, st, st' := SwallowingEnv(bad, good), ErrorRead(bad), Swallowed(bad);
    SettleFallback(env, [Err(7)], bad, bad, st.slots[Fragile], st.slots[Fallback], st.dependents, runs, st.mail, 2, 2,
        1);
    assert runs == st'.runs && Deliver(st.mail, [0], Ok(bad)) == st'.mail;
  }

  /** Joining the fragile slot of any graph of this shape while nothing computes it. */
  lemma JoinFragile(v: Value, s: Slot, fallback: Slot, dependents: map<Id, set<Id>>,
                    runs: map<Token, Run>, mail: map<WaiterId, Reply>, t: nat, w: nat, clock: nat)
    requires s.inFlight == None
    ensures Join(Graph(v, s, fallback, dependents, runs, mail, t, w, clock), Fragile) ==
            Graph(v, s.(state := Computing, deps := {}, inFlight := Some(t), waiters := s.waiters + [w]), fallback,
                  RemoveEdges(dependents, s.deps, Fragile), runs[t := Run(Fragile, [], Idle, false)], mail, t + 1,
                      w + 1, clock)
  {
    var st := Graph(v, s, fallback, dependents, runs, mail, t, w, clock);
    var s1 := s.(state := Computing, deps := {}, inFlight := Some(t), waiters := s.waiters + [w]);
    assert Join(st, Fragile).slots == map[Fragile := s1, Fallback := fallback];
  }

  lemma RespawnFragile(bad: Value, good: Value)
    requires bad != good
    ensures Enabled(SwallowingEnv(bad, good), StateAt(bad, good, 7), StepAt(good, 7))
    ensures Take(SwallowingEnv(bad, good), StateAt(bad, good, 7), StepAt(good, 7)) == StateAt(bad, good, 8)
  {
    var env, st, st' := SwallowingEnv(bad, good), StateAt(bad, good, 7), StateAt(bad, good, 8);
    assert [] + [2 as WaiterId] == [2];
    assert RemoveEdges(st.dependents, {Input}, Fragile) == map[Fragile := {Fallback}];
    JoinFragile(bad, st.slots[Fragile], st.slots[Fallback], st.dependents, st.runs, st.mail, 2, 2, 2);
    assert Take(env, st, Get(Fragile)) == Join(st, Fragile);
    assert st.runs[2 := Run(Fragile, [], Idle, false)] == st'.runs;
  }

  lemma OneStep(bad: Value, good: Value, k: nat)
    requires bad != good && k < 9
    ensures Enabled(SwallowingEnv(bad, good), StateAt(bad, good, k), StepAt(good, k))
    ensures Take(SwallowingEnv(bad, good), StateAt(bad, good, k), StepAt(good, k)) == StateAt(bad, good, k + 1)
  {
    if k < 2 { SpawnFallback(bad, good, k); }
    else if k == 2 { SpawnFragile(bad, good, k); }
    else if k == 3 { ReadBadInput(bad, good, k); }
    else if k == 4 { FailFragile(bad, good); }
    else if k == 5 { ReceiveFailure(bad, good); }
    else if k == 6 { ResolveFallback(bad, good); }
    else if k == 7 { RespawnFragile(bad, good); }
    else { LastStep(bad, good); }
  }

  lemma LastStep(bad: Value, good: Value)
    requires bad != good
    ensures Enabled(SwallowingEnv(bad, good), StateAt(bad, good, 8), StepAt(good, 8))
    ensures Take(SwallowingEnv(bad, good), StateAt(bad, good, 8), StepAt(good, 8)) == StateAt(bad, good, 9)
  {
    var st, st' := StateAt(bad, good, 8), StateAt(bad, good, 9);
    assert st.(sources := st.sources[Input := good]) == st';
    NothingDownstream(st', Input);
  }

  lemma FirstHop(m: map<Id, set<Id>>, p: seq<Id>)
    requires IsPath(m, p)
    ensures p[1] in Of(m, p[0])
  {
    assert p[0 + 1] in Of(m, p[0]);
  }

  /** A root nobody depends on propagates to nothing. */
  lemma NothingDownstream(st: State, a: Id)
    requires a !in st.dependents
    ensures Propagate(st, {a}) == st
  {
    forall x | x in Cone(st, {a}) ensures false {
      var p :| PathFrom(st.dependents, {a}, p, x);
      FirstHop(st.dependents, p);
      assert false;
    }
    assert Cone(st, {a}) == {};
    var gone := {a} + Cone(st, {a});
    assert gone == {a};
    assert HitWaiters(st, gone) == {};
    assert st.dependents - gone == st.dependents;
    assert Consume(st, gone).slots == st.slots;
    assert Consume(st, gone).runs == st.runs;
    assert Consume(st, gone).mail == st.mail;
  }

  /** The run, created graph first. */
  lemma FailingRun(bad: Value, good: Value) returns (steps: seq<Step>, states: seq<State>)
    requires bad != good
    ensures IsExecution(SwallowingEnv(bad, good), steps, states) && states[|steps|] == StateAt(bad, good, 9)
  {
    var env := SwallowingEnv(bad, good);
    var s0 := Initial();
    var s1 := s0.(sources := map[Input := bad]);
    var s2 := s1.(slots := map[Fragile := Blank()]);
    states := [s0, s1, s2, StateAt(bad, good, 0)];
    steps := [NewSource(Input, bad), NewComputed(Fragile), NewComputed(Fallback)];
    assert s0.sources[Input := bad] == s1.sources;
    assert s1.slots[Fragile := Blank()] == s2.slots;
    assert s2.slots[Fallback := Blank()] == StateAt(bad, good, 0).slots;
    assert IsExecution(env, steps, states);
    var k := 0;
    while k < 9
      invariant 0 <= k <= 9
      invariant IsExecution(env, steps, states) && states[|steps|] == StateAt(bad, good, k)
    {
      OneStep(bad, good, k);
      ExtendRun(env, steps, states, StepAt(good, k));
      steps, states, k := steps + [StepAt(good, k)], states + [StateAt(bad, good, k + 1)], k + 1;
    }
  }

  lemma ExtendRun(env: Env, steps: seq<Step>, states: seq<State>, step: Step)
    requires IsExecution(env, steps, states) && Enabled(env, states[|steps|], step)
    ensures IsExecution(env, steps + [step], states + [Take(env, states[|steps|], step)])
  {
  }

  /**
    For any two values there is a graph with exact guards and an execution of it, with no batch open, that ends
    with a resolved slot holding one value while its compute gives the other; so one of its steps was not careful.
   */
  lemma SwallowedErrorGoesStale(bad: Value, good: Value) returns (env: Env, steps: seq<Step>, states: seq<State>)
    requires bad != good
    ensures (forall x :: GuardExact(env, x)) && IsExecution(env, steps, states)
    ensures var st := states[|steps|];
            && st.batchDepth == 0 && Fallback in st.slots
            && st.slots[Fallback].state == Resolved && st.slots[Fallback].value == Some(bad)
            && Gives(env, st.sources, Fallback, Ok(good))
    ensures !CarefulSoFar(env, steps, states, |steps|)
  {
    env := SwallowingEnv(bad, good);
    steps, states := FailingRun(bad, good);
    var st := states[|steps|];
    var input := Deriv([Ok(good)], [Deriv([], [])]);
    assert Proves(env, st.sources, Fragile, Ok(good), input);
    assert Proves(env, st.sources, Fallback, Ok(good), Deriv([Ok(good)], [input]));
    if CarefulSoFar(env, steps, states, |steps|) {
      CarefulIsFresh(env, steps, states, |steps|, Fallback);
      assert Gives(env, st.sources, Fallback, Ok(good));
      assert false;
    }
  }
}
