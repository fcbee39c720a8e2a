/** Errors that computes have swallowed, and the one step that can lose them. */
module AsyncErrors {
  import opened Basics
  import opened AsyncGraph
  import opened AsyncInvariant
  import opened AsyncSteps
  import opened AsyncFreshness

  // ---------------------------------------------------------------- what rests on which error

  ghost predicate ErrorsIn(env: Env, x: Id, hist: seq<Outcome>, c: set<Id>) {
    forall i {:trigger env.prog(x, hist[..i])} :: 0 <= i < |hist| && hist[i].Err? && env.prog(x, hist[..i]).Read? ==>
      env.prog(x, hist[..i]).dep in c
  }

  /** An error lies in the channel the compute waits on. */
  ghost predicate ErrorComing(st: State, r: Run) {
    && r.phase.Waiting? && r.phase.waiter in st.mail
    && st.mail[r.phase.waiter].Answer? && st.mail[r.phase.waiter].outcome.Err?
  }

  /**
    `c` covers `x`: it holds every resolved slot and every compute in flight, and with a slot the slots whose errors
    went into it.
   */
  ghost predicate CoversAt(env: Env, st: State, c: set<Id>, x: Id)
    requires x in st.slots
  {
    var s := st.slots[x];
    && (s.state == Resolved || s.inFlight.Some? ==> x in c)
    && (x in c && Settled(s) ==> ErrorsIn(env, x, s.trace, c))
    && (x in c && s.inFlight.Some? && s.inFlight.value in st.runs ==>
          var r := st.runs[s.inFlight.value];
          ErrorsIn(env, x, r.hist, c) && (ErrorComing(st, r) ==> r.phase.dep in c))
  }

  ghost predicate Covers(env: Env, st: State, c: set<Id>) {
    forall x {:trigger CoversAt(env, st, c, x)} :: x in st.slots ==> CoversAt(env, st, c, x)
  }

  /** A resolved slot or a compute in flight rests on the failure of `y`, directly or through other failed slots. */
  ghost predicate ReliedOn(env: Env, st: State, y: Id) {
    forall c :: Covers(env, st, c) ==> y in c
  }

  ghost predicate ErrorsStand(env: Env, st: State, x: Id, hist: seq<Outcome>, before: nat) {
    forall i {:trigger ErrorStands(env, st, x, hist, i, before)} :: 0 <= i < |hist| && hist[i].Err? ==>
      ErrorStands(env, st, x, hist, i, before)
  }

  ghost predicate Upheld(env: Env, st: State, x: Id)
    requires x in st.slots
  {
    var s := st.slots[x];
    && (Settled(s) ==> ErrorsStand(env, st, x, s.trace, s.at))
    && (s.inFlight.Some? && s.inFlight.value in st.runs ==>
          var r := st.runs[s.inFlight.value];
          && ErrorsStand(env, st, x, r.hist, st.clock)
          && (ErrorComing(st, r) ==> FailedWith(st, r.phase.dep, st.mail[r.phase.waiter].outcome.code)))
  }

  ghost predicate FailedWith(st: State, y: Id, e: int) {
    y in st.slots && st.slots[y].state == Failed && st.slots[y].error == e
  }

  ghost predicate IntactAt(env: Env, st: State, c: set<Id>, x: Id)
    requires x in st.slots
  {
    CoversAt(env, st, c, x) && (x in c ==> Upheld(env, st, x))
  }

  ghost predicate IntactOn(env: Env, st: State, c: set<Id>) {
    forall x {:trigger IntactAt(env, st, c, x)} :: x in st.slots ==> IntactAt(env, st, c, x)
  }

  /** Every error that a resolved slot or a compute in flight rests on is still the error of its slot. */
  ghost predicate Intact(env: Env, st: State) {
    exists c :: IntactOn(env, st, c)
  }

  /** The step starts the compute of a failed slot again. */
  ghost predicate Respawns(env: Env, st: State, step: Step, y: Id)
    requires Enabled(env, st, step)
  {
    && (step == Get(y) || (step.Await? && st.runs[step.run].phase.dep == y))
    && y in st.slots && st.slots[y].state == Failed
  }

  /** The guard: no failed slot that is relied on is started again. */
  ghost predicate Careful(env: Env, st: State, step: Step)
    requires Enabled(env, st, step)
  {
    forall y {:trigger Respawns(env, st, step, y)} :: Respawns(env, st, step, y) ==> !ReliedOn(env, st, y)
  }

  // ---------------------------------------------------------------- slots a step leaves alone

  ghost predicate FailKept(st: State, st': State, y: Id) {
    y in st.slots && st.slots[y].state == Failed ==>
      y in st'.slots && st'.slots[y].state == Failed && st'.slots[y].error == st.slots[y].error
          && st'.slots[y].at == st.slots[y].at
  }

  lemma ErrorsKept(env: Env, st: State, st': State, c: set<Id>, c': set<Id>, x: Id, hist: seq<Outcome>, before: nat,
          before': nat)
    requires x in st.slots && TraceHolds(env, st, x, hist) && ErrorsStand(env, st, x, hist, before)
             && ErrorsIn(env, x, hist, c)
    requires before <= before'
    requires forall y :: y in st.slots[x].deps && y in c ==>
             FailKept(st, st', y) && (y in st.slots && st.slots[y].state == Failed ==> y in c')
    ensures ErrorsStand(env, st', x, hist, before') && ErrorsIn(env, x, hist, c')
  {
    forall i | 0 <= i < |hist| && hist[i].Err?
      ensures ErrorStands(env, st', x, hist, i, before') && env.prog(x, hist[..i]).dep in c'
    {
      assert ReadOk(env, st, x, hist, i) && ErrorStands(env, st, x, hist, i, before);
    }
  }

  /** The record of `x`, its compute and the failed slots below it are as they were. */
  ghost predicate Untouched(st: State, st': State, c: set<Id>, c': set<Id>, x: Id)
    requires x in st.slots
  {
    && x in st'.slots && SameResult(st.slots[x], st'.slots[x]) && st'.slots[x].inFlight == st.slots[x].inFlight
    && (st.slots[x].inFlight.Some? ==>
          var t := st.slots[x].inFlight.value;
          t in st.runs && t in st'.runs && st'.runs[t].hist == st.runs[t].hist
          && (ErrorComing(st', st'.runs[t]) ==>
                st'.runs[t].phase.dep in c' && FailedWith(st', st'.runs[t].phase.dep,
                    st'.mail[st'.runs[t].phase.waiter].outcome.code)))
    && (Settled(st.slots[x]) || st.slots[x].inFlight.Some? ==>
          forall y :: y in st.slots[x].deps && y in c ==>
            FailKept(st, st', y) && (y in st.slots && st.slots[y].state == Failed ==> y in c'))
  }

  lemma UntouchedIntact(env: Env, st: State, st': State, c: set<Id>, c': set<Id>, x: Id)
    requires Inv(env, st) && IntactOn(env, st, c) && x in st.slots && st.clock <= st'.clock
             && Untouched(st, st', c, c', x)
    requires x in c <==> x in c'
    ensures IntactAt(env, st', c', x)
  {
    assert SlotOk(env, st, x) && IntactAt(env, st, c, x);
    if x in c {
      if Settled(st.slots[x]) { ErrorsKept(env, st, st', c, c', x, st.slots[x].trace, st.slots[x].at, st.slots[x].at); }
      if st.slots[x].inFlight.Some? {
        ErrorsKept(env, st, st', c, c', x, st.runs[st.slots[x].inFlight.value].hist, st.clock, st'.clock);
      }
    }
  }

  /** Waiters, edges, channels without errors and cancelled computes may change. */
  lemma QuietIntact(env: Env, st: State, st': State, c: set<Id>)
    requires Inv(env, st) && IntactOn(env, st, c) && st.clock <= st'.clock && st.slots.Keys <= st'.slots.Keys
    requires forall x :: x in st.slots ==>
             SameResult(st.slots[x], st'.slots[x]) && st'.slots[x].inFlight == st.slots[x].inFlight
    requires forall x :: x in st'.slots && x !in st.slots ==>
             st'.slots[x].state == Empty && st'.slots[x].inFlight == None
    requires forall t :: t in st.runs && CurrentRun(st, t) ==> t in st'.runs && st'.runs[t] == st.runs[t]
    requires forall w :: w in st'.mail ==> w in st.mail && st'.mail[w] == st.mail[w]
    ensures IntactOn(env, st', c)
  {
    forall x | x in st'.slots ensures IntactAt(env, st', c, x) {
      if x in st.slots {
        assert SlotOk(env, st, x) && IntactAt(env, st, c, x);
        if st.slots[x].inFlight.Some? { assert CurrentRun(st, st.slots[x].inFlight.value); }
        if x in c { UntouchedIntact(env, st, st', c, c, x); }
      }
    }
  }

  ghost predicate CurrentRun(st: State, t: Token) {
    t in st.runs && st.runs[t].slot in st.slots && st.slots[st.runs[t].slot].inFlight == Some(t)
  }

  // ---------------------------------------------------------------- propagation

  lemma ConsumeIntact(env: Env, st: State, pre: State, gone: set<Id>, c: set<Id>)
    requires Inv(env, pre) && IntactOn(env, pre, c) && Written(pre, st, gone) && Closed(st, gone)
    ensures IntactOn(env, Consume(st, gone), c)
  {
    var st' := Consume(st, gone);
    forall x | x in st'.slots ensures IntactAt(env, st', c, x) {
      assert IntactAt(env, pre, c, x);
      if !Hit(st.dependents, gone, x) && x in c {
        ConsumeUntouched(env, st, pre, gone, c, x);
        UntouchedIntact(env, pre, st', c, c, x);
      }
    }
  }

  lemma ConsumeUntouched(env: Env, st: State, pre: State, gone: set<Id>, c: set<Id>, x: Id)
    requires Inv(env, pre) && IntactOn(env, pre, c) && Written(pre, st, gone) && Closed(st, gone)
    requires x in pre.slots && x in c && !Hit(st.dependents, gone, x)
    ensures Untouched(pre, Consume(st, gone), c, c, x)
  {
    var st' := Consume(st, gone);
    assert SlotOk(env, pre, x) && IntactAt(env, pre, c, x);
    HitMeans(st.dependents, gone, x);
    if Settled(pre.slots[x]) || pre.slots[x].inFlight.Some? {
      forall y | y in pre.slots[x].deps ensures FailKept(pre, st', y) {
        assert Edge(pre, y, x);
        assert y !in gone;
        HitMeans(st.dependents, gone, y);
      }
    }
  }

  lemma PropagateIntact(env: Env, st: State, pre: State, roots: set<Id>, c: set<Id>)
    requires Inv(env, pre) && IntactOn(env, pre, c) && Written(pre, st, roots) && Shape(st)
    ensures IntactOn(env, Propagate(st, roots), c)
  {
    ConeIsClosed(st, roots);
    ConsumeIntact(env, st, pre, roots + Cone(st, roots), c);
  }

  lemma WriteIntact(env: Env, st: State, a: Id, v: Value, c: set<Id>)
    requires Inv(env, st) && IntactOn(env, st, c) && a in st.sources
    ensures IntactOn(env, Write(st, a, v), c)
  {
    if st.sources[a] != v && st.batchDepth == 0 {
      PropagateIntact(env, st.(sources := st.sources[a := v]), st, {a}, c);
    } else {
      QuietIntact(env, st, Write(st, a, v), c);
    }
  }

  lemma BatchEndIntact(env: Env, st: State, c: set<Id>)
    requires Inv(env, st) && IntactOn(env, st, c) && st.batchDepth > 0
    ensures IntactOn(env, Take(env, st, BatchEnd), c)
  {
    if st.batchDepth == 1 {
      PropagateIntact(env, st.(batchDepth := 0, batchQueue := {}), st, st.batchQueue, c);
    } else {
      QuietIntact(env, st, Take(env, st, BatchEnd), c);
    }
  }

  // ---------------------------------------------------------------- computes

  /** A compute in flight moves on and has read nothing but what stands. */
  lemma MoveIntact(env: Env, st: State, t: Token, r: Run, taken: set<WaiterId>, c: set<Id>)
    requires Inv(env, st) && IntactOn(env, st, c) && t in st.runs && r.slot == st.runs[t].slot
    requires r.phase.Waiting? ==> r.phase.waiter !in st.mail
    requires CurrentRun(st, t) ==> ErrorsStand(env, st, r.slot, r.hist, st.clock) && ErrorsIn(env, r.slot, r.hist, c)
    ensures IntactOn(env, WithRun(st.(mail := st.mail - taken), t, r), c)
  {
    var st' := WithRun(st.(mail := st.mail - taken), t, r);
    forall x | x in st'.slots ensures IntactAt(env, st', c, x) {
      assert SlotOk(env, st, x) && IntactAt(env, st, c, x);
      if st.slots[x].inFlight == Some(t) {
        assert CurrentRun(st, t);
        forall i | 0 <= i < |r.hist| && r.hist[i].Err? ensures ErrorStands(env, st', x, r.hist, i, st'.clock) {
          assert ErrorStands(env, st, x, r.hist, i, st.clock);
        }
      } else if x in c {
        UntouchedIntact(env, st, st', c, c, x);
      }
    }
  }

  lemma ErrorsExtend(env: Env, st: State, x: Id, hist: seq<Outcome>, o: Outcome, c: set<Id>)
    requires ErrorsStand(env, st, x, hist, st.clock) && ErrorsIn(env, x, hist, c) && env.prog(x, hist).Read?
    requires o.Err? ==> var d := env.prog(x, hist).dep; d in c && FailedWith(st, d, o.code) && st.slots[d].at < st.clock
    ensures ErrorsStand(env, st, x, hist + [o], st.clock) && ErrorsIn(env, x, hist + [o], c)
  {
    var h := hist + [o];
    assert h[..|hist|] == hist;
    forall i | 0 <= i < |h| && h[i].Err? ensures ErrorStands(env, st, x, h, i, st.clock)
        && env.prog(x, h[..i]).dep in c {
      if i < |hist| {
        assert h[..i] == hist[..i];
        assert ErrorStands(env, st, x, hist, i, st.clock);
      }
    }
  }

  lemma CurrentErrors(env: Env, st: State, t: Token, c: set<Id>)
    requires Inv(env, st) && IntactOn(env, st, c) && CurrentRun(st, t)
    ensures ErrorsStand(env, st, st.runs[t].slot, st.runs[t].hist, st.clock)
            && ErrorsIn(env, st.runs[t].slot, st.runs[t].hist, c)
    ensures ErrorComing(st, st.runs[t]) ==>
              var d := st.runs[t].phase.dep;
              d in c && FailedWith(st, d, st.mail[st.runs[t].phase.waiter].outcome.code) && st.slots[d].at < st.clock
  {
    var x := st.runs[t].slot;
    assert SlotOk(env, st, x) && IntactAt(env, st, c, x);
    if ErrorComing(st, st.runs[t]) { assert SlotOk(env, st, st.runs[t].phase.dep); }
  }

  lemma TrackReadIntact(env: Env, st: State, t: Token, dep: Id, c: set<Id>)
    requires Inv(env, st) && IntactOn(env, st, c) && t in st.runs && st.runs[t].slot in st.slots
    ensures IntactOn(env, TrackRead(st, t, dep), c)
  {
    QuietIntact(env, st, TrackRead(st, t, dep), c);
  }

  lemma TrackIntact(env: Env, st: State, t: Token, c: set<Id>)
    requires Inv(env, st) && IntactOn(env, st, c) && Enabled(env, st, Track(t))
    ensures IntactOn(env, Take(env, st, Track(t)), c)
  {
    var d := NextDep(env, st, t);
    var st1 := TrackRead(st, t, d);
    TrackReadKeeps(env, st, t, d);
    TrackReadIntact(env, st, t, d, c);
    if CurrentRun(st1, t) { CurrentErrors(env, st1, t, c); }
    MoveIntact(env, st1, t, st.runs[t].(phase := Tracked(d)), {}, c);
    assert st1.mail - {} == st1.mail;
  }

  lemma ReadSourceIntact(env: Env, st: State, t: Token, c: set<Id>)
    requires Inv(env, st) && IntactOn(env, st, c) && Enabled(env, st, ReadSource(t))
    ensures IntactOn(env, Take(env, st, ReadSource(t)), c)
  {
    var a := NextDep(env, st, t);
    var r := st.runs[t];
    var st1 := TrackRead(st, t, a);
    TrackReadKeeps(env, st, t, a);
    TrackReadIntact(env, st, t, a, c);
    if CurrentRun(st1, t) {
      CurrentErrors(env, st1, t, c);
      ErrorsExtend(env, st1, r.slot, r.hist, Ok(st.sources[a]), c);
    }
    MoveIntact(env, st1, t, r.(hist := r.hist + [Ok(st.sources[a])]), {}, c);
    assert st1.mail - {} == st1.mail;
  }

  lemma ReceiveIntact(env: Env, st: State, t: Token, c: set<Id>)
    requires Inv(env, st) && IntactOn(env, st, c) && Enabled(env, st, Receive(t))
    ensures IntactOn(env, Take(env, st, Receive(t)), c)
  {
    var r := st.runs[t];
    var w := r.phase.waiter;
    assert RunOk(st, t) && SlotOk(env, st, r.slot);
    if CurrentRun(st, t) {
      CurrentErrors(env, st, t, c);
      if st.mail[w].Answer? { ErrorsExtend(env, st, r.slot, r.hist, st.mail[w].outcome, c); }
    }
    match st.mail[w]
    case Superseded => MoveIntact(env, st, t, r.(phase := Tracked(r.phase.dep)), {w}, c);
    case Answer(o) => MoveIntact(env, st, t, r.(hist := r.hist + [o], phase := Idle), {w}, c);
  }

  lemma AbandonIntact(env: Env, st: State, t: Token, c: set<Id>)
    requires Inv(env, st) && IntactOn(env, st, c) && Enabled(env, st, Abandon(t))
    ensures IntactOn(env, Take(env, st, Abandon(t)), c)
  {
    assert RunOk(st, t) && SlotOk(env, st, st.runs[t].slot);
    assert !CurrentRun(st, t);
    QuietIntact(env, st, Take(env, st, Abandon(t)), c);
  }

  lemma AwaitResolvedIntact(env: Env, st: State, t: Token, c: set<Id>)
    requires Inv(env, st) && IntactOn(env, st, c) && Enabled(env, st, Await(t))
             && st.slots[st.runs[t].phase.dep].state == Resolved
    ensures IntactOn(env, Take(env, st, Await(t)), c)
  {
    var r := st.runs[t];
    var d := r.phase.dep;
    assert RunOk(st, t) && SlotOk(env, st, r.slot) && SlotOk(env, st, d);
    var v := st.slots[d].value.value;
    if CurrentRun(st, t) {
      CurrentErrors(env, st, t, c);
      ErrorsExtend(env, st, r.slot, r.hist, Ok(v), c);
    }
    MoveIntact(env, st, t, r.(hist := r.hist + [Ok(v)], phase := Idle), {}, c);
    assert st.mail - {} == st.mail;
  }

  lemma StaleCompletionIntact(env: Env, st: State, t: Token, c: set<Id>)
    requires Inv(env, st) && IntactOn(env, st, c) && Enabled(env, st, Complete(t)) && !CompletesCurrent(env, st, t)
    ensures IntactOn(env, Take(env, st, Complete(t)), c)
  {
    QuietIntact(env, st, Take(env, st, Complete(t)), c);
  }

  /** The slot that settles was in flight, so nobody can have relied on a failure of it. */
  lemma SettleIntact(env: Env, st: State, t: Token, c: set<Id>)
    requires Inv(env, st) && IntactOn(env, st, c) && CompletesCurrent(env, st, t)
    ensures IntactOn(env, Take(env, st, Complete(t)), c)
  {
    var x := st.runs[t].slot;
    var st' := Take(env, st, Complete(t));
    assert SlotOk(env, st, x) && IntactAt(env, st, c, x);
    CurrentErrors(env, st, t, c);
    SettleSettles(env, st, t);
    forall y | y in st'.slots ensures IntactAt(env, st', c, y) {
      assert SlotOk(env, st, y) && IntactAt(env, st, c, y);
      if y == x {
        ErrorsKept(env, st, st', c, c, x, st.runs[t].hist, st.clock, st.clock);
      } else if y in c {
        SettleAnswerStands(env, st, st', t, y, c);
        UntouchedIntact(env, st, st', c, c, y);
      }
    }
  }

  /** What a completion leaves for the others. */
  ghost predicate SettledAs(st: State, st': State, t: Token) {
    && t in st.runs && st.runs[t].slot in st.slots
    && var x := st.runs[t].slot;
       && x in st'.slots && st'.slots == st.slots[x := st'.slots[x]]
       && st'.runs == st.runs[t := st.runs[t].(phase := Finished)]
       && (forall w :: w in st'.mail ==>
             if w in st.slots[x].waiters then st'.mail[w].Answer?
                 && (st'.mail[w].outcome.Err? ==> FailedWith(st', x, st'.mail[w].outcome.code))
             else w in st.mail && st'.mail[w] == st.mail[w])
  }

  lemma SettleSettles(env: Env, st: State, t: Token)
    requires CompletesCurrent(env, st, t)
    ensures SettledAs(st, Take(env, st, Complete(t)), t)
  {
  }

  lemma SettleAnswerStands(env: Env, st: State, st': State, t: Token, y: Id, c: set<Id>)
    requires Inv(env, st) && IntactOn(env, st, c) && CurrentRun(st, t) && SettledAs(st, st', t)
    requires y in c && y in st.slots && y != st.runs[t].slot
    ensures Untouched(st, st', c, c, y)
  {
    var x := st.runs[t].slot;
    assert SlotOk(env, st, y) && SlotOk(env, st, x) && IntactAt(env, st, c, x) && IntactAt(env, st, c, y);
    if st.slots[y].inFlight.Some? {
      var u := st.slots[y].inFlight.value;
      var q := st.runs[u];
      assert RunOk(st, u);
      if q.phase.Waiting? && Awaits(st, x, q.phase.waiter) {
        assert WaitersOk(st, x);
        if Awaits(st, q.phase.dep, q.phase.waiter) { assert q.phase.dep == x; }
      }
    }
  }

  // ---------------------------------------------------------------- starting a compute

  lemma SpawnedUntouched(env: Env, st: State, y: Id, c: set<Id>, x: Id)
    requires Inv(env, st) && IntactOn(env, st, c) && y in st.slots && st.slots[y].inFlight == None
    requires y in c ==> st.slots[y].state != Failed
    requires x in st.slots && x in c && x != y
    ensures Untouched(st, Join(st, y), c, c + {y}, x)
  {
    assert SlotOk(env, st, x) && IntactAt(env, st, c, x);
    TokenIsFresh(st);
  }

  /** Starting a compute is harmless unless the slot has failed and `c` holds it. */
  lemma JoinIntact(env: Env, st: State, y: Id, c: set<Id>)
    requires Inv(env, st) && IntactOn(env, st, c) && y in st.slots && st.slots[y].state != Resolved
    requires y in c ==> st.slots[y].state != Failed
    ensures IntactOn(env, Join(st, y), c + {y})
  {
    var st' := Join(st, y);
    assert SlotOk(env, st, y) && IntactAt(env, st, c, y);
    if st.slots[y].inFlight.Some? {
      assert c + {y} == c;
      QuietIntact(env, st, st', c);
    } else {
      forall x | x in st'.slots ensures IntactAt(env, st', c + {y}, x) {
        if x != y {
          assert SlotOk(env, st, x) && IntactAt(env, st, c, x);
          if x in c {
            SpawnedUntouched(env, st, y, c, x);
            UntouchedIntact(env, st, st', c, c + {y}, x);
          }
        }
      }
    }
  }

  lemma AwaitJoinIntact(env: Env, st: State, t: Token, c: set<Id>)
    requires Inv(env, st) && IntactOn(env, st, c) && Enabled(env, st, Await(t))
             && st.slots[st.runs[t].phase.dep].state != Resolved
    requires st.runs[t].phase.dep in c ==> st.slots[st.runs[t].phase.dep].state != Failed
    ensures IntactOn(env, Take(env, st, Await(t)), c + {st.runs[t].phase.dep})
  {
    var r := st.runs[t];
    var d := r.phase.dep;
    var st1 := Join(st, d);
    JoinKeeps(env, st, d);
    JoinIntact(env, st, d, c);
    TokenIsFresh(st);
    if CurrentRun(st1, t) { CurrentErrors(env, st1, t, c + {d}); }
    MoveIntact(env, st1, t, r.(phase := Waiting(d, st.nextWaiter)), {}, c + {d});
    assert st1.mail - {} == st1.mail;
  }

  /** Two covers have a common part that covers. */
  lemma CommonPart(env: Env, st: State, c: set<Id>, g: set<Id>)
    requires IntactOn(env, st, c) && Covers(env, st, g)
    ensures IntactOn(env, st, c * g)
  {
    forall x | x in st.slots ensures IntactAt(env, st, c * g, x) {
      assert IntactAt(env, st, c, x) && CoversAt(env, st, g, x);
    }
  }

  ghost function TargetOf(env: Env, st: State, step: Step): Id
    requires Enabled(env, st, step) && (step.Get? || step.Await?)
  {
    if step.Get? then step.slot else st.runs[step.run].phase.dep
  }

  lemma StartIntact(env: Env, st: State, step: Step, c: set<Id>) returns (c': set<Id>)
    requires Inv(env, st) && IntactOn(env, st, c) && Enabled(env, st, step) && (step.Get? || step.Await?)
             && Careful(env, st, step)
    ensures IntactOn(env, Take(env, st, step), c')
  {
    var y := TargetOf(env, st, step);
    c' := c;
    if st.slots[y].state == Resolved {
      if step.Await? { AwaitResolvedIntact(env, st, step.run, c); }
    } else {
      if st.slots[y].state == Failed {
        assert Respawns(env, st, step, y);
        var g :| Covers(env, st, g) && y !in g;
        CommonPart(env, st, c, g);
        c' := c * g;
      }
      if step.Get? { JoinIntact(env, st, y, c'); } else { AwaitJoinIntact(env, st, step.run, c'); }
      c' := c' + {y};
    }
  }

  lemma OtherIntact(env: Env, st: State, step: Step, c: set<Id>)
    requires Inv(env, st) && IntactOn(env, st, c) && Enabled(env, st, step) && !step.Get? && !step.Await?
    ensures IntactOn(env, Take(env, st, step), c)
  {
    match step
    case NewSource(id, v) => QuietIntact(env, st, Take(env, st, step), c);
    case NewComputed(id) => QuietIntact(env, st, Take(env, st, step), c);
    case Set(a, v) => WriteIntact(env, st, a, v, c);
    case CancelGet(x, w) => QuietIntact(env, st, Take(env, st, step), c);
    case ReadSource(t) => ReadSourceIntact(env, st, t, c);
    case Track(t) => TrackIntact(env, st, t, c);
    case Receive(t) => ReceiveIntact(env, st, t, c);
    case Abandon(t) => AbandonIntact(env, st, t, c);
    case Complete(t) =>
      if CompletesCurrent(env, st, t) { SettleIntact(env, st, t, c); } else { StaleCompletionIntact(env, st, t, c); }
    case BatchBegin => QuietIntact(env, st, Take(env, st, step), c);
    case BatchEnd => BatchEndIntact(env, st, c);
  }

  // ---------------------------------------------------------------- the one step that loses errors

  /** What rests on errors after a failed slot was started again does not rest on its old one. */
  lemma RespawnUncovers(env: Env, st: State, step: Step, y: Id, c: set<Id>)
    requires Inv(env, st) && Enabled(env, st, step) && Respawns(env, st, step, y)
             && IntactOn(env, Take(env, st, step), c)
    ensures Covers(env, st, c - {y})
  {
    var st' := Take(env, st, step);
    assert SlotOk(env, st, y);
    forall x | x in st.slots ensures CoversAt(env, st, c - {y}, x) {
      assert SlotOk(env, st, x) && IntactAt(env, st', c, x);
      if x != y { RespawnUncoversAt(env, st, step, y, c, x); }
    }
  }

  lemma RespawnUncoversAt(env: Env, st: State, step: Step, y: Id, c: set<Id>, x: Id)
    requires Inv(env, st) && Enabled(env, st, step) && Respawns(env, st, step, y)
             && IntactOn(env, Take(env, st, step), c)
    requires x in st.slots && x != y
    ensures CoversAt(env, st, c - {y}, x)
  {
    var st' := Take(env, st, step);
    assert SlotOk(env, st, y) && SlotOk(env, st, x) && IntactAt(env, st', c, x);
    TokenIsFresh(st);
    if x in c {
      var s := st.slots[x];
      if Settled(s) { NotFrom(env, st', x, s.trace, s.at, y, c); }
      if s.inFlight.Some? { NotFrom(env, st', x, st.runs[s.inFlight.value].hist, st'.clock, y, c); }
    }
  }

  lemma NotFrom(env: Env, st: State, x: Id, hist: seq<Outcome>, before: nat, y: Id, c: set<Id>)
    requires ErrorsStand(env, st, x, hist, before) && ErrorsIn(env, x, hist, c) && y in st.slots
             && st.slots[y].state != Failed
    ensures ErrorsIn(env, x, hist, c - {y})
  {
    forall i | 0 <= i < |hist| && hist[i].Err? && env.prog(x, hist[..i]).Read?
        ensures env.prog(x, hist[..i]).dep in c - {y} {
      assert ErrorStands(env, st, x, hist, i, before);
    }
  }

  /**
    From a state in which nothing is lost, a step loses an error exactly when it restarts a failed slot that is relied
    on.
   */
  lemma StepKeepsErrors(env: Env, st: State, step: Step)
    requires Inv(env, st) && Intact(env, st) && Enabled(env, st, step)
    ensures Intact(env, Take(env, st, step)) <==> Careful(env, st, step)
  {
    var c :| IntactOn(env, st, c);
    if Careful(env, st, step) {
      if step.Get? || step.Await? {
        var c' := StartIntact(env, st, step, c);
      } else {
        OtherIntact(env, st, step, c);
      }
    }
    if Intact(env, Take(env, st, step)) {
      var c' :| IntactOn(env, Take(env, st, step), c');
      forall y | Respawns(env, st, step, y) ensures !ReliedOn(env, st, y) {
        RespawnUncovers(env, st, step, y, c');
        assert y !in c' - {y};
      }
    }
  }

  ghost predicate IntactSoFar(env: Env, states: seq<State>, n: nat)
    requires n < |states|
  {
    forall i :: 0 <= i <= n ==> Intact(env, states[i])
  }

  ghost predicate CarefulSoFar(env: Env, steps: seq<Step>, states: seq<State>, n: nat)
    requires IsExecution(env, steps, states) && n < |states|
  {
    forall i :: 0 <= i < n ==> Careful(env, states[i], steps[i])
  }

  /** An execution loses no error exactly when every step is careful. */
  lemma {:induction false} CarefulIsIntact(env: Env, steps: seq<Step>, states: seq<State>, n: nat)
    requires IsExecution(env, steps, states) && n < |states|
    ensures IntactSoFar(env, states, n) <==> CarefulSoFar(env, steps, states, n)
  {
    if n == 0 {
      assert IntactOn(env, states[0], {});
    } else {
      ReachableInv(env, steps, states, n - 1);
      CarefulIsIntact(env, steps, states, n - 1);
      assert IntactSoFar(env, states, n) <==> IntactSoFar(env, states, n - 1) && Intact(env, states[n]);
      assert CarefulSoFar(env, steps, states, n) <==>
             CarefulSoFar(env, steps, states, n - 1) && Careful(env, states[n - 1], steps[n - 1]);
      if Intact(env, states[n - 1]) { StepKeepsErrors(env, states[n - 1], steps[n - 1]); }
    }
  }

  // ---------------------------------------------------------------- freshness

  lemma IntactStands(env: Env, st: State, c: set<Id>)
    requires Inv(env, st) && CachesOk(env, st) && IntactOn(env, st, c)
    ensures Standing(env, st, set x | x in st.slots && x in c && Settled(st.slots[x]))
  {
    var good := set x | x in st.slots && x in c && Settled(st.slots[x]);
    forall x | x in good ensures StandsOn(env, st, good, x) {
      var s := st.slots[x];
      assert SlotOk(env, st, x) && IntactAt(env, st, c, x);
      forall i | 0 <= i < |s.trace| ensures ReadStands(env, st, good, x, i) {
        assert ReadOk(env, st, x, s.trace, i);
        var d := env.prog(x, s.trace[..i]).dep;
        if s.trace[i].Err? { assert ErrorStands(env, st, x, s.trace, i, s.at); }
        if d in st.slots { assert IntactAt(env, st, c, d); }
      }
    }
  }

  lemma IntactIsFresh(env: Env, st: State, x: Id)
    requires Inv(env, st) && CachesOk(env, st) && Intact(env, st) && st.batchDepth == 0
    requires forall y :: y in st.slots ==> GuardExact(env, y)
    requires x in st.slots && st.slots[x].state == Resolved
    ensures Fresh(env, st, x)
  {
    var c :| IntactOn(env, st, c);
    IntactStands(env, st, c);
    assert IntactAt(env, st, c, x);
    StandingIsFresh(env, st, (set y | y in st.slots && y in c && Settled(st.slots[y])), x);
  }

  /**
    Freshness whatever computes do with errors.  As long as no failed slot is started again while a resolved slot or a
    compute in flight rests on its error, every resolved slot holds what its compute gives on the current sources.
   */
  lemma CarefulIsFresh(env: Env, steps: seq<Step>, states: seq<State>, n: nat, x: Id)
    requires IsExecution(env, steps, states) && n < |states| && states[n].batchDepth == 0
    requires CarefulSoFar(env, steps, states, n)
    requires forall y :: y in states[n].slots ==> GuardExact(env, y)
    requires x in states[n].slots && states[n].slots[x].state == Resolved
    ensures Fresh(env, states[n], x)
  {
    CarefulIsIntact(env, steps, states, n);
    ReachableInv(env, steps, states, n);
    ReachableCaches(env, steps, states, n);
    IntactIsFresh(env, states[n], x);
  }

  // ---------------------------------------------------------------- what a lost error costs

  lemma WriteLeaves(env: Env, st: State, a: Id, v: Value, x: Id)
    requires Inv(env, st) && st.batchDepth == 0 && a in st.sources && st.sources[a] != v
    requires x in st.slots && st.slots[x].state == Resolved
    ensures var st' := Write(st, a, v);
            && st'.sources == st.sources[a := v] && st'.batchDepth == 0 && st'.slots.Keys == st.slots.Keys
            && (st'.slots[x].state == Resolved <==> x !in Cone(st, {a}))
            && (st'.slots[x].state == Resolved ==> st'.slots[x] == st.slots[x])
  {
    var st1 := st.(sources := st.sources[a := v]);
    var gone := {a} + Cone(st1, {a});
    assert Cone(st1, {a}) == Cone(st, {a});
    ConeIsClosed(st1, {a});
    HitMeans(st1.dependents, gone, x);
    if x in Cone(st, {a}) {
      var p :| PathFrom(st.dependents, {a}, p, x);
      LastEdge(st1, a, p, x);
    }
  }

  /** The last edge of a path starts at its root or inside the cone. */
  lemma LastEdge(st: State, a: Id, p: seq<Id>, x: Id)
    requires Shape(st) && PathFrom(st.dependents, {a}, p, x)
    ensures var c := p[|p| - 2]; c in {a} + Cone(st, {a}) && x in Of(st.dependents, c)
  {
    var c := p[|p| - 2];
    assert p[|p| - 2 + 1] in Of(st.dependents, p[|p| - 2]);
    if |p| > 2 {
      assert p[|p| - 3 + 1] in Of(st.dependents, p[|p| - 3]);
      assert PathFrom(st.dependents, {a}, p[..|p| - 1], c);
    }
  }

  /** A path along edges that takes none of the edges into `y` that a restart of `y` drops. */
  ghost predicate Around(st: State, a: Id, y: Id, x: Id)
    requires y in st.slots
  {
    exists p :: PathFrom(st.dependents, {a}, p, x) && Avoids(p, st.slots[y].deps, y)
  }

  ghost predicate Avoids(p: seq<Id>, deps: set<Id>, y: Id) {
    forall i {:trigger p[i + 1]} :: 0 <= i < |p| - 1 && p[i + 1] == y ==> p[i] !in deps
  }

  /** A restart of `y` cuts exactly the paths through what it has read. */
  lemma RestartCuts(env: Env, st: State, y: Id, a: Id, x: Id)
    requires Inv(env, st) && y in st.slots && st.slots[y].state == Failed && x in st.slots
    ensures x in Cone(Take(env, st, Get(y)), {a}) <==> Around(st, a, y, x)
  {
    assert SlotOk(env, st, y);
    var m, deps := st.dependents, st.slots[y].deps;
    forall p ensures PathFrom(RemoveEdges(m, deps, y), {a}, p, x) <==> PathFrom(m, {a}, p, x) && Avoids(p, deps, y) {
      CutPath(m, deps, y, a, p, x);
    }
  }

  lemma CutPath(m: map<Id, set<Id>>, deps: set<Id>, y: Id, a: Id, p: seq<Id>, x: Id)
    ensures PathFrom(RemoveEdges(m, deps, y), {a}, p, x) <==> PathFrom(m, {a}, p, x) && Avoids(p, deps, y)
  {
    var m' := RemoveEdges(m, deps, y);
    forall i | 0 <= i < |p| - 1
      ensures p[i + 1] in Of(m', p[i]) <==> p[i + 1] in Of(m, p[i]) && !(p[i + 1] == y && p[i] in deps)
    {
      RemoveEdgesMeans(m, deps, y, p[i], p[i + 1]);
    }
    if IsPath(m', p) {
      forall i | 0 <= i < |p| - 1 ensures p[i + 1] in Of(m, p[i]) && !(p[i + 1] == y && p[i] in deps) {
        assert p[i + 1] in Of(m', p[i]);
      }
    }
    if IsPath(m, p) && Avoids(p, deps, y) {
      forall i | 0 <= i < |p| - 1 ensures p[i + 1] in Of(m', p[i]) { assert p[i + 1] in Of(m, p[i]); }
    }
  }

  /**
    What a lost error costs.  Take any state in which nothing is lost, start a failed slot `y` again and write a source
    `a`.  A slot that was resolved can end up resolved and wrong only if edges lead from `a` to it, and every way there
    enters `y` through something that `y` had read: the restart dropped those edges, so the write no longer reaches it.
    Such a slot stays resolved, and is wrong exactly when the write changes what its compute gives.
   */
  lemma RestartThenWrite(env: Env, st: State, y: Id, a: Id, v: Value, x: Id)
    requires Inv(env, st) && CachesOk(env, st) && Intact(env, st) && st.batchDepth == 0
    requires forall z :: z in st.slots ==> GuardExact(env, z)
    requires y in st.slots && st.slots[y].state == Failed && a in st.sources && st.sources[a] != v
    requires x in st.slots && st.slots[x].state == Resolved && st.slots[x].value.Some?
    ensures var st2 := Take(env, Take(env, st, Get(y)), Set(a, v));
            var wrong := st2.slots[x].state == Resolved && !Fresh(env, st2, x);
            var cut := x in Cone(st, {a}) && !Around(st, a, y, x);
            && (wrong ==> cut)
            && (cut ==> st2.slots[x].state == Resolved && (wrong <==> !Gives(env, st2.sources, x, Result(st.slots[x]))))
  {
    var st1 := Take(env, st, Get(y));
    assert SlotOk(env, st, y);
    JoinKeeps(env, st, y);
    WriteLeaves(env, st1, a, v, x);
    var st2 := Write(st1, a, v);
    if st2.slots[x].state == Resolved && Gives(env, st2.sources, x, Result(st.slots[x])) {
      OneResult(env, st2, x);
    }
    if x !in Cone(st, {a}) { UnreachedIsFresh(env, st, a, v, x); }
    RestartCuts(env, st, y, a, x);
  }

  /** A write that does not reach a slot does not change what its compute gives. */
  lemma UnreachedIsFresh(env: Env, st: State, a: Id, v: Value, x: Id)
    requires Inv(env, st) && CachesOk(env, st) && Intact(env, st) && st.batchDepth == 0
    requires forall z :: z in st.slots ==> GuardExact(env, z)
    requires a in st.sources && st.sources[a] != v && x in st.slots && st.slots[x].state == Resolved
             && st.slots[x].value.Some?
    requires x !in Cone(st, {a})
    ensures Gives(env, st.sources[a := v], x, Result(st.slots[x]))
  {
    var st' := Write(st, a, v);
    WriteLeaves(env, st, a, v, x);
    StepKeeps(env, st, Set(a, v));
    StepKeepsCaches(env, st, Set(a, v));
    StepKeepsErrors(env, st, Set(a, v));
    IntactIsFresh(env, st', x);
    assert Gives(env, st'.sources, x, Result(st'.slots[x]));
  }

  lemma OneResult(env: Env, st: State, x: Id)
    requires x in st.slots && Settled(st.slots[x]) && (st.slots[x].state == Resolved ==> st.slots[x].value.Some?)
    requires Gives(env, st.sources, x, Result(st.slots[x]))
    ensures Fresh(env, st, x)
  {
    var d :| Proves(env, st.sources, x, Result(st.slots[x]), d);
    forall o | Gives(env, st.sources, x, o) ensures o == Result(st.slots[x]) {
      var e :| Proves(env, st.sources, x, o, e);
      GivesOneOutcome(env, st.sources, x, o, e, Result(st.slots[x]), d);
    }
  }
}
