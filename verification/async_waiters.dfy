/** Callers that wait are served, and computes that were replaced are ignored. */
module AsyncWaiters {
  import opened Basics
  import opened AsyncGraph
  import opened AsyncInvariant
  import opened AsyncSteps
  import opened AsyncFreshness

  // ---------------------------------------------------------------- every state

  ghost predicate LiveRun(st: State, t: Token)
    requires t in st.runs
  {
    !st.runs[t].cancelled && !st.runs[t].phase.Finished?
  }

  ghost predicate SameLiveSlot(st: State, t: Token, u: Token)
    requires t in st.runs && u in st.runs
  {
    LiveRun(st, t) && LiveRun(st, u) && st.runs[t].slot == st.runs[u].slot
  }

  /**
    In every state of every execution a registered waiter belongs to exactly one slot, that slot has a live compute in
    flight, the waiter's channel is still empty, no slot has two live computes, and a compute that waits is either
    registered or already answered.
   */
  lemma WaitersAreWatched(env: Env, steps: seq<Step>, states: seq<State>, n: nat)
    requires IsExecution(env, steps, states) && n < |states|
    ensures var st := states[n];
            && (forall x, w :: x in st.slots && w in st.slots[x].waiters ==>
                  && w !in st.mail && st.slots[x].inFlight.Some? && st.slots[x].inFlight.value in st.runs
                  && st.runs[st.slots[x].inFlight.value].slot == x && LiveRun(st, st.slots[x].inFlight.value))
            && (forall x, y, w :: x in st.slots && y in st.slots && Awaits(st, x, w) && Awaits(st, y, w) ==> x == y)
            && (forall t, u :: t in st.runs && u in st.runs && SameLiveSlot(st, t, u) ==> t == u)
            && (forall t :: t in st.runs && st.runs[t].phase.Waiting? ==>
                  && st.runs[t].phase.dep in st.slots
                  && (Awaits(st, st.runs[t].phase.dep, st.runs[t].phase.waiter) || st.runs[t].phase.waiter in st.mail))
  {
    ReachableInv(env, steps, states, n);
    var st := states[n];
    forall x | x in st.slots ensures SlotOk(env, st, x) && WaitersOk(st, x) {}
    forall t | t in st.runs ensures RunOk(st, t) {}
  }

  // ---------------------------------------------------------------- one step

  /** The owner of waiter `w` takes its answer or gives up on it. */
  ghost predicate Releases(env: Env, st: State, step: Step, w: WaiterId)
    requires Enabled(env, st, step)
  {
    || (step.CancelGet? && step.waiter == w)
    || (step.Receive? && st.runs[step.run].phase.waiter == w)
    || (step.Abandon? && st.runs[step.run].phase.waiter == w)
  }

  /** An answer is what the slot has just settled on; otherwise the slot has just been invalidated. */
  ghost predicate ReplyFits(st: State, x: Id, reply: Reply)
    requires x in st.slots
  {
    var s := st.slots[x];
    match reply
    case Superseded => s.state == Computing && s.inFlight == None
    case Answer(o) => Settled(s) && (s.state == Resolved ==> s.value.Some?) && o == Result(s)
  }

  lemma ConsumeServes(st: State, gone: set<Id>, x: Id, w: WaiterId)
    requires QueuesOk(st) && x in st.slots && Awaits(st, x, w)
    ensures var st' := Consume(st, gone);
            Awaits(st', x, w) || (w in st'.mail && ReplyFits(st', x, st'.mail[w]))
  {
    HitWaitersMeans(st, gone, x, w);
  }

  lemma ConsumeKeepsMail(st: State, gone: set<Id>, w: WaiterId)
    requires QueuesOk(st) && w in st.mail
    ensures w in Consume(st, gone).mail && Consume(st, gone).mail[w] == st.mail[w]
  {
    forall x | x in st.slots ensures w !in st.slots[x].waiters { assert WaitersOk(st, x); }
    assert w !in HitWaiters(st, gone);
  }

  lemma SettleServes(env: Env, st: State, t: Token, x: Id, w: WaiterId)
    requires Inv(env, st) && CompletesCurrent(env, st, t) && x in st.slots && Awaits(st, x, w)
    ensures var st' := Take(env, st, Complete(t));
            x in st'.slots && (Awaits(st', x, w) || (w in st'.mail && ReplyFits(st', x, st'.mail[w])))
  {
    assert SlotOk(env, st, st.runs[t].slot);
  }

  lemma WriteServes(env: Env, st: State, step: Step, x: Id, w: WaiterId)
    requires Inv(env, st) && Enabled(env, st, step) && (step.Set? || step.BatchEnd?) && x in st.slots
             && Awaits(st, x, w)
    ensures var st' := Take(env, st, step);
            x in st'.slots && (Awaits(st', x, w) || (w in st'.mail && ReplyFits(st', x, st'.mail[w])))
  {
    if step.Set? && st.sources[step.id] != step.value && st.batchDepth == 0 {
      var st1 := st.(sources := st.sources[step.id := step.value]);
      WrittenQueues(st, st1, {step.id});
      ConsumeServes(st1, {step.id} + Cone(st1, {step.id}), x, w);
    } else if step.BatchEnd? && st.batchDepth == 1 {
      var st1 := st.(batchDepth := 0, batchQueue := {});
      WrittenQueues(st, st1, st.batchQueue);
      ConsumeServes(st1, st.batchQueue + Cone(st1, st.batchQueue), x, w);
    }
  }

  lemma RemoveServes(st: State, y: Id, u: WaiterId, x: Id, w: WaiterId)
    requires QueuesOk(st) && y in st.slots && x in st.slots && Awaits(st, x, w) && u != w
    ensures Awaits(RemoveWaiter(st, y, u), x, w)
  {
    assert WaitersOk(st, y);
    WithoutMeans(st.slots[y].waiters, u);
  }

  lemma StartServes(env: Env, st: State, step: Step, x: Id, w: WaiterId)
    requires Enabled(env, st, step) && (step.Get? || step.Await?) && x in st.slots && Awaits(st, x, w)
    ensures x in Take(env, st, step).slots && Awaits(Take(env, st, step), x, w)
  {
  }

  /** A registered waiter stays registered or is told how its slot came out. */
  lemma StepServes(env: Env, st: State, step: Step, x: Id, w: WaiterId)
    requires Inv(env, st) && Enabled(env, st, step) && x in st.slots && Awaits(st, x, w) && !Releases(env, st, step, w)
    ensures var st' := Take(env, st, step);
            x in st'.slots && (Awaits(st', x, w) || (w in st'.mail && ReplyFits(st', x, st'.mail[w])))
  {
    match step
    case Set(_, _) => WriteServes(env, st, step, x, w);
    case BatchEnd => WriteServes(env, st, step, x, w);
    case Get(_) => StartServes(env, st, step, x, w);
    case Await(_) => StartServes(env, st, step, x, w);
    case CancelGet(y, u) => RemoveServes(st, y, u, x, w);
    case Abandon(t) => RemoveServes(st, st.runs[t].phase.dep, st.runs[t].phase.waiter, x, w);
    case Complete(t) => if CompletesCurrent(env, st, t) { SettleServes(env, st, t, x, w); }
    case _ =>
  }

  /** An answer in a channel is never overwritten. */
  lemma StepKeepsMail(env: Env, st: State, step: Step, w: WaiterId)
    requires Inv(env, st) && Enabled(env, st, step) && w in st.mail && !Releases(env, st, step, w)
    ensures var st' := Take(env, st, step); w in st'.mail && st'.mail[w] == st.mail[w]
  {
    match step
    case Set(a, v) =>
      if st.sources[a] != v && st.batchDepth == 0 {
        var st1 := st.(sources := st.sources[a := v]);
        WrittenQueues(st, st1, {a});
        ConsumeKeepsMail(st1, {a} + Cone(st1, {a}), w);
      }
    case BatchEnd =>
      if st.batchDepth == 1 {
        var st1 := st.(batchDepth := 0, batchQueue := {});
        WrittenQueues(st, st1, st.batchQueue);
        ConsumeKeepsMail(st1, st.batchQueue + Cone(st1, st.batchQueue), w);
      }
    case Complete(t) => assert WaitersOk(st, st.runs[t].slot);
    case _ =>
  }

  // ---------------------------------------------------------------- whole executions

  ghost predicate Unreleased(env: Env, steps: seq<Step>, states: seq<State>, i: nat, j: nat, w: WaiterId)
    requires IsExecution(env, steps, states) && j < |states|
  {
    forall k :: i <= k < j ==> !Releases(env, states[k], steps[k], w)
  }

  /** By state `k` the waiter had been told how its slot had come out just then, and it still has that answer at `j`. */
  ghost predicate Answered(states: seq<State>, k: nat, j: nat, x: Id, w: WaiterId)
    requires k < |states| && j < |states|
  {
    && x in states[k].slots && w in states[k].mail && ReplyFits(states[k], x, states[k].mail[w])
    && w in states[j].mail && states[j].mail[w] == states[k].mail[w]
  }

  /** At `j` the waiter registered by `i` is registered or answered. */
  ghost predicate Served(states: seq<State>, i: nat, j: nat, x: Id, w: WaiterId)
    requires i <= j < |states|
  {
    x in states[j].slots && (Awaits(states[j], x, w) || exists k :: i < k <= j && Answered(states, k, j, x, w))
  }

  /** A step that neither loses the waiter nor touches its answer. */
  ghost predicate ServesOn(st: State, st': State, x: Id, w: WaiterId)
    requires x in st.slots
  {
    && x in st'.slots
    && (Awaits(st, x, w) ==> Awaits(st', x, w) || (w in st'.mail && ReplyFits(st', x, st'.mail[w])))
    && (w in st.mail ==> w in st'.mail && st'.mail[w] == st.mail[w])
  }

  lemma ServedOn(states: seq<State>, i: nat, j: nat, x: Id, w: WaiterId)
    requires i <= j < |states| - 1 && Served(states, i, j, x, w) && ServesOn(states[j], states[j + 1], x, w)
    ensures Served(states, i, j + 1, x, w)
  {
    if Awaits(states[j], x, w) {
      assert !Awaits(states[j + 1], x, w) ==> Answered(states, j + 1, j + 1, x, w);
    } else {
      var k :| i < k <= j && Answered(states, k, j, x, w);
      assert Answered(states, k, j + 1, x, w);
    }
  }

  lemma StepServesOn(env: Env, st: State, step: Step, x: Id, w: WaiterId)
    requires Inv(env, st) && Enabled(env, st, step) && x in st.slots && !Releases(env, st, step, w)
    ensures ServesOn(st, Take(env, st, step), x, w)
  {
    SlotsStay(env, st, step, x);
    if Awaits(st, x, w) { StepServes(env, st, step, x, w); }
    if w in st.mail { StepKeepsMail(env, st, step, w); }
  }

  lemma RunServesOn(env: Env, steps: seq<Step>, states: seq<State>, j: nat, x: Id, w: WaiterId)
    requires IsExecution(env, steps, states) && j < |steps| && x in states[j].slots
             && !Releases(env, states[j], steps[j], w)
    ensures ServesOn(states[j], states[j + 1], x, w)
  {
    ReachableInv(env, steps, states, j);
    StepServesOn(env, states[j], steps[j], x, w);
  }

  /** Until its owner takes it or gives up, a registered waiter is registered or answered. */
  lemma {:induction false} WaiterIsServed(env: Env, steps: seq<Step>, states: seq<State>, i: nat, j: nat, x: Id,
          w: WaiterId)
    requires IsExecution(env, steps, states) && i <= j < |states|
    requires x in states[i].slots && Awaits(states[i], x, w) && Unreleased(env, steps, states, i, j, w)
    ensures Served(states, i, j, x, w)
    decreases j
  {
    if i < j {
      var m: nat := j - 1;
      assert !Releases(env, states[m], steps[m], w) && Unreleased(env, steps, states, i, m, w);
      WaiterIsServed(env, steps, states, i, m, x, w);
      RunServesOn(env, steps, states, m, x, w);
      ServedOn(states, i, m, x, w);
    }
  }

  lemma SlotsStay(env: Env, st: State, step: Step, x: Id)
    requires Enabled(env, st, step) && x in st.slots
    ensures x in Take(env, st, step).slots
  {
  }

  /**
    No lost waiter. A read of a slot that is not resolved, from outside or from a compute, is given a waiter of its
    own, and in every later state of the execution that waiter is registered with its slot or holds the answer, until
    its owner takes the answer, gives up or is cancelled. The answer is what the slot settled on at that moment, or
    says that the slot was invalidated at that moment.
   */
  lemma NoLostWaiter(env: Env, steps: seq<Step>, states: seq<State>, i: nat, j: nat, x: Id)
    requires IsExecution(env, steps, states) && i < j < |states| && x in states[i].slots
             && states[i].slots[x].state != Resolved
    requires steps[i] == Get(x) || (steps[i].Await? && states[i].runs[steps[i].run].phase.dep == x)
    requires Unreleased(env, steps, states, i + 1, j, states[i].nextWaiter)
    ensures var w := states[i].nextWaiter;
            && (forall y :: y in states[i].slots ==> !Awaits(states[i], y, w)) && w !in states[i].mail
            && Served(states, i + 1, j, x, w)
  {
    var w := states[i].nextWaiter;
    ReachableInv(env, steps, states, i);
    forall y | y in states[i].slots ensures !Awaits(states[i], y, w) { assert WaitersOk(states[i], y); }
    assert states[i + 1] == Take(env, states[i], steps[i]);
    assert w in states[i + 1].slots[x].waiters;
    WaiterIsServed(env, steps, states, i + 1, j, x, w);
  }

  // ---------------------------------------------------------------- replaced computes

  /** The compute keeps its slot, and the slot does not take the token back. */
  ghost predicate TokenGone(st: State, st': State, t: Token, x: Id) {
    && t in st.runs && t in st'.runs && st'.runs[t].slot == st.runs[t].slot
    && x in st'.slots && st'.slots[x].inFlight != Some(t)
  }

  lemma ConsumeToken(st: State, gone: set<Id>, t: Token, x: Id)
    requires t in st.runs && x in st.slots && st.slots[x].inFlight != Some(t)
    ensures TokenGone(st, Consume(st, gone), t, x)
  {
  }

  lemma WriteToken(env: Env, st: State, step: Step, t: Token, x: Id)
    requires Enabled(env, st, step) && (step.Set? || step.BatchEnd?) && t in st.runs && x in st.slots
             && st.slots[x].inFlight != Some(t)
    ensures TokenGone(st, Take(env, st, step), t, x)
  {
    if step.Set? && st.sources[step.id] != step.value && st.batchDepth == 0 {
      var st1 := st.(sources := st.sources[step.id := step.value]);
      ConsumeToken(st1, {step.id} + Cone(st1, {step.id}), t, x);
    } else if step.BatchEnd? && st.batchDepth == 1 {
      var st1 := st.(batchDepth := 0, batchQueue := {});
      ConsumeToken(st1, st.batchQueue + Cone(st1, st.batchQueue), t, x);
    }
  }

  lemma JoinToken(st: State, y: Id, t: Token, x: Id)
    requires QueuesOk(st) && y in st.slots && t in st.runs && x in st.slots && st.slots[x].inFlight != Some(t)
    ensures TokenGone(st, Join(st, y), t, x)
  {
    TokenIsFresh(st);
  }

  lemma StartToken(env: Env, st: State, step: Step, t: Token, x: Id)
    requires Inv(env, st) && Enabled(env, st, step) && (step.Get? || step.Await?)
    requires t in st.runs && x in st.slots && st.slots[x].inFlight != Some(t)
    ensures TokenGone(st, Take(env, st, step), t, x)
  {
    JoinToken(st, if step.Get? then step.slot else st.runs[step.run].phase.dep, t, x);
    TokenIsFresh(st);
  }

  lemma TokenStep(env: Env, st: State, step: Step, t: Token, x: Id)
    requires Inv(env, st) && Enabled(env, st, step) && t in st.runs && x in st.slots && st.slots[x].inFlight != Some(t)
    ensures TokenGone(st, Take(env, st, step), t, x)
  {
    if step.Set? || step.BatchEnd? {
      WriteToken(env, st, step, t, x);
    } else if step.Get? || step.Await? {
      StartToken(env, st, step, t, x);
    }
  }

  /** A token that is not, or no longer, a slot's own never becomes it again. */
  lemma {:induction false} TokenStaysReplaced(env: Env, steps: seq<Step>, states: seq<State>, i: nat, j: nat, t: Token,
          x: Id)
    requires IsExecution(env, steps, states) && i <= j < |states|
    requires t in states[i].runs && x in states[i].slots && states[i].slots[x].inFlight != Some(t)
    ensures t in states[j].runs && states[j].runs[t].slot == states[i].runs[t].slot
    ensures x in states[j].slots && states[j].slots[x].inFlight != Some(t)
    decreases j
  {
    if i < j {
      TokenStaysReplaced(env, steps, states, i, j - 1, t, x);
      ReachableInv(env, steps, states, j - 1);
      TokenStep(env, states[j - 1], steps[j - 1], t, x);
    }
  }

  /**
    The identity gate. Once a compute has been replaced or cancelled, its completion changes nothing but its own
    record, however late it arrives and whatever has happened since.
   */
  lemma LateCompletionIsDiscarded(env: Env, steps: seq<Step>, states: seq<State>, i: nat, j: nat, t: Token)
    requires IsExecution(env, steps, states) && i <= j < |steps| && steps[j] == Complete(t)
    requires t in states[i].runs && states[i].runs[t].slot in states[i].slots
    requires states[i].slots[states[i].runs[t].slot].inFlight != Some(t)
    ensures states[j + 1] == states[j].(runs := states[j + 1].runs)
    ensures t in states[j].runs && states[j + 1].runs == states[j].runs[t := states[j].runs[t].(phase := Finished)]
  {
    TokenStaysReplaced(env, steps, states, i, j, t, states[i].runs[t].slot);
    assert states[j + 1] == Take(env, states[j], steps[j]);
  }
}
