/** Every step keeps the invariant. */
module AsyncSteps {
  import opened Basics
  import opened AsyncGraph
  import opened AsyncInvariant

  /** What a read of node `r` returned is still good after the step. */
  ghost predicate NodeKept(st: State, st': State, r: Id) {
    && (r in st.sources ==>
          r in st'.sources && r !in st'.slots
          && (r in st'.batchQueue || (r !in st.batchQueue && st'.sources[r] == st.sources[r])))
    && (r in st.slots ==>
          r in st'.slots && r !in st'.sources
          && (st.slots[r].state == Resolved ==>
                st'.slots[r].state == Resolved && st'.slots[r].value == st.slots[r].value))
  }

  ghost predicate DepsKept(st: State, st': State, x: Id)
    requires x in st.slots
  {
    forall r :: r in st.slots[x].deps && Edge(st, r, x) ==> NodeKept(st, st', r) && Edge(st', r, x)
  }

  /** The answer waiting for the compute of `x`, if any, is good. */
  ghost predicate AnswerKept(st: State, st': State, x: Id)
    requires x in st.slots
  {
    st.slots[x].inFlight.Some? ==>
      var t := st.slots[x].inFlight.value;
      && t in st.runs && t in st'.runs && st'.runs[t] == st.runs[t]
      && (st.runs[t].phase.Waiting? && st.runs[t].phase.waiter in st'.mail ==>
            MailOk(st', st.runs[t].phase.dep, st'.mail[st.runs[t].phase.waiter]))
  }

  /** A slot the step did not touch, all of whose reads were kept. */
  lemma SlotKept(env: Env, st: State, st': State, x: Id)
    requires x in st.slots && SlotOk(env, st, x)
    requires x in st'.slots && st'.slots[x] == st.slots[x].(waiters := st'.slots[x].waiters) && st.clock <= st'.clock
    requires AnswerKept(st, st', x)
    requires DepsKept(st, st', x)
    ensures SlotOk(env, st', x)
  {
    var s := st.slots[x];
    if s.inFlight.Some? {
      TraceKept(env, st, st', x, st.runs[s.inFlight.value].hist);
    }
    if Settled(s) {
      TraceKept(env, st, st', x, s.trace);
    }
  }

  lemma TraceKept(env: Env, st: State, st': State, x: Id, hist: seq<Outcome>)
    requires x in st.slots && x in st'.slots && st'.slots[x].deps >= st.slots[x].deps
    requires TraceHolds(env, st, x, hist)
    requires forall r :: r in st.slots[x].deps ==> NodeKept(st, st', r)
    ensures TraceHolds(env, st', x, hist)
  {
    forall i | 0 <= i < |hist| ensures ReadOk(env, st', x, hist, i) {
      assert ReadOk(env, st, x, hist, i);
    }
  }

  /** Nothing a cached value or a compute relies on has changed, except waiters, other runs and the mail. */
  lemma QuietStep(env: Env, st: State, st': State)
    requires Inv(env, st) && st.clock <= st'.clock
    requires st'.sources == st.sources && st'.slots.Keys == st.slots.Keys && st'.dependents == st.dependents
    requires st'.batchQueue == st.batchQueue
    requires forall x :: x in st.slots ==> st'.slots[x] == st.slots[x].(waiters := st'.slots[x].waiters)
    requires forall x :: x in st.slots ==> AnswerKept(st, st', x)
    ensures SlotsOk(env, st')
  {
    forall x | x in st'.slots ensures SlotOk(env, st', x) {
      assert SlotOk(env, st, x);
      forall r | r in st.slots[x].deps && Edge(st, r, x) ensures NodeKept(st, st', r) && Edge(st', r, x) {}
      SlotKept(env, st, st', x);
    }
  }

  // ---------------------------------------------------------------- consuming edges

  /** `gone` holds everything downstream of it. */
  ghost predicate Closed(st: State, gone: set<Id>) {
    forall c, x :: c in gone && x in Of(st.dependents, c) ==> x in gone
  }

  lemma HitMeans(m: map<Id, set<Id>>, gone: set<Id>, x: Id)
    ensures Hit(m, gone, x) <==> exists c :: c in gone && x in Of(m, c)
  {
    if c :| c in gone && x in Of(m, c) {
      assert c in EdgesInto(m, gone, x);
    }
    if Hit(m, gone, x) {
      var c :| c in EdgesInto(m, gone, x);
    }
  }

  /** `st` is `pre` with some sources written; `gone` covers every written source that is not queued. */
  ghost predicate Written(pre: State, st: State, gone: set<Id>) {
    && st == pre.(sources := st.sources, batchDepth := st.batchDepth, batchQueue := st.batchQueue)
    && st.sources.Keys == pre.sources.Keys
    && (forall a :: a in st.sources && a !in gone ==>
          a in st.batchQueue || (a !in pre.batchQueue && st.sources[a] == pre.sources[a]))
  }

  lemma ConsumeDeps(st: State, pre: State, gone: set<Id>, x: Id)
    requires Shape(pre) && x in pre.slots && Written(pre, st, gone) && Closed(st, gone)
    requires !Hit(st.dependents, gone, x)
    ensures DepsKept(pre, Consume(st, gone), x)
  {
    var st' := Consume(st, gone);
    HitMeans(st.dependents, gone, x);
    forall r | r in pre.slots[x].deps && Edge(pre, r, x) ensures NodeKept(pre, st', r) && Edge(st', r, x) {
      assert r !in gone;
      HitMeans(st.dependents, gone, r);
    }
  }

  lemma ConsumeAnswer(env: Env, st: State, pre: State, gone: set<Id>, x: Id)
    requires Shape(pre) && x in pre.slots && SlotOk(env, pre, x) && Written(pre, st, gone) && Closed(st, gone)
    requires !Hit(st.dependents, gone, x)
    ensures AnswerKept(pre, Consume(st, gone), x)
  {
    var st' := Consume(st, gone);
    var s := pre.slots[x];
    if s.inFlight.Some? {
      var t := s.inFlight.value;
      var r := pre.runs[t];
      assert !OwnedHit(st, gone, t);
      if r.phase.Waiting? && r.phase.waiter in st'.mail && r.phase.waiter !in HitWaiters(st, gone) {
        ConsumeDeps(st, pre, gone, x);
        assert Edge(pre, r.phase.dep, x);
        assert NodeKept(pre, st', r.phase.dep);
      }
    }
  }

  lemma ConsumeSlots(env: Env, st: State, pre: State, gone: set<Id>)
    requires Shape(pre) && SlotsOk(env, pre) && Written(pre, st, gone) && Closed(st, gone)
    ensures SlotsOk(env, Consume(st, gone))
  {
    var st' := Consume(st, gone);
    forall x | x in st'.slots ensures SlotOk(env, st', x) {
      if !Hit(st.dependents, gone, x) {
        assert SlotOk(env, pre, x);
        ConsumeDeps(st, pre, gone, x);
        ConsumeAnswer(env, st, pre, gone, x);
        SlotKept(env, pre, st', x);
      }
    }
  }

  lemma HitWaitersMeans(st: State, gone: set<Id>, x: Id, w: WaiterId)
    requires QueuesOk(st) && x in st.slots && Awaits(st, x, w)
    ensures w in HitWaiters(st, gone) <==> Hit(st.dependents, gone, x)
  {
    if w in HitWaiters(st, gone) {
      var y :| y in st.slots && Hit(st.dependents, gone, y) && w in st.slots[y].waiters;
      assert Awaits(st, y, w);
    }
  }

  lemma ConsumeRun(st: State, gone: set<Id>, t: Token)
    requires QueuesOk(st) && t in st.runs
    ensures RunOk(Consume(st, gone), t)
  {
    var st' := Consume(st, gone);
    var r := st.runs[t];
    assert RunOk(st, t);
    if !r.cancelled && !r.phase.Finished? && Hit(st.dependents, gone, r.slot) {
      assert OwnedHit(st, gone, t);
    }
    if r.phase.Waiting? && Awaits(st, r.phase.dep, r.phase.waiter) {
      HitWaitersMeans(st, gone, r.phase.dep, r.phase.waiter);
    }
  }

  lemma ConsumeQueues(st: State, gone: set<Id>)
    requires Shape(st) && QueuesOk(st)
    ensures Shape(Consume(st, gone)) && QueuesOk(Consume(st, gone))
  {
    var st' := Consume(st, gone);
    forall x | x in st'.slots ensures WaitersOk(st', x) { ConsumeWaiters(st, gone, x); }
    forall t | t in st'.runs ensures RunOk(st', t) { ConsumeRun(st, gone, t); }
    forall w | w in HitWaiters(st, gone) ensures w < st.nextWaiter {
      var x :| x in st.slots && Hit(st.dependents, gone, x) && w in st.slots[x].waiters;
      assert WaitersOk(st, x);
    }
    forall x, y, w | x in st'.slots && y in st'.slots && Awaits(st', x, w) && Awaits(st', y, w) ensures x == y {
      assert Awaits(st, x, w) && Awaits(st, y, w);
    }
  }

  lemma ConsumeWaiters(st: State, gone: set<Id>, x: Id)
    requires QueuesOk(st) && x in st.slots
    ensures x in Consume(st, gone).slots && WaitersOk(Consume(st, gone), x)
  {
    var st' := Consume(st, gone);
    assert WaitersOk(st, x);
    forall w | w in st'.slots[x].waiters ensures w < st.nextWaiter && w !in st'.mail {
      assert Awaits(st, x, w);
      HitWaitersMeans(st, gone, x, w);
    }
  }

  lemma WrittenQueues(pre: State, st: State, gone: set<Id>)
    requires QueuesOk(pre) && Written(pre, st, gone)
    ensures QueuesOk(st)
  {
    forall x | x in st.slots ensures WaitersOk(st, x) { assert WaitersOk(pre, x); }
    forall t | t in st.runs ensures RunOk(st, t) { assert RunOk(pre, t); }
    forall x, y, w | x in st.slots && y in st.slots && Awaits(st, x, w) && Awaits(st, y, w) ensures x == y {
      assert Awaits(pre, x, w) && Awaits(pre, y, w);
    }
  }

  lemma ConeIsClosed(st: State, roots: set<Id>)
    requires forall k :: k in st.dependents ==> st.dependents[k] <= st.slots.Keys
    ensures Closed(st, roots + Cone(st, roots))
  {
    var gone := roots + Cone(st, roots);
    forall c, x | c in gone && x in Of(st.dependents, c) ensures x in gone {
      if c in roots {
        assert PathFrom(st.dependents, roots, [c, x], x);
      } else {
        var p :| PathFrom(st.dependents, roots, p, c);
        assert PathFrom(st.dependents, roots, p + [x], x);
      }
    }
  }

  /** Propagation from the written sources restores the invariant. */
  lemma PropagateKeeps(env: Env, st: State, pre: State, roots: set<Id>)
    requires Inv(env, pre) && Written(pre, st, roots) && Shape(st)
    ensures Inv(env, Propagate(st, roots))
  {
    var gone := roots + Cone(st, roots);
    ConeIsClosed(st, roots);
    WrittenQueues(pre, st, gone);
    ConsumeSlots(env, st, pre, gone);
    ConsumeQueues(st, gone);
  }

  lemma WriteKeeps(env: Env, st: State, a: Id, v: Value)
    requires Inv(env, st) && a in st.sources
    ensures Inv(env, Write(st, a, v))
  {
    if st.sources[a] != v {
      var st1 := st.(sources := st.sources[a := v]);
      if st.batchDepth > 0 {
        var st2 := st1.(batchQueue := st.batchQueue + {a});
        WrittenQueues(st, st2, {});
        forall x | x in st2.slots ensures SlotOk(env, st2, x) {
          assert SlotOk(env, st, x);
          SlotKept(env, st, st2, x);
        }
      } else {
        PropagateKeeps(env, st1, st, {a});
      }
    }
  }

  lemma BatchDepthKeeps(env: Env, st: State, st': State)
    requires Inv(env, st) && st' == st.(batchDepth := st'.batchDepth) && st'.batchDepth > 0
    ensures Inv(env, st')
  {
    WrittenQueues(st, st', st.batchQueue);
    forall x | x in st'.slots ensures SlotOk(env, st', x) {
      assert SlotOk(env, st, x);
      SlotKept(env, st, st', x);
    }
  }

  lemma BatchEndKeeps(env: Env, st: State)
    requires Inv(env, st) && st.batchDepth > 0
    ensures Inv(env, Take(env, st, BatchEnd))
  {
    var st1 := st.(batchDepth := st.batchDepth - 1);
    if st1.batchDepth == 0 {
      PropagateKeeps(env, st1.(batchQueue := {}), st, st.batchQueue);
    } else {
      BatchDepthKeeps(env, st, st1);
    }
  }

  // ---------------------------------------------------------------- slots and waiters

  lemma RemoveEdgesMeans(m: map<Id, set<Id>>, deps: set<Id>, d: Id, k: Id, x: Id)
    ensures x in Of(RemoveEdges(m, deps, d), k) <==> x in Of(m, k) && !(k in deps && x == d)
  {
  }

  /** Starting a compute for a slot that has none. */
  lemma SpawnSlots(env: Env, st: State, x: Id)
    requires Shape(st) && SlotsOk(env, st) && x in st.slots && st.nextToken !in st.runs
    requires st.slots[x].inFlight == None && st.slots[x].state != Resolved
    ensures SlotsOk(env, Spawn(st, x))
  {
    var st' := Spawn(st, x);
    forall y | y in st'.slots ensures SlotOk(env, st', y) {
      assert SlotOk(env, st, y);
      if y != x {
        forall r | r in st.slots[y].deps && Edge(st, r, y) ensures NodeKept(st, st', r) && Edge(st', r, y) {
          RemoveEdgesMeans(st.dependents, st.slots[x].deps, x, r, y);
        }
        SlotKept(env, st, st', y);
      }
    }
  }

  /** `st` is `pre` with a fresh waiter queued at `x`. */
  ghost predicate Queued(pre: State, st: State, x: Id) {
    && x in pre.slots
    && st == pre.(slots := pre.slots[x := pre.slots[x].(waiters := pre.slots[x].waiters + [pre.nextWaiter])],
                  nextWaiter := pre.nextWaiter + 1)
  }

  lemma QueuedRuns(pre: State, st: State, x: Id, t: Token)
    requires QueuesOk(pre) && Queued(pre, st, x) && t in pre.runs
    ensures RunOk(st, t)
  {
    assert RunOk(pre, t);
  }

  lemma QueuedWaiters(pre: State, st: State, x: Id, y: Id)
    requires Shape(pre) && QueuesOk(pre) && Queued(pre, st, x) && y in st.slots
    ensures Distinct(st.slots[y].waiters)
    ensures forall w :: w in st.slots[y].waiters ==> w < st.nextWaiter && w !in st.mail
  {
    assert WaitersOk(pre, y);
    var ws := pre.slots[x].waiters;
    assert WaitersOk(pre, x);
    forall i | 0 <= i < |ws| ensures ws[i] != pre.nextWaiter { assert ws[i] in ws; }
  }

  lemma QueuedApart(pre: State, st: State, x: Id)
    requires QueuesOk(pre) && Queued(pre, st, x)
    ensures WaitersApart(st)
  {
    forall y, z, w | y in st.slots && z in st.slots && Awaits(st, y, w) && Awaits(st, z, w) ensures y == z {
      assert WaitersOk(pre, y) && WaitersOk(pre, z);
      if w != pre.nextWaiter { assert Awaits(pre, y, w) && Awaits(pre, z, w); }
    }
  }

  lemma JoinQueues(st: State, x: Id)
    requires Shape(st) && QueuesOk(st) && x in st.slots
    ensures Shape(Join(st, x)) && QueuesOk(Join(st, x))
  {
    var s := st.slots[x];
    var st1 := st.(slots := st.slots[x := s.(waiters := s.waiters + [st.nextWaiter])], nextWaiter := st.nextWaiter + 1);
    var st' := Join(st, x);
    QueuedApart(st, st1, x);
    forall y | y in st'.slots ensures WaitersOk(st', y) {
      assert WaitersOk(st, y);
      QueuedWaiters(st, st1, x, y);
    }
    forall t | t in st'.runs ensures RunOk(st', t) {
      if t in st.runs { QueuedRuns(st, st1, x, t); }
    }
    forall y, z, w | y in st'.slots && z in st'.slots && Awaits(st', y, w) && Awaits(st', z, w) ensures y == z {
      assert Awaits(st1, y, w) && Awaits(st1, z, w);
    }
    if s.inFlight == None {
      forall k | k in st'.dependents ensures st'.dependents[k] <= st'.slots.Keys {
        assert st'.dependents[k] <= st.dependents[k];
      }
    }
  }

  lemma TokenIsFresh(st: State)
    requires QueuesOk(st)
    ensures st.nextToken !in st.runs
  {
    forall t | t in st.runs ensures t < st.nextToken { assert RunOk(st, t); }
  }

  lemma JoinKeeps(env: Env, st: State, x: Id)
    requires Inv(env, st) && x in st.slots && st.slots[x].state != Resolved
    ensures Inv(env, Join(st, x))
  {
    var s := st.slots[x];
    JoinQueues(st, x);
    QueuedSlots(env, st, x);
    if s.inFlight == None {
      TokenIsFresh(st);
      SpawnSlots(env,
          st.(slots := st.slots[x := s.(waiters := s.waiters + [st.nextWaiter])], nextWaiter := st.nextWaiter + 1), x);
    }
  }

  lemma QueuedSlots(env: Env, st: State, x: Id)
    requires Inv(env, st) && x in st.slots && st.slots[x].state != Resolved
    ensures var s := st.slots[x];
            var st1 := st.(slots := st.slots[x := s.(waiters := s.waiters + [st.nextWaiter])],
                           nextWaiter := st.nextWaiter + 1);
            Shape(st1) && SlotsOk(env, st1)
  {
    var s := st.slots[x];
    var st1 := st.(slots := st.slots[x := s.(waiters := s.waiters + [st.nextWaiter])], nextWaiter := st.nextWaiter + 1);
    forall y | y in st.slots ensures AnswerKept(st, st1, y) { assert SlotOk(env, st, y); }
    QuietStep(env, st, st1);
  }

  lemma {:induction false} WithoutMeans<T>(s: seq<T>, w: T)
    requires Distinct(s)
    ensures Distinct(Without(s, w))
    ensures forall u :: u in Without(s, w) <==> u in s && u != w
  {
    if s != [] {
      var rest := s[1..];
      assert Distinct(rest);
      assert forall u :: u in s <==> u == s[0] || u in rest;
      WithoutMeans(rest, w);
      assert s[0] !in rest;
      if s[0] != w {
        var r := Without(rest, w);
        forall i, j | 0 <= i < j < |[s[0]] + r| ensures ([s[0]] + r)[i] != ([s[0]] + r)[j] {
          if i == 0 { assert ([s[0]] + r)[j] == r[j - 1] && r[j - 1] in r; }
        }
      }
    }
  }

  lemma RemoveWaiterQueues(st: State, x: Id, w: WaiterId)
    requires Shape(st) && QueuesOk(st) && x in st.slots
    requires forall t :: t in st.runs ==> st.runs[t].phase != Waiting(x, w)
    ensures Shape(RemoveWaiter(st, x, w)) && QueuesOk(RemoveWaiter(st, x, w))
  {
    var st' := RemoveWaiter(st, x, w);
    assert WaitersOk(st, x);
    WithoutMeans(st.slots[x].waiters, w);
    forall y | y in st'.slots ensures WaitersOk(st', y) { assert WaitersOk(st, y); }
    forall t | t in st'.runs ensures RunOk(st', t) { assert RunOk(st, t); }
    forall y, z, u | y in st'.slots && z in st'.slots && Awaits(st', y, u) && Awaits(st', z, u) ensures y == z {
      assert Awaits(st, y, u) && Awaits(st, z, u);
    }
  }

  /** Dropping a waiter nobody in the graph waits on. */
  lemma RemoveWaiterKeeps(env: Env, st: State, x: Id, w: WaiterId)
    requires Inv(env, st) && x in st.slots
    requires forall t :: t in st.runs ==> st.runs[t].phase != Waiting(x, w)
    ensures Inv(env, RemoveWaiter(st, x, w))
  {
    var st' := RemoveWaiter(st, x, w);
    RemoveWaiterQueues(st, x, w);
    forall y | y in st.slots ensures AnswerKept(st, st', y) { assert SlotOk(env, st, y); }
    QuietStep(env, st, st');
  }

  // ---------------------------------------------------------------- compute moves

  lemma TrackDepSlots(env: Env, st: State, x: Id, dep: Id)
    requires Shape(st) && SlotsOk(env, st) && x in st.slots && st.slots[x].inFlight.Some?
    ensures SlotsOk(env, TrackDep(st, x, dep))
  {
    var st' := TrackDep(st, x, dep);
    if dep !in st.slots[x].deps {
      forall y | y in st'.slots ensures SlotOk(env, st', y) {
        assert SlotOk(env, st, y);
        if y == x {
          TraceKept(env, st, st', x, st.runs[st.slots[x].inFlight.value].hist);
        } else {
          SlotKept(env, st, st', y);
        }
      }
    }
  }

  lemma TrackDepQueues(st: State, x: Id, dep: Id)
    requires Shape(st) && QueuesOk(st) && x in st.slots
    ensures Shape(TrackDep(st, x, dep)) && QueuesOk(TrackDep(st, x, dep))
  {
    var st' := TrackDep(st, x, dep);
    forall y | y in st'.slots ensures WaitersOk(st', y) { assert WaitersOk(st, y); }
    forall t | t in st'.runs ensures RunOk(st', t) { assert RunOk(st, t); }
    forall y, z, w | y in st'.slots && z in st'.slots && Awaits(st', y, w) && Awaits(st', z, w) ensures y == z {
      assert Awaits(st, y, w) && Awaits(st, z, w);
    }
  }

  lemma TrackReadKeeps(env: Env, st: State, t: Token, dep: Id)
    requires Inv(env, st) && t in st.runs && st.runs[t].slot in st.slots && !st.runs[t].phase.Finished?
    ensures Inv(env, TrackRead(st, t, dep))
    ensures st.slots[st.runs[t].slot].inFlight == Some(t) ==> dep in TrackRead(st, t, dep).slots[st.runs[t].slot].deps
  {
    var x := st.runs[t].slot;
    assert RunOk(st, t) && SlotOk(env, st, x);
    if !st.runs[t].cancelled {
      TrackDepSlots(env, st, x, dep);
      TrackDepQueues(st, x, dep);
    }
  }

  /** The compute `t` may move to record `r`. */
  ghost predicate Moved(env: Env, st: State, t: Token, r: Run) {
    && t in st.runs && r.slot == st.runs[t].slot && r.cancelled == st.runs[t].cancelled && r.slot in st.slots
    && !r.phase.Waiting? && !r.phase.Finished? && !st.runs[t].phase.Finished?
    && (st.slots[r.slot].inFlight == Some(t) ==> TraceHolds(env, st, r.slot, r.hist) && PhaseOk(env, st, r.slot, r))
  }

  /** The channels a move of `t` may have emptied. */
  ghost predicate Taken(st: State, t: Token, taken: set<WaiterId>)
    requires t in st.runs
  {
    taken == {} || (st.runs[t].phase.Waiting? && taken == {st.runs[t].phase.waiter})
  }

  lemma AdvanceSlots(env: Env, st: State, t: Token, r: Run, taken: set<WaiterId>)
    requires SlotsOk(env, st) && Shape(st) && Moved(env, st, t, r)
    ensures SlotsOk(env, WithRun(st.(mail := st.mail - taken), t, r))
  {
    var st' := WithRun(st.(mail := st.mail - taken), t, r);
    forall y | y in st'.slots ensures SlotOk(env, st', y) {
      assert SlotOk(env, st, y);
      if st.slots[y].inFlight == Some(t) {
        TraceKept(env, st, st', y, r.hist);
      } else {
        SlotKept(env, st, st', y);
      }
    }
  }

  lemma AdvanceQueues(env: Env, st: State, t: Token, r: Run, taken: set<WaiterId>)
    requires Shape(st) && QueuesOk(st) && Moved(env, st, t, r) && Taken(st, t, taken)
    ensures Shape(WithRun(st.(mail := st.mail - taken), t, r)) && QueuesOk(WithRun(st.(mail := st.mail - taken), t, r))
  {
    var st' := WithRun(st.(mail := st.mail - taken), t, r);
    forall y | y in st'.slots ensures WaitersOk(st', y) { assert WaitersOk(st, y); }
    forall u | u in st'.runs ensures RunOk(st', u) {
      assert RunOk(st, u) && RunOk(st, t);
      if u != t && st.runs[u].phase.Waiting? && taken != {} { assert !SameWaiter(st.runs[u].phase, st.runs[t].phase); }
    }
    forall y, z, w | y in st'.slots && z in st'.slots && Awaits(st', y, w) && Awaits(st', z, w) ensures y == z {
      assert Awaits(st, y, w) && Awaits(st, z, w);
    }
  }

  /** A compute that moves on without waiting; an answer it has consumed is gone from its channel. */
  lemma AdvanceKeeps(env: Env, st: State, t: Token, r: Run, taken: set<WaiterId>)
    requires Inv(env, st) && Moved(env, st, t, r) && Taken(st, t, taken)
    ensures Inv(env, WithRun(st.(mail := st.mail - taken), t, r))
  {
    AdvanceSlots(env, st, t, r, taken);
    AdvanceQueues(env, st, t, r, taken);
  }

  lemma TraceExtends(env: Env, st: State, x: Id, hist: seq<Outcome>, o: Outcome)
    requires x in st.slots && TraceHolds(env, st, x, hist)
    requires env.prog(x, hist).Read? && env.prog(x, hist).dep in st.slots[x].deps
    requires ReadHolds(st, env.prog(x, hist).dep, o)
    ensures TraceHolds(env, st, x, hist + [o])
  {
    var h := hist + [o];
    forall i | 0 <= i < |h| ensures ReadOk(env, st, x, h, i) {
      if i < |hist| {
        assert h[..i] == hist[..i];
        assert ReadOk(env, st, x, hist, i);
      } else {
        assert h[..i] == hist;
      }
    }
  }

  lemma ReadSourceKeeps(env: Env, st: State, t: Token)
    requires Inv(env, st) && Enabled(env, st, ReadSource(t))
    ensures Inv(env, Take(env, st, ReadSource(t)))
  {
    var a := NextDep(env, st, t);
    var r := st.runs[t];
    TrackReadKeeps(env, st, t, a);
    var st1 := TrackRead(st, t, a);
    if st1.slots[r.slot].inFlight == Some(t) {
      assert SlotOk(env, st1, r.slot);
      TraceExtends(env, st1, r.slot, r.hist, Ok(st.sources[a]));
    }
    AdvanceKeeps(env, st1, t, r.(hist := r.hist + [Ok(st.sources[a])]), {});
    assert st1.mail - {} == st1.mail;
  }

  lemma TrackKeeps(env: Env, st: State, t: Token)
    requires Inv(env, st) && Enabled(env, st, Track(t))
    ensures Inv(env, Take(env, st, Track(t)))
  {
    var d := NextDep(env, st, t);
    var r := st.runs[t];
    TrackReadKeeps(env, st, t, d);
    var st1 := TrackRead(st, t, d);
    if st1.slots[r.slot].inFlight == Some(t) {
      assert SlotOk(env, st1, r.slot);
    }
    AdvanceKeeps(env, st1, t, r.(phase := Tracked(d)), {});
    assert st1.mail - {} == st1.mail;
  }

  /** The compute `t` starts to wait at the waiter it has just queued. */
  ghost predicate Parked(env: Env, st: State, t: Token, r: Run, w: WaiterId) {
    && t in st.runs && st.runs[t].phase.Tracked? && r == st.runs[t].(phase := Waiting(st.runs[t].phase.dep, w))
    && r.slot in st.slots && r.phase.dep in st.slots && Awaits(st, r.phase.dep, w) && w < st.nextWaiter && w !in st.mail
    && (forall u :: u in st.runs ==> !(st.runs[u].phase.Waiting? && st.runs[u].phase.waiter == w))
  }

  lemma ParkKeeps(env: Env, st: State, t: Token, r: Run, w: WaiterId)
    requires Inv(env, st) && Parked(env, st, t, r, w)
    ensures Inv(env, WithRun(st, t, r))
  {
    var st' := WithRun(st, t, r);
    forall y | y in st'.slots ensures SlotOk(env, st', y) && WaitersOk(st', y) {
      assert SlotOk(env, st, y) && WaitersOk(st, y);
      if st.slots[y].inFlight == Some(t) {
        TraceKept(env, st, st', y, r.hist);
      } else {
        SlotKept(env, st, st', y);
      }
    }
    forall u | u in st'.runs ensures RunOk(st', u) { assert RunOk(st, u); }
    forall y, z, u | y in st'.slots && z in st'.slots && Awaits(st', y, u) && Awaits(st', z, u) ensures y == z {
      assert Awaits(st, y, u) && Awaits(st, z, u);
    }
  }

  lemma AwaitResolved(env: Env, st: State, t: Token)
    requires Inv(env, st) && Enabled(env, st, Await(t)) && st.slots[st.runs[t].phase.dep].state == Resolved
    ensures Inv(env, Take(env, st, Await(t)))
  {
    var r := st.runs[t];
    var d := r.phase.dep;
    assert RunOk(st, t) && SlotOk(env, st, r.slot) && SlotOk(env, st, d);
    var v := st.slots[d].value.value;
    if st.slots[r.slot].inFlight == Some(t) {
      TraceExtends(env, st, r.slot, r.hist, Ok(v));
    }
    AdvanceKeeps(env, st, t, r.(hist := r.hist + [Ok(v)], phase := Idle), {});
    assert st.mail - {} == st.mail;
  }

  lemma AwaitKeeps(env: Env, st: State, t: Token)
    requires Inv(env, st) && Enabled(env, st, Await(t))
    ensures Inv(env, Take(env, st, Await(t)))
  {
    var r := st.runs[t];
    var d := r.phase.dep;
    if st.slots[d].state == Resolved {
      AwaitResolved(env, st, t);
    } else {
      JoinKeeps(env, st, d);
      var st1 := Join(st, d);
      assert RunOk(st, t);
      forall u | u in st1.runs ensures !(st1.runs[u].phase.Waiting? && st1.runs[u].phase.waiter == st.nextWaiter) {
        if u in st.runs { assert RunOk(st, u); }
      }
      ParkKeeps(env, st1, t, r.(phase := Waiting(d, st.nextWaiter)), st.nextWaiter);
    }
  }

  lemma ReceiveKeeps(env: Env, st: State, t: Token)
    requires Inv(env, st) && Enabled(env, st, Receive(t))
    ensures Inv(env, Take(env, st, Receive(t)))
  {
    var r := st.runs[t];
    var w := r.phase.waiter;
    assert RunOk(st, t) && SlotOk(env, st, r.slot);
    match st.mail[w]
    case Superseded =>
      AdvanceKeeps(env, st, t, r.(phase := Tracked(r.phase.dep)), {w});
    case Answer(o) =>
      if st.slots[r.slot].inFlight == Some(t) {
        assert PhaseOk(env, st, r.slot, r) && MailOk(st, r.phase.dep, st.mail[w]);
        TraceExtends(env, st, r.slot, r.hist, o);
      }
      AdvanceKeeps(env, st, t, r.(hist := r.hist + [o], phase := Idle), {w});
  }

  lemma AbandonKeeps(env: Env, st: State, t: Token)
    requires Inv(env, st) && Enabled(env, st, Abandon(t))
    ensures Inv(env, Take(env, st, Abandon(t)))
  {
    var r := st.runs[t];
    var r' := r.(hist := r.hist + [Err(CANCELLED)], phase := Idle);
    assert RunOk(st, t) && SlotOk(env, st, r.slot);
    AdvanceKeeps(env, st, t, r', {});
    assert st.mail - {} == st.mail;
    var st1 := WithRun(st, t, r');
    forall u | u in st1.runs ensures st1.runs[u].phase != Waiting(r.phase.dep, r.phase.waiter) {
      if u != t { assert !SameWaiter(st.runs[u].phase, r.phase); }
    }
    RemoveWaiterKeeps(env, st1, r.phase.dep, r.phase.waiter);
    assert RemoveWaiter(st1, r.phase.dep, r.phase.waiter) == Take(env, st, Abandon(t));
  }

  lemma StaleCompletionKeeps(env: Env, st: State, t: Token)
    requires Inv(env, st) && Enabled(env, st, Complete(t)) && st.slots[st.runs[t].slot].inFlight != Some(t)
    ensures Inv(env, Take(env, st, Complete(t)))
  {
    var st' := Take(env, st, Complete(t));
    forall y | y in st.slots ensures AnswerKept(st, st', y) { assert SlotOk(env, st, y); }
    QuietStep(env, st, st');
    forall y | y in st'.slots ensures WaitersOk(st', y) { assert WaitersOk(st, y); }
    forall u | u in st'.runs ensures RunOk(st', u) { assert RunOk(st, u); }
    forall y, z, w | y in st'.slots && z in st'.slots && Awaits(st', y, w) && Awaits(st', z, w) ensures y == z {
      assert Awaits(st, y, w) && Awaits(st, z, w);
    }
  }

  ghost predicate CompletesCurrent(env: Env, st: State, t: Token) {
    Enabled(env, st, Complete(t)) && st.slots[st.runs[t].slot].inFlight == Some(t)
  }

  lemma SettleSlots(env: Env, st: State, t: Token)
    requires Inv(env, st) && CompletesCurrent(env, st, t)
    ensures SlotsOk(env, Take(env, st, Complete(t)))
  {
    var r := st.runs[t];
    var x := r.slot;
    var st' := Take(env, st, Complete(t));
    assert SlotOk(env, st, x);
    forall y | y in st'.slots ensures SlotOk(env, st', y) {
      assert SlotOk(env, st, y);
      if y == x {
        TraceKept(env, st, st', x, r.hist);
      } else {
        SettleAnswer(env, st, t, y);
        SlotKept(env, st, st', y);
      }
    }
  }

  lemma SettleAnswer(env: Env, st: State, t: Token, y: Id)
    requires Inv(env, st) && CompletesCurrent(env, st, t) && y in st.slots && y != st.runs[t].slot
    ensures AnswerKept(st, Take(env, st, Complete(t)), y)
  {
    var x := st.runs[t].slot;
    assert SlotOk(env, st, y) && SlotOk(env, st, x) && WaitersOk(st, x);
    if st.slots[y].inFlight.Some? {
      var q := st.runs[st.slots[y].inFlight.value];
      assert RunOk(st, st.slots[y].inFlight.value);
      if q.phase.Waiting? && Awaits(st, x, q.phase.waiter) {
        assert Awaits(st, q.phase.dep, q.phase.waiter);
      }
    }
  }

  /** What a completion leaves of the waiters and channels. */
  lemma SettleEffect(env: Env, st: State, t: Token)
    requires CompletesCurrent(env, st, t)
    ensures var st' := Take(env, st, Complete(t));
            var x := st.runs[t].slot;
            && st'.slots == st.slots[x := st'.slots[x]] && st'.slots[x].waiters == [] && st'.slots[x].inFlight == None
            && st'.mail.Keys == st.mail.Keys + Members(st.slots[x].waiters)
            && st'.runs == st.runs[t := st.runs[t].(phase := Finished)]
            && st' == st.(slots := st'.slots, mail := st'.mail, runs := st'.runs, clock := st'.clock)
  {
  }

  lemma SettleQueues(env: Env, st: State, t: Token)
    requires Inv(env, st) && CompletesCurrent(env, st, t)
    ensures Shape(Take(env, st, Complete(t))) && QueuesOk(Take(env, st, Complete(t)))
  {
    SettleEffect(env, st, t);
    FinishQueues(st, Take(env, st, Complete(t)), t);
  }

  lemma FinishQueues(st: State, st': State, t: Token)
    requires Shape(st) && QueuesOk(st) && t in st.runs && st.runs[t].slot in st.slots
    requires var x := st.runs[t].slot;
             && x in st'.slots && st.slots[x].inFlight == Some(t)
             && st'.slots == st.slots[x := st'.slots[x]] && st'.slots[x].waiters == [] && st'.slots[x].inFlight == None
             && st'.mail.Keys == st.mail.Keys + Members(st.slots[x].waiters)
             && st'.runs == st.runs[t := st.runs[t].(phase := Finished)]
             && st' == st.(slots := st'.slots, mail := st'.mail, runs := st'.runs, clock := st'.clock)
    ensures Shape(st') && QueuesOk(st')
  {
    var x := st.runs[t].slot;
    assert WaitersOk(st, x);
    forall y | y in st'.slots ensures WaitersOk(st', y) {
      assert WaitersOk(st, y);
      forall w | w in st'.slots[y].waiters && w in st.slots[x].waiters ensures y == x {
        assert Awaits(st, x, w) && Awaits(st, y, w);
      }
    }
    forall u | u in st'.runs ensures RunOk(st', u) { assert RunOk(st, u); }
    forall y, z, w | y in st'.slots && z in st'.slots && Awaits(st', y, w) && Awaits(st', z, w) ensures y == z {
      assert Awaits(st, y, w) && Awaits(st, z, w);
    }
  }

  lemma CreateKeeps(env: Env, st: State, step: Step)
    requires Inv(env, st) && Enabled(env, st, step) && (step.NewSource? || step.NewComputed?)
    ensures Inv(env, Take(env, st, step))
  {
    var st' := Take(env, st, step);
    forall y | y in st'.slots ensures SlotOk(env, st', y) && WaitersOk(st', y) {
      if y in st.slots {
        assert SlotOk(env, st, y) && WaitersOk(st, y);
        SlotKept(env, st, st', y);
      }
    }
    forall u | u in st'.runs ensures RunOk(st', u) { assert RunOk(st, u); }
    forall y, z, w | y in st'.slots && z in st'.slots && Awaits(st', y, w) && Awaits(st', z, w) ensures y == z {
      assert Awaits(st, y, w) && Awaits(st, z, w);
    }
  }

  /** Every enabled step keeps the invariant. */
  lemma StepKeeps(env: Env, st: State, step: Step)
    requires Inv(env, st) && Enabled(env, st, step)
    ensures Inv(env, Take(env, st, step))
  {
    match step
    case NewSource(id, v) => CreateKeeps(env, st, step);
    case NewComputed(id) => CreateKeeps(env, st, step);
    case Set(id, v) => WriteKeeps(env, st, id, v);
    case Get(x) => if st.slots[x].state != Resolved { JoinKeeps(env, st, x); }
    case CancelGet(x, w) => RemoveWaiterKeeps(env, st, x, w);
    case ReadSource(t) => ReadSourceKeeps(env, st, t);
    case Track(t) => TrackKeeps(env, st, t);
    case Await(t) => AwaitKeeps(env, st, t);
    case Receive(t) => ReceiveKeeps(env, st, t);
    case Abandon(t) => AbandonKeeps(env, st, t);
    case Complete(t) =>
      if st.slots[st.runs[t].slot].inFlight == Some(t) {
        SettleSlots(env, st, t);
        SettleQueues(env, st, t);
      } else {
        StaleCompletionKeeps(env, st, t);
      }
    case BatchBegin => BatchDepthKeeps(env, st, Take(env, st, step));
    case BatchEnd => BatchEndKeeps(env, st);
  }

  /** The invariant holds in every state of every execution. */
  lemma {:induction false} ReachableInv(env: Env, steps: seq<Step>, states: seq<State>, n: nat)
    requires IsExecution(env, steps, states) && n < |states|
    ensures Inv(env, states[n])
  {
    if n > 0 {
      ReachableInv(env, steps, states, n - 1);
      StepKeeps(env, states[n - 1], steps[n - 1]);
    }
  }

  // ---------------------------------------------------------------- cached values

  /** A step that settles no slot: what is settled after it was settled, with the same result, before it. */
  ghost predicate SettlesNothing(st: State, st': State) {
    && (forall y :: y in st'.slots && Settled(st'.slots[y]) ==>
          y in st.slots && SameResult(st.slots[y], st'.slots[y]))
    && (forall d :: d in st.slots ==> d in st'.slots && st'.slots[d].at == st.slots[d].at)
    && st.sources.Keys !! st'.slots.Keys
  }

  ghost predicate SameResult(s: Slot, s': Slot) {
    && s'.state == s.state && s'.value == s.value && s'.trace == s.trace && s'.at == s.at && s'.error == s.error
  }

  lemma CachesKept(env: Env, st: State, st': State)
    requires Inv(env, st) && CachesOk(env, st) && SettlesNothing(st, st')
    ensures CachesOk(env, st')
  {
    forall y | y in st'.slots ensures CacheOk(env, st', y) {
      if Settled(st'.slots[y]) {
        assert CacheOk(env, st, y) && SlotOk(env, st, y);
        forall i | 0 <= i < |st'.slots[y].trace| ensures ReadOlder(env, st', y, i) {
          assert ReadOlder(env, st, y, i) && ReadOk(env, st, y, st.slots[y].trace, i);
        }
      }
    }
  }

  /** A change to one slot that neither settles nor renumbers it. */
  lemma OneSlotSettlesNothing(st: State, st': State, x: Id)
    requires Shape(st) && st'.sources == st.sources && x in st.slots && x in st'.slots
    requires st'.slots == st.slots[x := st'.slots[x]]
    requires st'.slots[x].at == st.slots[x].at
    requires Settled(st'.slots[x]) ==> SameResult(st.slots[x], st'.slots[x])
    ensures SettlesNothing(st, st')
  {
  }

  lemma ConsumeSettlesNothing(st: State, gone: set<Id>)
    requires Shape(st)
    ensures SettlesNothing(st, Consume(st, gone))
  {
  }

  lemma SetSettlesNothing(st: State, a: Id, v: Value)
    requires Shape(st) && a in st.sources
    ensures SettlesNothing(st, Write(st, a, v))
  {
    if st.sources[a] != v && st.batchDepth == 0 {
      var st1 := st.(sources := st.sources[a := v]);
      ConsumeSettlesNothing(st1, {a} + Cone(st1, {a}));
    }
  }

  lemma BatchSettlesNothing(env: Env, st: State)
    requires Shape(st) && st.batchDepth > 0
    ensures SettlesNothing(st, Take(env, st, BatchEnd))
  {
    if st.batchDepth == 1 {
      var st1 := st.(batchDepth := 0, batchQueue := {});
      ConsumeSettlesNothing(st1, st.batchQueue + Cone(st1, st.batchQueue));
    }
  }

  lemma GetSettlesNothing(env: Env, st: State, step: Step)
    requires Inv(env, st) && Enabled(env, st, step) && (step.Get? || step.Await?)
    ensures SettlesNothing(st, Take(env, st, step))
  {
    var x := if step.Get? then step.slot else st.runs[step.run].phase.dep;
    assert SlotOk(env, st, x);
    JoinSettlesNothing(st, x);
    if st.slots[x].state == Resolved {
      assert Take(env, st, step).slots == st.slots && Take(env, st, step).sources == st.sources;
    } else {
      assert Take(env, st, step).slots == Join(st, x).slots && Take(env, st, step).sources == st.sources;
    }
  }

  lemma JoinSettlesNothing(st: State, x: Id)
    requires Shape(st) && x in st.slots && (st.slots[x].inFlight.Some? ==> st.slots[x].state == Computing)
    ensures st.slots[x].state != Resolved ==> SettlesNothing(st, Join(st, x))
  {
    OneSlotSettlesNothing(st, Join(st, x), x);
  }

  lemma RunStepsSettleNothing(env: Env, st: State, step: Step)
    requires Inv(env, st) && Enabled(env, st, step)
    requires step.CancelGet? || step.ReadSource? || step.Track? || step.Receive? || step.Abandon?
    ensures SettlesNothing(st, Take(env, st, step))
  {
    var st' := Take(env, st, step);
    match step
    case CancelGet(x, _) => OneSlotSettlesNothing(st, st', x);
    case ReadSource(t) => OneSlotSettlesNothing(st, st', st.runs[t].slot);
    case Track(t) => OneSlotSettlesNothing(st, st', st.runs[t].slot);
    case Receive(t) => assert RunOk(st, t); OneSlotSettlesNothing(st, st', st.runs[t].slot);
    case Abandon(t) => OneSlotSettlesNothing(st, st', st.runs[t].phase.dep);
  }

  lemma OtherStepsSettleNothing(env: Env, st: State, step: Step)
    requires Inv(env, st) && Enabled(env, st, step) && !(step.Complete? && CompletesCurrent(env, st, step.run))
    ensures SettlesNothing(st, Take(env, st, step))
  {
    if step.Set? {
      SetSettlesNothing(st, step.id, step.value);
    } else if step.BatchEnd? {
      BatchSettlesNothing(env, st);
    } else if step.Get? || step.Await? {
      GetSettlesNothing(env, st, step);
    } else if !(step.NewSource? || step.NewComputed? || step.BatchBegin? || step.Complete?) {
      RunStepsSettleNothing(env, st, step);
    }
  }

  lemma CompleteCaches(env: Env, st: State, t: Token)
    requires Inv(env, st) && CachesOk(env, st) && CompletesCurrent(env, st, t)
    ensures CachesOk(env, Take(env, st, Complete(t)))
  {
    var r := st.runs[t];
    var x := r.slot;
    var st' := Take(env, st, Complete(t));
    assert SlotOk(env, st, x);
    forall y | y in st'.slots ensures CacheOk(env, st', y) {
      assert SlotOk(env, st, y) && CacheOk(env, st, y);
      var trace := st'.slots[y].trace;
      if Settled(st'.slots[y]) {
        forall i | 0 <= i < |trace| ensures ReadOlder(env, st', y, i) {
          assert ReadOk(env, st, y, trace, i);
          var d := env.prog(y, trace[..i]).dep;
          if d in st.slots { assert SlotOk(env, st, d); }
          if y != x { assert ReadOlder(env, st, y, i); }
        }
      }
    }
  }

  lemma StepKeepsCaches(env: Env, st: State, step: Step)
    requires Inv(env, st) && CachesOk(env, st) && Enabled(env, st, step)
    ensures CachesOk(env, Take(env, st, step))
  {
    if step.Complete? && CompletesCurrent(env, st, step.run) {
      CompleteCaches(env, st, step.run);
    } else {
      OtherStepsSettleNothing(env, st, step);
      CachesKept(env, st, Take(env, st, step));
    }
  }

  lemma {:induction false} ReachableCaches(env: Env, steps: seq<Step>, states: seq<State>, n: nat)
    requires IsExecution(env, steps, states) && n < |states|
    ensures CachesOk(env, states[n])
  {
    if n > 0 {
      ReachableInv(env, steps, states, n - 1);
      ReachableCaches(env, steps, states, n - 1);
      StepKeepsCaches(env, states[n - 1], steps[n - 1]);
    }
  }
}
