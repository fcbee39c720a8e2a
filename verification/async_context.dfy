/** The owner loop's commands as they run: maps and records updated in place, propagation as a stack walk. */
module AsyncLoop {
  import opened Basics
  import opened AsyncGraph
  import opened AsyncInvariant
  import opened AsyncSteps

  // ---------------------------------------------------------------- one invalidation at a time

  predicate OwnedBy(st: State, hit: set<Id>, t: Token)
    requires t in st.runs
  {
    var x := st.runs[t].slot;
    x in st.slots && x in hit && st.slots[x].inFlight == Some(t)
  }

  function WaitersOf(st: State, hit: set<Id>): set<WaiterId> {
    set x, w | x in st.slots && x in hit && w in st.slots[x].waiters :: w
  }

  function SlotIn(st: State, hit: set<Id>, x: Id): Slot
    requires x in st.slots
  {
    if x in hit then Invalidated(st.slots[x], 1) else st.slots[x]
  }

  function RunIn(st: State, hit: set<Id>, t: Token): Run
    requires t in st.runs
  {
    if OwnedBy(st, hit, t) then st.runs[t].(cancelled := true) else st.runs[t]
  }

  /** invalidateSlot on every slot of `hit`, once. */
  function InvalidateAll(st: State, hit: set<Id>): State {
    st.(slots := map x | x in st.slots :: SlotIn(st, hit, x),
        runs := map t | t in st.runs :: RunIn(st, hit, t),
        mail := Told(st.mail, WaitersOf(st, hit)))
  }

  /** invalidateSlot with its failInFlight. */
  function InvalidateOne(st: State, x: Id): State
    requires x in st.slots
  {
    var s := st.slots[x];
    st.(slots := st.slots[x := Invalidated(s, 1)],
        runs := if s.inFlight.Some? && s.inFlight.value in st.runs
                then st.runs[s.inFlight.value := st.runs[s.inFlight.value].(cancelled := true)] else st.runs,
        mail := Told(st.mail, Members(s.waiters)))
  }

  /** The token of a slot names a compute of that slot. */
  ghost predicate TokensLinked(st: State) {
    forall x {:trigger st.slots[x]} :: x in st.slots && st.slots[x].inFlight.Some? ==>
      st.slots[x].inFlight.value in st.runs && st.runs[st.slots[x].inFlight.value].slot == x
  }

  lemma InvalidateNone(st: State)
    ensures InvalidateAll(st, {}) == st
  {
    var st' := InvalidateAll(st, {});
    assert st'.slots == st.slots && st'.runs == st.runs;
    assert WaitersOf(st, {}) == {};
    assert st'.mail == st.mail;
  }

  lemma NextRun(st: State, hit: set<Id>, d: Id, t: Token)
    requires TokensLinked(st) && d in st.slots && d !in hit && t in st.runs
    ensures RunIn(st, hit + {d}, t) ==
            if st.slots[d].inFlight == Some(t) then RunIn(st, hit, t).(cancelled := true) else RunIn(st, hit, t)
  {
    assert OwnedBy(st, hit + {d}, t) <==> OwnedBy(st, hit, t) || st.slots[d].inFlight == Some(t);
  }

  lemma NextWaiters(st: State, hit: set<Id>, d: Id)
    requires d in st.slots
    ensures WaitersOf(st, hit + {d}) == WaitersOf(st, hit) + Members(st.slots[d].waiters)
  {
  }

  lemma ToldTwice(mail: map<WaiterId, Reply>, a: set<WaiterId>, b: set<WaiterId>)
    ensures Told(Told(mail, a), b) == Told(mail, a + b)
  {
  }

  /** Invalidating a set slot by slot, in any order. */
  lemma InvalidateNext(st: State, hit: set<Id>, d: Id)
    requires TokensLinked(st) && d in st.slots && d !in hit
    ensures InvalidateOne(InvalidateAll(st, hit), d) == InvalidateAll(st, hit + {d})
  {
    var one := InvalidateOne(InvalidateAll(st, hit), d);
    var all := InvalidateAll(st, hit + {d});
    assert one.slots == all.slots;
    forall t | t in st.runs ensures one.runs[t] == all.runs[t] { NextRun(st, hit, d, t); }
    assert one.runs.Keys == all.runs.Keys;
    assert one.runs == all.runs;
    NextWaiters(st, hit, d);
    ToldTwice(st.mail, WaitersOf(st, hit), Members(st.slots[d].waiters));
  }

  lemma EdgesIntoNext(m: map<Id, set<Id>>, gone: set<Id>, cur: Id, x: Id)
    requires cur !in gone
    ensures EdgesInto(m, gone + {cur}, x) == EdgesInto(m, gone, x) + (if x in Of(m, cur) then {cur} else {})
    ensures |EdgesInto(m, gone + {cur}, x)| == |EdgesInto(m, gone, x)| + (if x in Of(m, cur) then 1 else 0)
  {
    assert EdgesInto(m, gone + {cur}, x) == EdgesInto(m, gone, x) + (if x in Of(m, cur) then {cur} else {});
  }

  lemma SlotAfterNext(st: State, gone: set<Id>, cur: Id, x: Id)
    requires cur !in gone && x in st.slots
    ensures SlotAfter(st, gone + {cur}, x) ==
            if x in Of(st.dependents, cur) then Invalidated(SlotAfter(st, gone, x), 1) else SlotAfter(st, gone, x)
  {
    EdgesIntoNext(st.dependents, gone, cur, x);
  }

  lemma RunAfterNext(st: State, gone: set<Id>, cur: Id, t: Token)
    requires cur !in gone && t in st.runs
    ensures RunAfter(st, gone + {cur}, t) == RunIn(Consume(st, gone), Of(st.dependents, cur), t)
  {
    var x := st.runs[t].slot;
    EdgesIntoNext(st.dependents, gone, cur, x);
  }

  lemma HitNext(st: State, gone: set<Id>, cur: Id, x: Id)
    requires cur !in gone && x in st.slots
    ensures Hit(st.dependents, gone + {cur}, x) <==> Hit(st.dependents, gone, x) || x in Of(st.dependents, cur)
    ensures x in Consume(st, gone).slots && Consume(st, gone).slots[x].waiters == if Hit(st.dependents, gone, x) then []
                                                                                  else st.slots[x].waiters
  {
    EdgesIntoNext(st.dependents, gone, cur, x);
  }

  lemma WaitersNext(st: State, gone: set<Id>, cur: Id)
    requires cur !in gone
    ensures HitWaiters(st, gone + {cur}) == HitWaiters(st, gone) + WaitersOf(Consume(st, gone), Of(st.dependents, cur))
  {
    forall w ensures w in HitWaiters(st, gone + {cur}) <==>
        w in HitWaiters(st, gone) + WaitersOf(Consume(st, gone), Of(st.dependents, cur)) {
      WaiterNext(st, gone, cur, w);
    }
  }

  lemma WaiterNext(st: State, gone: set<Id>, cur: Id, w: WaiterId)
    requires cur !in gone
    ensures w in HitWaiters(st, gone + {cur}) <==>
            w in HitWaiters(st, gone) || w in WaitersOf(Consume(st, gone), Of(st.dependents, cur))
  {
    if w in HitWaiters(st, gone + {cur}) {
      var x :| x in st.slots && Hit(st.dependents, gone + {cur}, x) && w in st.slots[x].waiters;
      HitNext(st, gone, cur, x);
    }
    if w in HitWaiters(st, gone) {
      var x :| x in st.slots && Hit(st.dependents, gone, x) && w in st.slots[x].waiters;
      HitNext(st, gone, cur, x);
    }
    if w in WaitersOf(Consume(st, gone), Of(st.dependents, cur)) {
      var x :| x in st.slots && x in Of(st.dependents, cur) && w in Consume(st, gone).slots[x].waiters;
      HitNext(st, gone, cur, x);
    }
  }

  /** Visiting one more node consumes its out-edges. */
  lemma ConsumeNext(st: State, gone: set<Id>, cur: Id, mid: State)
    requires cur !in gone && mid == Consume(st, gone).(dependents := Consume(st, gone).dependents - {cur})
    ensures InvalidateAll(mid, Of(st.dependents, cur)) == Consume(st, gone + {cur})
  {
    SlotsNext(st, gone, cur, mid);
    RunsNext(st, gone, cur, mid);
    MailNext(st, gone, cur, mid);
    assert InvalidateAll(mid, Of(st.dependents, cur)).dependents == Consume(st, gone + {cur}).dependents;
  }

  lemma SlotsNext(st: State, gone: set<Id>, cur: Id, mid: State)
    requires cur !in gone && mid == Consume(st, gone).(dependents := Consume(st, gone).dependents - {cur})
    ensures InvalidateAll(mid, Of(st.dependents, cur)).slots == Consume(st, gone + {cur}).slots
  {
    var all, next := InvalidateAll(mid, Of(st.dependents, cur)), Consume(st, gone + {cur});
    forall x | x in st.slots ensures all.slots[x] == next.slots[x] { SlotAfterNext(st, gone, cur, x); }
    assert all.slots.Keys == next.slots.Keys;
  }

  lemma RunsNext(st: State, gone: set<Id>, cur: Id, mid: State)
    requires cur !in gone && mid == Consume(st, gone).(dependents := Consume(st, gone).dependents - {cur})
    ensures InvalidateAll(mid, Of(st.dependents, cur)).runs == Consume(st, gone + {cur}).runs
  {
    var all, next := InvalidateAll(mid, Of(st.dependents, cur)), Consume(st, gone + {cur});
    forall t | t in st.runs ensures all.runs[t] == next.runs[t] { RunAfterNext(st, gone, cur, t); }
    assert all.runs.Keys == next.runs.Keys;
  }

  lemma MailNext(st: State, gone: set<Id>, cur: Id, mid: State)
    requires cur !in gone && mid == Consume(st, gone).(dependents := Consume(st, gone).dependents - {cur})
    ensures InvalidateAll(mid, Of(st.dependents, cur)).mail == Consume(st, gone + {cur}).mail
  {
    var m := Of(st.dependents, cur);
    WaitersNext(st, gone, cur);
    assert WaitersOf(mid, m) == WaitersOf(Consume(st, gone), m);
    ToldTwice(st.mail, HitWaiters(st, gone), WaitersOf(mid, m));
  }

  lemma ConsumeNothing(st: State)
    ensures Consume(st, {}) == st
  {
    var st' := Consume(st, {});
    assert st'.slots == st.slots && st'.runs == st.runs && st'.dependents == st.dependents;
    assert HitWaiters(st, {}) == {};
    assert st'.mail == st.mail;
  }

  /** A node without out-edges can be counted as visited. */
  lemma ConsumeLeaf(st: State, gone: set<Id>, cur: Id)
    requires cur !in st.dependents && cur !in gone
    ensures Consume(st, gone + {cur}) == Consume(st, gone)
  {
    var mid := Consume(st, gone);
    assert mid.dependents - {cur} == mid.dependents;
    ConsumeNext(st, gone, cur, mid);
    InvalidateNone(mid);
  }

  /** Consuming in two rounds. */
  lemma {:induction false} ConsumeTwice(st: State, g1: set<Id>, g2: set<Id>)
    ensures Consume(Consume(st, g1), g2) == Consume(st, g1 + g2)
    decreases |g2|
  {
    var mid := Consume(st, g1);
    if g2 == {} {
      ConsumeNothing(mid);
      assert g1 + g2 == g1;
    } else {
      var c :| c in g2;
      var rest := g2 - {c};
      ConsumeTwice(st, g1, rest);
      assert rest + {c} == g2;
      if c in g1 {
        ConsumeLeaf(mid, rest, c);
        assert g1 + g2 == g1 + rest;
      } else {
        var all := Consume(mid, rest);
        var cut := all.(dependents := all.dependents - {c});
        ConsumeNext(mid, rest, c, cut);
        ConsumeNext(st, g1 + rest, c, cut);
        assert g1 + rest + {c} == g1 + g2;
      }
    }
  }

  // ---------------------------------------------------------------- the walk visits exactly the cone

  /** `gone` and `stack` together: rooted, reachable, and closed up to what is still on the stack. */
  ghost predicate WalkOk(st: State, roots: set<Id>, gone: set<Id>, stack: seq<Id>) {
    && (forall r :: r in roots ==> r in gone || r in stack)
    && (forall c, x :: c in gone && x in Of(st.dependents, c) ==> x in gone || x in stack)
    && (forall x :: x in gone || x in stack ==> x in roots || Reaches(st.dependents, roots, x))
  }

  lemma WalkDone(st: State, roots: set<Id>, gone: set<Id>)
    requires WalkOk(st, roots, gone, []) && (forall k :: k in st.dependents ==> st.dependents[k] <= st.slots.Keys)
    ensures Consume(st, gone) == Propagate(st, roots)
  {
    var cone := roots + Cone(st, roots);
    forall x | x in cone ensures x in gone {
      if x !in roots {
        var p :| PathFrom(st.dependents, roots, p, x);
        PathStaysIn(st, gone, p, |p| - 1);
      }
    }
    forall x | x in gone ensures x in cone {
      if x !in roots {
        var p :| PathFrom(st.dependents, roots, p, x);
        assert x in Of(st.dependents, p[|p| - 2]);
      }
    }
    assert gone == cone;
  }

  lemma {:induction false} PathStaysIn(st: State, gone: set<Id>, p: seq<Id>, i: nat)
    requires IsPath(st.dependents, p) && p[0] in gone && i < |p|
    requires forall c, x :: c in gone && x in Of(st.dependents, c) ==> x in gone
    ensures p[i] in gone
  {
    if i > 0 {
      PathStaysIn(st, gone, p, i - 1);
      assert p[(i - 1) + 1] in Of(st.dependents, p[i - 1]);
    }
  }

  lemma ReachFurther(m: map<Id, set<Id>>, roots: set<Id>, c: Id, x: Id)
    requires c in roots || Reaches(m, roots, c)
    requires x in Of(m, c)
    ensures Reaches(m, roots, x)
  {
    if c in roots {
      assert PathFrom(m, roots, [c, x], x);
    } else {
      var p :| PathFrom(m, roots, p, c);
      assert PathFrom(m, roots, p + [x], x);
    }
  }

  /** Propagating queued roots one after the other, in any order, is one propagation from all of them. */
  lemma PropagateTwice(st: State, a: set<Id>, b: set<Id>)
    requires forall k :: k in st.dependents ==> st.dependents[k] <= st.slots.Keys
    ensures Propagate(Propagate(st, a), b) == Propagate(st, a + b)
  {
    var g1 := a + Cone(st, a);
    var mid := Consume(st, g1);
    var g2 := b + Cone(mid, b);
    ConeIsClosed(st, a);
    ConsumeShape(st, g1);
    ConeIsClosed(mid, b);
    ConsumeTwice(st, g1, g2);
    forall x | x in g1 + g2 ensures x in a + b || Reaches(st.dependents, a + b, x) {
      if x in Cone(st, a) {
        var p :| PathFrom(st.dependents, a, p, x);
        assert PathFrom(st.dependents, a + b, p, x);
      } else if x in Cone(mid, b) {
        var p :| PathFrom(mid.dependents, b, p, x);
        PathBefore(st, g1, p);
        assert PathFrom(st.dependents, a + b, p, x);
      }
    }
    assert WalkOk(st, a + b, g1 + g2, []);
    WalkDone(st, a + b, g1 + g2);
  }

  lemma PathBefore(st: State, gone: set<Id>, p: seq<Id>)
    requires IsPath(Consume(st, gone).dependents, p)
    ensures IsPath(st.dependents, p)
  {
    forall i | 0 <= i < |p| - 1 ensures p[i + 1] in Of(st.dependents, p[i]) {
      assert p[i + 1] in Of(Consume(st, gone).dependents, p[i]);
    }
  }

  lemma ConsumeShape(st: State, gone: set<Id>)
    requires forall k :: k in st.dependents ==> st.dependents[k] <= st.slots.Keys
    ensures forall k :: k in Consume(st, gone).dependents ==>
            Consume(st, gone).dependents[k] <= Consume(st, gone).slots.Keys
  {
  }

  lemma ConsumeLinked(st: State, gone: set<Id>)
    requires TokensLinked(st)
    ensures TokensLinked(Consume(st, gone))
  {
  }

  /** The loop-owned state, with the compute goroutines and waiter channels it talks to. */
  class AsyncContext {
    const env: Env
    var sources: map<Id, Value>
    var slots: map<Id, Slot>
    var dependents: map<Id, set<Id>>
    var runs: map<Token, Run>
    var mail: map<WaiterId, Reply>
    var nextToken: Token
    var nextWaiter: WaiterId
    var batchDepth: nat
    var batchQueue: set<Id>
    var clock: nat

    ghost function Model(): State
      reads this
    {
      State(sources, slots, dependents, runs, mail, nextToken, nextWaiter, batchDepth, batchQueue, clock)
    }

    /** What the commands below rely on; every reachable state has it (`InvGraphOk`). */
    ghost predicate Valid()
      reads this
    {
      GraphOk(Model())
    }

    constructor (env: Env)
      ensures Model() == Initial() && this.env == env && Valid()
    {
      this.env := env;
      sources, slots, dependents, runs, mail := map[], map[], map[], map[], map[];
      nextToken, nextWaiter, batchDepth, batchQueue, clock := 0, 0, 0, {}, 0;
    }

    /** invalidateSlot and failInFlight. */
    method InvalidateSlot(x: Id)
      requires x in slots
      modifies this
      ensures Model() == InvalidateOne(old(Model()), x)
    {
      var s := slots[x];
      slots := slots[x := s.(revision := s.revision + 1, state := Computing, inFlight := None, waiters := [])];
      if s.inFlight.Some? && s.inFlight.value in runs {
        runs := runs[s.inFlight.value := runs[s.inFlight.value].(cancelled := true)];
      }
      SupersedeAll(s.waiters);
    }

    method SupersedeAll(ws: seq<WaiterId>)
      modifies this`mail
      ensures mail == Told(old(mail), Members(ws))
    {
      assert Told(mail, Members(ws[..0])) == mail;
      for i := 0 to |ws|
        invariant mail == Told(old(mail), Members(ws[..i]))
      {
        ToldNext(old(mail), ws, i);
        mail := mail[ws[i] := Superseded];
      }
      assert ws[..|ws|] == ws;
    }

    /** propagate: a stack walk that consumes each node's reverse edges as it visits it. */
    method Propagate(dep: Id)
      requires Valid()
      modifies this
      ensures Model() == AsyncGraph.Propagate(old(Model()), {dep})
      ensures Valid()
    {
      ghost var st := Model();
      ghost var gone: set<Id> := {};
      var stack := [dep];
      ConsumeNothing(st);
      while stack != []
        invariant Model() == Consume(st, gone) && WalkOk(st, {dep}, gone, stack)
        decreases |dependents|, |stack|
      {
        var cur := stack[|stack| - 1];
        assert stack == stack[..|stack| - 1] + [cur];
        stack := Visit(cur, stack[..|stack| - 1], st, gone, {dep});
        gone := gone + {cur};
      }
      WalkDone(st, {dep}, gone);
      PropagateGraphOk(st, {dep});
    }

    /** One turn of the walk: nothing for a node without an entry, otherwise consume the entry. */
    method Visit(cur: Id, rest: seq<Id>, ghost st: State, ghost gone: set<Id>, ghost roots: set<Id>)
            returns (stack: seq<Id>)
      requires GraphOk(st) && Model() == Consume(st, gone) && WalkOk(st, roots, gone, rest + [cur])
      modifies this
      ensures Model() == Consume(st, gone + {cur}) && WalkOk(st, roots, gone + {cur}, stack)
      ensures |dependents| < old(|dependents|) || (|dependents| == old(|dependents|) && stack == rest)
    {
      stack := rest;
      if cur in dependents {
        var m := dependents[cur];
        SmallerMap(dependents, cur);
        dependents := dependents - {cur};
        ConsumeLinked(st, gone);
        stack := InvalidateDependents(m, stack);
        ConsumeNext(st, gone, cur, Consume(st, gone).(dependents := Consume(st, gone).dependents - {cur}));
      } else if cur !in gone {
        ConsumeLeaf(st, gone, cur);
      } else {
        assert gone + {cur} == gone;
      }
      WalkOn(st, roots, gone, rest, cur, stack);
    }

    /** Invalidates every slot of `m` and puts it on the stack; the order does not matter. */
    method InvalidateDependents(m: set<Id>, stack: seq<Id>) returns (stack': seq<Id>)
      requires TokensLinked(Model()) && m <= slots.Keys
      modifies this
      ensures Model() == InvalidateAll(old(Model()), m)
      ensures |stack'| == |stack| + |m|
      ensures forall x :: x in stack' <==> x in stack || x in m
    {
      ghost var mid := Model();
      stack' := stack;
      var todo := m;
      ghost var hit: set<Id> := {};
      InvalidateNone(mid);
      while todo != {}
        invariant hit !! todo && hit + todo == m && Model() == InvalidateAll(mid, hit)
        invariant |stack'| == |stack| + |hit|
        invariant forall x :: x in stack' <==> x in stack || x in hit
        decreases |todo|
      {
        var d :| d in todo;
        InvalidateSlot(d);
        InvalidateNext(mid, hit, d);
        stack' := stack' + [d];
        todo := todo - {d};
        hit := hit + {d};
      }
      assert hit == m;
    }

    /** AsyncSource.Set. */
    method Set(a: Id, v: Value)
      requires Valid() && a in sources
      modifies this
      ensures Model() == Write(old(Model()), a, v)
      ensures Valid()
    {
      if sources[a] == v { return; }
      sources := sources[a := v];
      if batchDepth > 0 {
        batchQueue := batchQueue + {a};
        SourcesGraphOk(old(Model()), Model());
      } else {
        SourcesGraphOk(old(Model()), Model());
        Propagate(a);
      }
    }

    method BatchBegin()
      requires Valid()
      modifies this
      ensures Model() == old(Model()).(batchDepth := old(batchDepth) + 1)
      ensures Valid()
    {
      batchDepth := batchDepth + 1;
      SourcesGraphOk(old(Model()), Model());
    }

    /** The outermost batch exit propagates every queued root. */
    method BatchEnd()
      requires Valid() && batchDepth > 0
      modifies this
      ensures Model() == Take(env, old(Model()), Step.BatchEnd)
      ensures Valid()
    {
      batchDepth := batchDepth - 1;
      if batchDepth > 0 {
        SourcesGraphOk(old(Model()), Model());
        return;
      }
      var q := batchQueue;
      batchQueue := {};
      SourcesGraphOk(old(Model()), Model());
      PropagateAll(q);
    }

    /** In no particular order. */
    method PropagateAll(q: set<Id>)
      requires Valid()
      modifies this
      ensures Model() == AsyncGraph.Propagate(old(Model()), q)
      ensures Valid()
    {
      ghost var st := Model();
      ghost var done: set<Id> := {};
      var todo := q;
      NoRoots(st);
      while todo != {}
        invariant done + todo == q && Valid() && Model() == AsyncGraph.Propagate(st, done)
        decreases |todo|
      {
        var dep :| dep in todo;
        PropagateNext(dep, st, done);
        SplitOne(done, todo, dep);
        done := done + {dep};
        todo := todo - {dep};
      }
      assert done == q;
    }

    method PropagateNext(dep: Id, ghost st: State, ghost done: set<Id>)
      requires GraphOk(st) && Valid() && Model() == AsyncGraph.Propagate(st, done)
      modifies this
      ensures Model() == AsyncGraph.Propagate(st, done + {dep}) && Valid()
    {
      Propagate(dep);
      PropagateTwice(st, done, {dep});
    }

    /** spawnCompute. */
    method SpawnCompute(x: Id)
      requires Valid() && x in slots
      modifies this
      ensures Model() == Spawn(old(Model()), x)
      ensures Valid()
    {
      SpawnGraphOk(Model(), x);
      var s := slots[x];
      DropEdges(s.deps, x);
      slots := slots[x := s.(state := Computing, deps := {}, inFlight := Some(nextToken))];
      runs := runs[nextToken := Run(x, [], Idle, false)];
      nextToken := nextToken + 1;
    }

    /** removeDependent for every dependency. */
    method DropEdges(deps: set<Id>, x: Id)
      modifies this`dependents
      ensures dependents == RemoveEdges(old(dependents), deps, x)
    {
      var todo := deps;
      ghost var done: set<Id> := {};
      while todo != {}
        invariant done + todo == deps && done !! todo
        invariant dependents == RemoveEdges(old(dependents), done, x)
        decreases |todo|
      {
        var dep :| dep in todo;
        RemoveEdgesNext(old(dependents), done, x, dep);
        if dep in dependents {
          var m := dependents[dep] - {x};
          dependents := if m == {} then dependents - {dep} else dependents[dep := m];
        }
        SplitOne(done, todo, dep);
        done, todo := done + {dep}, todo - {dep};
      }
      assert done == deps;
    }

    /** The command of GetAsync: a cached value, or a waiter to block on. */
    method GetCommand(x: Id) returns (cached: Option<Value>, waiter: Option<WaiterId>)
      requires Valid() && x in slots
      modifies this
      ensures Model() == if old(slots[x].state) == Resolved then old(Model()) else Join(old(Model()), x)
      ensures Valid()
      ensures cached.Some? <==> old(slots[x].state) == Resolved
      ensures cached.Some? ==> cached == old(slots[x].value) && waiter.None?
      ensures cached.None? ==>
              waiter == Some(old(nextWaiter)) && waiter.value in slots[x].waiters && slots[x].inFlight.Some?
    {
      assert EdgesHeldAt(Model(), x);
      if slots[x].state == Resolved {
        return slots[x].value, None;
      }
      var s := slots[x];
      slots := slots[x := s.(waiters := s.waiters + [nextWaiter])];
      waiter := Some(nextWaiter);
      nextWaiter := nextWaiter + 1;
      QueueGraphOk(old(Model()), Model(), x);
      if s.inFlight.None? {
        SpawnCompute(x);
      }
      cached := None;
    }

    /** removeWaiter: the loop that looks for the waiter and cuts it out. */
    method CancelGet(x: Id, w: WaiterId)
      requires Valid() && x in slots
      modifies this
      ensures Model() == RemoveWaiter(old(Model()), x, w)
      ensures Valid()
    {
      var s := slots[x];
      var i := 0;
      while i < |s.waiters|
        invariant 0 <= i <= |s.waiters| && w !in s.waiters[..i] && Model() == old(Model())
      {
        if s.waiters[i] == w {
          WithoutAt(s.waiters, w, i);
          slots := slots[x := s.(waiters := s.waiters[..i] + s.waiters[i + 1..])];
          QueueGraphOk(old(Model()), Model(), x);
          return;
        }
        i := i + 1;
      }
      WithoutNone(s.waiters, w);
      assert slots[x := s.(waiters := s.waiters)] == slots;
    }

    /** trackDep: afterwards the edge is there in both directions, and no other edge has changed. */
    method TrackDep(x: Id, dep: Id)
      requires Valid() && x in slots
      modifies this
      ensures Model() == AsyncGraph.TrackDep(old(Model()), x, dep)
      ensures Valid() && dep in slots[x].deps && (old(slots[x].inFlight.Some?) ==> Edge(Model(), dep, x))
      ensures forall r: Id, y: Id :: (r, y) != (dep, x) ==> (Edge(Model(), r, y) <==> Edge(old(Model()), r, y))
    {
      TrackGraphOk(Model(), x, dep);
      if dep !in slots[x].deps {
        slots := slots[x := slots[x].(deps := slots[x].deps + {dep})];
        dependents := dependents[dep := (if dep in dependents then dependents[dep] else {}) + {x}];
      }
    }

    /** onComplete: the identity gate, then publication to every waiter. */
    method OnComplete(t: Token)
      requires Valid() && Enabled(env, Model(), Complete(t))
      modifies this
      ensures Model() == Take(env, old(Model()), Complete(t))
      ensures Valid()
    {
      CompleteGraphOk(env, Model(), t);
      Conclude(t);
    }

    method Conclude(t: Token)
      requires Enabled(env, Model(), Complete(t))
      modifies this
      ensures Model() == Take(env, old(Model()), Complete(t))
    {
      var r := runs[t];
      runs := runs[t := r.(phase := Finished)];
      var s := slots[r.slot];
      if s.inFlight == Some(t) {
        match env.prog(r.slot, r.hist)
        case Fail(e) =>
          slots := slots[r.slot := s.(inFlight := None, state := Failed, waiters := [],
                                      trace := r.hist, at := clock, error := e)];
          clock := clock + 1;
          DeliverAll(s.waiters, Err(e));
        case Done(v) =>
          var kept := if s.value.Some? && env.same(r.slot, s.value.value, v) then s.value.value else v;
          slots := slots[r.slot := s.(inFlight := None, state := Resolved, value := Some(kept), waiters := [],
                                      trace := r.hist, at := clock)];
          clock := clock + 1;
          DeliverAll(s.waiters, Ok(kept));
      }
    }

    method DeliverAll(ws: seq<WaiterId>, o: Outcome)
      modifies this`mail
      ensures mail == Deliver(old(mail), ws, o)
    {
      assert Deliver(mail, ws[..0], o) == mail;
      for i := 0 to |ws|
        invariant mail == Deliver(old(mail), ws[..i], o)
      {
        DeliverNext(old(mail), ws, i, o);
        mail := mail[ws[i] := Answer(o)];
      }
      assert ws[..|ws|] == ws;
    }
  }

  /**
    Tokens name computes of their slots, a resolved slot has a value, and reads behind a result have their reverse
    edges.
   */
  ghost predicate GraphOk(st: State) {
    && TokensLinked(st) && TokensOld(st) && EdgesHeld(st)
    && st.sources.Keys !! st.slots.Keys
    && (forall k :: k in st.dependents ==> st.dependents[k] <= st.slots.Keys)
    && (st.batchDepth == 0 ==> st.batchQueue == {})
    && st.batchQueue <= st.sources.Keys
  }

  ghost predicate TokensOld(st: State) {
    forall t :: t in st.runs ==> t < st.nextToken
  }

  ghost predicate EdgesHeld(st: State) {
    forall x {:trigger EdgesHeldAt(st, x)} :: x in st.slots ==> EdgesHeldAt(st, x)
  }

  ghost predicate EdgesHeldAt(st: State, x: Id)
    requires x in st.slots
  {
    var s := st.slots[x];
    && (s.state == Resolved ==> s.value.Some?)
    && (s.inFlight.Some? || Settled(s) ==> EdgesBack(st, x))
  }

  /** Every state of every execution is one the commands accept. */
  lemma InvGraphOk(env: Env, st: State)
    requires Inv(env, st)
    ensures GraphOk(st)
  {
    forall x | x in st.slots ensures EdgesHeldAt(st, x) { assert SlotOk(env, st, x); }
    forall x | x in st.slots && st.slots[x].inFlight.Some?
      ensures st.slots[x].inFlight.value in st.runs && st.runs[st.slots[x].inFlight.value].slot == x
    {
      assert SlotOk(env, st, x);
    }
    forall t | t in st.runs ensures t < st.nextToken { assert RunOk(st, t); }
  }

  lemma ConsumeEdges(st: State, gone: set<Id>)
    requires EdgesHeld(st)
    ensures EdgesHeld(Consume(st, gone))
  {
    var st' := Consume(st, gone);
    forall x | x in st'.slots ensures EdgesHeldAt(st', x) {
      assert EdgesHeldAt(st, x);
      HitMeans(st.dependents, gone, x);
    }
  }

  lemma SpawnEdges(st: State, x: Id)
    requires EdgesHeld(st) && x in st.slots
    ensures EdgesHeld(Spawn(st, x))
  {
    var st' := Spawn(st, x);
    forall y | y in st'.slots ensures EdgesHeldAt(st', y) {
      assert EdgesHeldAt(st, y);
      forall r | r in st'.slots[y].deps && Edge(st, r, y) ensures Edge(st', r, y) {
        RemoveEdgesMeans(st.dependents, st.slots[x].deps, x, r, y);
      }
    }
  }

  lemma SpawnGraphOk(st: State, x: Id)
    requires GraphOk(st) && x in st.slots
    ensures GraphOk(Spawn(st, x))
  {
    var st' := Spawn(st, x);
    SpawnEdges(st, x);
    forall k | k in st'.dependents ensures st'.dependents[k] <= st'.slots.Keys {
      assert st'.dependents[k] <= st.dependents[k];
    }
  }

  /** Both directions of a tracked edge, and no other edge. */
  lemma TrackGraphOk(st: State, x: Id, dep: Id)
    requires GraphOk(st) && x in st.slots
    ensures var st' := AsyncGraph.TrackDep(st, x, dep);
            && GraphOk(st') && dep in st'.slots[x].deps
            && (st.slots[x].inFlight.Some? ==> Edge(st', dep, x))
            && (forall r: Id, y: Id :: (r, y) != (dep, x) ==> (Edge(st', r, y) <==> Edge(st, r, y)))
  {
    var st' := AsyncGraph.TrackDep(st, x, dep);
    assert EdgesHeldAt(st, x);
    forall y | y in st'.slots ensures EdgesHeldAt(st', y) {
      assert EdgesHeldAt(st, y);
      forall r | r in st.slots[y].deps && Edge(st, r, y) ensures Edge(st', r, y) {}
    }
  }

  /** A change to one slot that takes its token away or leaves it, and to the record of one compute. */
  lemma SlotGraphOk(st: State, st': State, x: Id, t: Token)
    requires GraphOk(st) && x in st.slots && x in st'.slots && t in st.runs && t in st'.runs
    requires st' == st.(slots := st'.slots, runs := st'.runs, mail := st'.mail, clock := st'.clock,
             nextWaiter := st'.nextWaiter)
    requires st'.slots == st.slots[x := st'.slots[x]] && st'.runs == st.runs[t := st'.runs[t]]
             && st'.runs[t].slot == st.runs[t].slot
    requires var s, s' := st.slots[x], st'.slots[x];
             && s'.deps == s.deps && (s'.inFlight.Some? ==> s'.inFlight == s.inFlight)
             && (s'.state == Resolved ==> s'.value.Some?) && (Settled(s') ==> Settled(s) || s.inFlight.Some?)
    ensures GraphOk(st')
  {
    forall y | y in st'.slots ensures EdgesHeldAt(st', y) { assert EdgesHeldAt(st, y); }
  }

  lemma CompleteGraphOk(env: Env, st: State, t: Token)
    requires GraphOk(st) && Enabled(env, st, Complete(t))
    ensures GraphOk(Take(env, st, Complete(t)))
  {
    assert EdgesHeldAt(st, st.runs[t].slot);
    SlotGraphOk(st, Take(env, st, Complete(t)), st.runs[t].slot, t);
  }

  lemma SourcesGraphOk(st: State, st': State)
    requires GraphOk(st) && st' == st.(sources := st'.sources, batchDepth := st'.batchDepth,
             batchQueue := st'.batchQueue)
    requires st'.sources.Keys == st.sources.Keys && st'.batchQueue <= st'.sources.Keys
             && (st'.batchDepth == 0 ==> st'.batchQueue == {})
    ensures GraphOk(st')
  {
    forall y | y in st'.slots ensures EdgesHeldAt(st', y) { assert EdgesHeldAt(st, y); }
  }

  lemma QueueGraphOk(st: State, st': State, x: Id)
    requires GraphOk(st) && x in st.slots && x in st'.slots
    requires st' == st.(slots := st.slots[x := st.slots[x].(waiters := st'.slots[x].waiters)],
             nextWaiter := st'.nextWaiter)
    ensures GraphOk(st')
  {
    forall y | y in st'.slots ensures EdgesHeldAt(st', y) { assert EdgesHeldAt(st, y); }
  }

  lemma SplitOne<T>(done: set<T>, todo: set<T>, x: T)
    requires x in todo
    ensures (done + {x}) + (todo - {x}) == done + todo && |todo - {x}| < |todo|
    ensures done !! todo ==> done + {x} !! todo - {x}
  {
    assert (done + {x}) + (todo - {x}) == done + todo;
  }

  lemma {:induction false} WithoutAt<T>(s: seq<T>, w: T, i: nat)
    requires i < |s| && s[i] == w && w !in s[..i]
    ensures Without(s, w) == s[..i] + s[i + 1..]
  {
    if i > 0 {
      assert s[0] in s[..i] && s[1..][..i - 1] == s[..i][1..];
      WithoutAt(s[1..], w, i - 1);
      assert s[1..][..i - 1] + s[1..][i..] == (s[..i] + s[i + 1..])[1..];
      assert s[..i] + s[i + 1..] == [s[0]] + (s[..i] + s[i + 1..])[1..];
    }
  }

  lemma {:induction false} WithoutNone<T>(s: seq<T>, w: T)
    requires w !in s
    ensures Without(s, w) == s
  {
    if s != [] {
      WithoutNone(s[1..], w);
      assert s == [s[0]] + s[1..];
    }
  }

  lemma ToldNext(mail: map<WaiterId, Reply>, ws: seq<WaiterId>, i: nat)
    requires i < |ws|
    ensures Told(mail, Members(ws[..i + 1])) == Told(mail, Members(ws[..i]))[ws[i] := Superseded]
  {
    assert ws[..i + 1] == ws[..i] + [ws[i]];
    assert Members(ws[..i + 1]) == Members(ws[..i]) + {ws[i]};
  }

  lemma DeliverNext(mail: map<WaiterId, Reply>, ws: seq<WaiterId>, i: nat, o: Outcome)
    requires i < |ws|
    ensures Deliver(mail, ws[..i + 1], o) == Deliver(mail, ws[..i], o)[ws[i] := Answer(o)]
  {
    assert ws[..i + 1] == ws[..i] + [ws[i]];
  }

  lemma RemoveEdgesNext(m: map<Id, set<Id>>, done: set<Id>, x: Id, dep: Id)
    requires dep !in done
    ensures var before := RemoveEdges(m, done, x);
            RemoveEdges(m, done + {dep}, x) ==
            if dep !in before then before
            else if before[dep] - {x} == {} then before - {dep}
            else before[dep := before[dep] - {x}]
  {
  }

  lemma SmallerMap<K, W>(m: map<K, W>, k: K)
    requires k in m
    ensures |m - {k}| < |m|
  {
    assert (m - {k}).Keys == m.Keys - {k};
  }

  lemma NoRoots(st: State)
    ensures Propagate(st, {}) == st
  {
    forall x ensures x !in Cone(st, {}) {}
    assert {} + Cone(st, {}) == {};
    ConsumeNothing(st);
  }

  lemma PropagateGraphOk(st: State, roots: set<Id>)
    requires GraphOk(st)
    ensures GraphOk(Propagate(st, roots))
  {
    ConsumeShape(st, roots + Cone(st, roots));
    ConsumeLinked(st, roots + Cone(st, roots));
    ConsumeEdges(st, roots + Cone(st, roots));
  }

  lemma WalkOn(st: State, roots: set<Id>, gone: set<Id>, rest: seq<Id>, cur: Id, stack: seq<Id>)
    requires WalkOk(st, roots, gone, rest + [cur])
    requires forall x :: x in stack <==> x in rest || x in Of(st.dependents - gone, cur)
    ensures WalkOk(st, roots, gone + {cur}, stack)
  {
    assert cur in rest + [cur];
    forall x | x in Of(st.dependents, cur) ensures Reaches(st.dependents, roots, x) {
      ReachFurther(st.dependents, roots, cur, x);
    }
    forall c, x | c in gone + {cur} && x in Of(st.dependents, c) ensures x in gone + {cur} || x in stack {
      if c in gone { assert x in gone || x in rest + [cur]; }
    }
  }
}
