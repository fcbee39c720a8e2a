/** A settled slot holds exactly what its compute gives on the current source values. */
module AsyncFreshness {
  import opened AsyncGraph
  import opened AsyncInvariant
  import opened AsyncSteps

  // ---------------------------------------------------------------- evaluation from scratch

  /** A from-scratch evaluation: what one compute read, and the evaluations of the slots among its reads. */
  datatype Deriv = Deriv(hist: seq<Outcome>, subs: seq<Deriv>)

  /** What a compute ends with once it has read `hist`. */
  ghost predicate EndsWith(env: Env, x: Id, hist: seq<Outcome>, o: Outcome) {
    match o
    case Ok(v) => env.prog(x, hist) == Done(v)
    case Err(e) => env.prog(x, hist) == Fail(e)
  }

  /** `d` shows that the compute of `x`, run from scratch over `sources`, ends with the value or the error `o`. */
  ghost predicate Proves(env: Env, sources: map<Id, Value>, x: Id, o: Outcome, d: Deriv)
    decreases d
  {
    && |d.subs| == |d.hist| && EndsWith(env, x, d.hist, o)
    && forall i :: 0 <= i < |d.hist| ==>
         var a := env.prog(x, d.hist[..i]);
         && a.Read?
         && (a.dep in sources ==> d.hist[i] == Ok(sources[a.dep]))
         && (a.dep !in sources ==> Proves(env, sources, a.dep, d.hist[i], d.subs[i]))
  }

  ghost predicate Gives(env: Env, sources: map<Id, Value>, x: Id, o: Outcome) {
    exists d :: Proves(env, sources, x, o, d)
  }

  /** Two evaluations of the same slot read the same outcomes in the same order. */
  lemma {:induction false} SameReads(env: Env, sources: map<Id, Value>, x: Id,
                                     o: Outcome, d: Deriv, p: Outcome, e: Deriv, n: nat)
    requires Proves(env, sources, x, o, d) && Proves(env, sources, x, p, e)
    requires n <= |d.hist|
    ensures n <= |e.hist| && d.hist[..n] == e.hist[..n]
    decreases d, n
  {
    if n > 0 {
      var i := n - 1;
      SameReads(env, sources, x, o, d, p, e, i);
      var a := env.prog(x, d.hist[..i]);
      assert e.hist[..|e.hist|] == e.hist;
      if a.dep !in sources {
        var sub := d.subs[i];
        GivesOneOutcome(env, sources, a.dep, d.hist[i], sub, e.hist[i], e.subs[i]);
      }
      assert d.hist[..n] == d.hist[..i] + [d.hist[i]] && e.hist[..n] == e.hist[..i] + [e.hist[i]];
    }
  }

  /** From-scratch evaluation is a partial function of the source values. */
  lemma {:induction false} GivesOneOutcome(env: Env, sources: map<Id, Value>, x: Id,
                                           o: Outcome, d: Deriv, p: Outcome, e: Deriv)
    requires Proves(env, sources, x, o, d) && Proves(env, sources, x, p, e)
    ensures o == p
    decreases d, |d.hist| + 1
  {
    SameReads(env, sources, x, o, d, p, e, |d.hist|);
    assert d.hist[..|d.hist|] == d.hist;
    assert e.hist[..|d.hist|] == d.hist;
    assert e.hist == d.hist;
  }

  // ---------------------------------------------------------------- the evaluation in the caches

  /** The value or the error a settled slot holds. */
  ghost function Result(s: Slot): Outcome
    requires Settled(s) && (s.state == Resolved ==> s.value.Some?)
  {
    if s.state == Resolved then Ok(s.value.value) else Err(s.error)
  }

  /** Error number `i` behind slot `x` is still the error of the slot it came from. */
  ghost predicate ErrorStands(env: Env, st: State, x: Id, hist: seq<Outcome>, i: nat, before: nat)
    requires i < |hist| && hist[i].Err?
  {
    var a := env.prog(x, hist[..i]);
    && a.Read? && a.dep in st.slots
    && st.slots[a.dep].state == Failed && st.slots[a.dep].error == hist[i].code && st.slots[a.dep].at < before
  }

  /** The settled slots of `c` rest on sources and on one another, and the errors they have read still stand. */
  ghost predicate Standing(env: Env, st: State, c: set<Id>) {
    forall x {:trigger StandsOn(env, st, c, x)} :: x in c ==> StandsOn(env, st, c, x)
  }

  ghost predicate StandsOn(env: Env, st: State, c: set<Id>, x: Id) {
    && x in st.slots && Settled(st.slots[x])
    && forall i {:trigger ReadStands(env, st, c, x, i)} :: 0 <= i < |st.slots[x].trace| ==> ReadStands(env, st, c, x, i)
  }

  ghost predicate ReadStands(env: Env, st: State, c: set<Id>, x: Id, i: nat)
    requires x in st.slots && i < |st.slots[x].trace|
  {
    var s := st.slots[x];
    var a := env.prog(x, s.trace[..i]);
    && a.Read? && (a.dep in st.sources || a.dep in c)
    && (s.trace[i].Err? ==> ErrorStands(env, st, x, s.trace, i, s.at))
  }

  /** One recorded read is what the node it came from gives. */
  lemma RecordedRead(env: Env, st: State, c: set<Id>, x: Id, i: nat)
    requires Inv(env, st) && CachesOk(env, st) && st.batchDepth == 0 && Standing(env, st, c) && x in c
    requires x in st.slots && i < |st.slots[x].trace|
    ensures var s := st.slots[x];
            var a := env.prog(x, s.trace[..i]);
            && a.Read?
            && (a.dep in st.sources ==> s.trace[i] == Ok(st.sources[a.dep]))
            && (a.dep !in st.sources ==>
                  && a.dep in c && a.dep in st.slots && Settled(st.slots[a.dep]) && st.slots[a.dep].at < s.at
                  && (st.slots[a.dep].state == Resolved ==> st.slots[a.dep].value.Some?)
                  && s.trace[i] == Result(st.slots[a.dep]))
  {
    var s := st.slots[x];
    assert StandsOn(env, st, c, x) && SlotOk(env, st, x) && CacheOk(env, st, x);
    assert ReadOk(env, st, x, s.trace, i) && ReadStands(env, st, c, x, i) && ReadOlder(env, st, x, i);
    var d := env.prog(x, s.trace[..i]).dep;
    if d !in st.sources { assert StandsOn(env, st, c, d) && SlotOk(env, st, d); }
  }

  /** The evaluation recorded in the traces of a standing set. */
  lemma {:induction false} CachedEvaluation(env: Env, st: State, c: set<Id>, x: Id) returns (d: Deriv)
    requires Inv(env, st) && CachesOk(env, st) && st.batchDepth == 0
    requires Standing(env, st, c) && x in c && forall y :: y in c ==> GuardExact(env, y)
    ensures x in st.slots && Settled(st.slots[x]) && (st.slots[x].state == Resolved ==> st.slots[x].value.Some?)
    ensures Proves(env, st.sources, x, Result(st.slots[x]), d)
    decreases if x in st.slots then st.slots[x].at else 0
  {
    assert StandsOn(env, st, c, x) && SlotOk(env, st, x) && CacheOk(env, st, x);
    var trace := st.slots[x].trace;
    var subs: seq<Deriv> := [];
    while |subs| < |trace|
      invariant |subs| <= |trace|
      invariant forall i :: 0 <= i < |subs| ==> SubProves(env, st.sources, x, trace, i, subs[i])
    {
      RecordedRead(env, st, c, x, |subs|);
      var dep := env.prog(x, trace[..|subs|]).dep;
      var sub := Deriv([], []);
      if dep !in st.sources { sub := CachedEvaluation(env, st, c, dep); }
      subs := subs + [sub];
    }
    d := Deriv(trace, subs);
    forall i | 0 <= i < |d.hist|
      ensures var a := env.prog(x, d.hist[..i]);
              && a.Read? && (a.dep in st.sources ==> d.hist[i] == Ok(st.sources[a.dep]))
              && (a.dep !in st.sources ==> Proves(env, st.sources, a.dep, d.hist[i], d.subs[i]))
    {
      assert SubProves(env, st.sources, x, trace, i, d.subs[i]);
    }
  }

  /** Read `i` of an evaluation. */
  ghost predicate SubProves(env: Env, sources: map<Id, Value>, x: Id, hist: seq<Outcome>, i: nat, sub: Deriv)
    requires i < |hist|
  {
    var a := env.prog(x, hist[..i]);
    && a.Read?
    && (a.dep in sources ==> hist[i] == Ok(sources[a.dep]))
    && (a.dep !in sources ==> Proves(env, sources, a.dep, hist[i], sub))
  }

  /** `x` holds what its compute gives on the current sources, and that is the only thing it can give. */
  ghost predicate Fresh(env: Env, st: State, x: Id) {
    && x in st.slots && Settled(st.slots[x]) && (st.slots[x].state == Resolved ==> st.slots[x].value.Some?)
    && forall o :: Gives(env, st.sources, x, o) <==> o == Result(st.slots[x])
  }

  lemma StandingIsFresh(env: Env, st: State, c: set<Id>, x: Id)
    requires Inv(env, st) && CachesOk(env, st) && st.batchDepth == 0
    requires Standing(env, st, c) && x in c && forall y :: y in c ==> GuardExact(env, y)
    ensures Fresh(env, st, x)
  {
    var d := CachedEvaluation(env, st, c, x);
    forall o ensures Gives(env, st.sources, x, o) <==> o == Result(st.slots[x]) {
      if Gives(env, st.sources, x, o) {
        var e :| Proves(env, st.sources, x, o, e);
        GivesOneOutcome(env, st.sources, x, o, e, Result(st.slots[x]), d);
      }
    }
  }

  // ---------------------------------------------------------------- theorems

  /**
    Freshness.  In every state of every execution with no batch open, every slot of a standing set, resolved or failed,
    holds what its compute gives when run from scratch on the current sources.  Nothing is asked of the slots outside
    the set, and a compute in it may swallow the errors it reads.
   */
  lemma SettledIsFresh(env: Env, steps: seq<Step>, states: seq<State>, n: nat, c: set<Id>, x: Id)
    requires IsExecution(env, steps, states) && n < |states| && states[n].batchDepth == 0
    requires Standing(env, states[n], c) && x in c && forall y :: y in c ==> GuardExact(env, y)
    ensures Fresh(env, states[n], x)
  {
    ReachableInv(env, steps, states, n);
    ReachableCaches(env, steps, states, n);
    StandingIsFresh(env, states[n], c, x);
  }

  /** The computes of `c` pass errors on and read nothing but sources and one another. */
  ghost predicate PassErrorsOn(env: Env, sources: set<Id>, c: set<Id>) {
    forall y :: y in c ==>
      && GuardExact(env, y) && PassesErrors(env, y)
      && forall hist {:trigger env.prog(y, hist)} :: env.prog(y, hist).Read? ==> env.prog(y, hist).dep in sources + c
  }

  /**
    So a slot is never stale if the computes it can reach pass errors on; what other computes of the graph do with
    theirs does not matter.
   */
  lemma ResolvedIsFresh(env: Env, steps: seq<Step>, states: seq<State>, n: nat, c: set<Id>, x: Id)
    requires IsExecution(env, steps, states) && n < |states| && states[n].batchDepth == 0
    requires PassErrorsOn(env, states[n].sources.Keys, c)
    requires x in c && x in states[n].slots && states[n].slots[x].state == Resolved
    ensures Fresh(env, states[n], x)
  {
    var st := states[n];
    ReachableInv(env, steps, states, n);
    ReachableCaches(env, steps, states, n);
    var good := set y | y in c && y in st.slots && st.slots[y].state == Resolved;
    forall y | y in good ensures StandsOn(env, st, good, y) { NoErrorsRead(env, st, c, good, y); }
    StandingIsFresh(env, st, good, x);
  }

  lemma NoErrorsRead(env: Env, st: State, c: set<Id>, good: set<Id>, y: Id)
    requires Inv(env, st) && CachesOk(env, st) && PassErrorsOn(env, st.sources.Keys, c)
    requires good == set z | z in c && z in st.slots && st.slots[z].state == Resolved
    requires y in good
    ensures StandsOn(env, st, good, y)
  {
    var trace := st.slots[y].trace;
    assert SlotOk(env, st, y) && CacheOk(env, st, y);
    forall i | 0 <= i < |trace| ensures ReadStands(env, st, good, y, i) {
      assert ReadOk(env, st, y, trace, i);
      assert trace[i].Ok?;
    }
  }
}
