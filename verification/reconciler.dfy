/** The whole diff: what its edit list does to the order and to the values. */
module Reconciler {
  import opened Basics
  import opened Lis
  import opened Reconcile
  import opened ReconcileMoves

  // ---------------------------------------------------------------- values

  function ValueAfter<K(==), V>(m: map<K, V>, op: DiffOp<K, V>): map<K, V> {
    match op
    case Insert(k, v, _) => m[k := v]
    case Remove(k) => m - {k}
    case Move(_, _) => m
    case Update(k, v) => m[k := v]
  }

  function ValuesAfter<K(==), V>(m: map<K, V>, ops: seq<DiffOp<K, V>>): map<K, V> {
    if ops == [] then m else ValueAfter(ValuesAfter(m, ops[..|ops| - 1]), ops[|ops| - 1])
  }

  function At<K, V>(m: map<K, V>, k: K): Option<V> {
    if k in m then Some(m[k]) else None
  }

  /** What the ops make of the value of one key. */
  function Effect<K(==), V>(o: Option<V>, ops: seq<DiffOp<K, V>>, k: K): Option<V> {
    if ops == [] then o else EffectOne(Effect(o, ops[..|ops| - 1], k), ops[|ops| - 1], k)
  }

  function EffectOne<K(==), V>(o: Option<V>, op: DiffOp<K, V>, k: K): Option<V> {
    if op.key != k || op.Move? then o else if op.Remove? then None else Some(op.value)
  }

  lemma {:induction false} EffectIs<K, V>(m: map<K, V>, ops: seq<DiffOp<K, V>>, k: K)
    ensures At(ValuesAfter(m, ops), k) == Effect(At(m, k), ops, k)
    decreases |ops|
  {
    if ops != [] { EffectIs(m, ops[..|ops| - 1], k); }
  }

  lemma {:induction false} EffectJoins<K, V>(o: Option<V>, a: seq<DiffOp<K, V>>, b: seq<DiffOp<K, V>>, k: K)
    ensures Effect(o, a + b, k) == Effect(Effect(o, a, k), b, k)
    decreases |b|
  {
    if b == [] {
      assert a + b == a;
    } else {
      assert (a + b)[..|a + b| - 1] == a + b[..|b| - 1];
      EffectJoins(o, a, b[..|b| - 1], k);
    }
  }

  lemma EffectNext<K, V>(o: Option<V>, ops: seq<DiffOp<K, V>>, op: DiffOp<K, V>, k: K)
    ensures Effect(o, ops + [op], k) == EffectOne(Effect(o, ops, k), op, k)
  {
    assert (ops + [op])[..|ops|] == ops;
  }

  lemma {:induction false} RemovesEffect<K, V>(o: Option<V>, prior: Entries<K, V>, kept: set<K>, k: K)
    ensures Effect(o, Removes(prior, kept), k) == if k in ValueOf(prior) && k !in kept then None else o
    decreases |prior|
  {
    if prior != [] {
      var before, last := prior[..|prior| - 1], prior[|prior| - 1];
      RemovesEffect(o, before, kept, k);
      EffectNext(o, Removes(before, kept), Remove(last.0), k);
    }
  }

  /** Inserts bring in the values of the new keys; moves bring in none. */
  lemma {:induction false} PlacesEffect<K, V>(o: Option<V>, pi: map<K, nat>, ci: map<K, nat>, stable: set<nat>,
          target: Entries<K, V>, k: K)
    ensures Effect(o, Places(pi, ci, stable, target), k) == if k !in pi && k in ValueOf(target)
            then At(ValueOf(target), k) else o
    decreases |target|
  {
    if target != [] {
      var before, last := target[..|target| - 1], target[|target| - 1];
      var ops := Places(pi, ci, stable, before);
      PlacesEffect(o, pi, ci, stable, before, k);
      EffectNext(o, ops, Insert(last.0, last.1, |target| - 1), k);
      EffectNext(o, ops, Move(last.0, |target| - 1), k);
    }
  }

  /** Updates bring in the values of the common keys that changed. */
  lemma {:induction false} UpdatesEffect<K, V>(o: Option<V>, pv: map<K, V>, target: Entries<K, V>, k: K)
    requires DistinctKeys(target)
    ensures Effect(o, Updates(pv, target), k) ==
            if k in pv && k in ValueOf(target) && pv[k] != ValueOf(target)[k] then At(ValueOf(target), k) else o
    decreases |target|
  {
    if target != [] {
      var before, last := target[..|target| - 1], target[|target| - 1];
      UpdatesEffect(o, pv, before, k);
      NotAmong(before, last.0, target);
      EffectNext(o, Updates(pv, before), Update(last.0, last.1), k);
    }
  }

  lemma NotAmong<K, V>(before: Entries<K, V>, k: K, target: Entries<K, V>)
    requires target != [] && before == target[..|target| - 1] && k == target[|target| - 1].0 && DistinctKeys(target)
    ensures k !in ValueOf(before)
  {
    ValueIs(before);
    IndexIs(before);
  }

  /** Carrying out the edit list on the prior values gives the values of the target. */
  lemma OpsGiveValues<K, V>(prior: Entries<K, V>, target: Entries<K, V>, stable: set<nat>)
    requires DistinctKeys(prior) && DistinctKeys(target)
    ensures ValuesAfter(ValueOf(prior), DiffOps(prior, target, stable)) == ValueOf(target)
  {
    var m, want, ops := ValueOf(prior), ValueOf(target), DiffOps(prior, target, stable);
    var r := ValuesAfter(m, ops);
    forall k | k in r ensures k in want && r[k] == want[k] { OneValue(prior, target, stable, k); }
    forall k | k in want ensures k in r { OneValue(prior, target, stable, k); }
    assert r.Keys == want.Keys;
  }

  lemma OneValue<K, V>(prior: Entries<K, V>, target: Entries<K, V>, stable: set<nat>, k: K)
    requires DistinctKeys(prior) && DistinctKeys(target)
    ensures At(ValuesAfter(ValueOf(prior), DiffOps(prior, target, stable)), k) == At(ValueOf(target), k)
  {
    var m, want := ValueOf(prior), ValueOf(target);
    var pi := IndexOf(prior);
    var ci := PositionOf(Common(pi, target));
    var removes, places, updates := Removes(prior, want.Keys), Places(pi, ci, stable, target), Updates(m, target);
    EffectIs(m, removes + places + updates, k);
    EffectJoins(At(m, k), removes + places, updates, k);
    EffectJoins(At(m, k), removes, places, k);
    RemovesEffect(At(m, k), prior, want.Keys, k);
    var o := Effect(At(m, k), removes, k);
    PlacesEffect(o, pi, ci, stable, target, k);
    UpdatesEffect(Effect(o, places, k), m, target, k);
    ValueIs(prior);
  }

  // ---------------------------------------------------------------- the method

  /** The common keys that are not moved are as many as can keep their relative order. */
  ghost predicate MovesFewest<K(!new), V>(prior: Entries<K, V>, target: Entries<K, V>, ops: seq<DiffOp<K, V>>) {
    && (forall kept {:trigger KeepsOrder(prior, target, kept)} :: KeepsOrder(prior, target, kept) ==>
          MoveCount(ops) + |kept| <= |Common(IndexOf(prior), target)|)
    && (exists kept {:trigger KeepsOrder(prior, target, kept)} :: KeepsOrder(prior, target, kept)
          && MoveCount(ops) + |kept| == |Common(IndexOf(prior), target)|)
  }

  lemma LongestMovesFewest<K(!new), V>(prior: Entries<K, V>, target: Entries<K, V>, fixed: seq<nat>)
    requires DistinctKeys(prior) && DistinctKeys(target)
    requires forall i :: 0 <= i < |Common(IndexOf(prior), target)| ==>
             Common(IndexOf(prior), target)[i] in IndexOf(prior)
    requires IsLongest(PriorIndexes(IndexOf(prior), Common(IndexOf(prior), target)), fixed)
    ensures MovesFewest(prior, target, DiffOps(prior, target, Members(fixed)))
  {
    FixedKeepOrder(prior, target, fixed);
    FewestMoves(prior, target, fixed, FixedKeys(Common(IndexOf(prior), target), fixed));
    forall kept | KeepsOrder(prior, target, kept)
      ensures MoveCount(DiffOps(prior, target, Members(fixed))) + |kept| <= |Common(IndexOf(prior), target)|
    {
      FewestMoves(prior, target, fixed, kept);
    }
  }

  /** The list is the diff for a longest choice of common keys that keep their order. */
  ghost predicate IsDiff<K, V>(prior: Entries<K, V>, target: Entries<K, V>, ops: seq<DiffOp<K, V>>) {
    exists fixed {:trigger LongestChoice(prior, target, fixed)} ::
      LongestChoice(prior, target, fixed) && ops == DiffOps(prior, target, Members(fixed))
  }

  ghost predicate LongestChoice<K, V>(prior: Entries<K, V>, target: Entries<K, V>, fixed: seq<nat>) {
    && (forall i :: 0 <= i < |Common(IndexOf(prior), target)| ==>
          Common(IndexOf(prior), target)[i] in IndexOf(prior))
    && IsLongest(PriorIndexes(IndexOf(prior), Common(IndexOf(prior), target)), fixed)
  }

  /** ReconcileDiff: the edit list leads to the order and the values of the target with the fewest moves. */
  method ReconcileDiff<K(==,!new), V(==)>(prior: Entries<K, V>, target: Entries<K, V>) returns (ops: seq<DiffOp<K, V>>)
    ensures IsDiff(prior, target, ops)
    ensures DistinctKeys(prior) && DistinctKeys(target) ==>
              && Rebuilt(ops, Unmoved(prior, Gone(ops)), |target|).0 == KeysOf(target)
              && ValuesAfter(ValueOf(prior), ops) == ValueOf(target)
              && MovesFewest(prior, target, ops)
  {
    var pi: map<K, nat>, pv: map<K, V> := map[], map[];
    for i := 0 to |prior|
      invariant pi == IndexOf(prior[..i]) && pv == ValueOf(prior[..i])
    {
      assert prior[..i + 1][..i] == prior[..i];
      pi, pv := pi[prior[i].0 := i], pv[prior[i].0 := prior[i].1];
    }
    assert prior[..|prior|] == prior;
    var tv := BuildValues(target);
    ops := BuildRemoves(prior, tv.Keys);
    var common, ci, indexes := BuildCommon(pi, target);
    CommonIsPrior(pi, target);
    assert indexes == PriorIndexes(pi, common);
    var stable := Longest(indexes);
    var places := BuildPlaces(pi, ci, Members(stable), target);
    var updates := BuildUpdates(pv, target);
    ops := ops + places + updates;
    assert LongestChoice(prior, target, stable) && ops == DiffOps(prior, target, Members(stable));
    if DistinctKeys(prior) && DistinctKeys(target) {
      OpsGiveTarget(prior, target, stable);
      OpsGiveValues(prior, target, Members(stable));
      LongestMovesFewest(prior, target, stable);
    }
  }
}
