/**
  SourceMap.Reconcile: the edit list applied op by op to a keyed order, and exactly when that gives the target order.
 */
module ReconcileMap {
  import opened Basics
  import opened Lis
  import opened Reconcile
  import opened ReconcileMoves
  import opened Reconciler
  import opened ReconcileApply

  // ---------------------------------------------------------------- ops on an order

  ghost function OrderAfter<K, V>(order: seq<K>, op: DiffOp<K, V>): seq<K> {
    match op
    case Insert(k, _, _) => if k in order then order else order + [k]
    case Remove(k) => Lifted(order, k)
    case Move(k, to) => MovedTo(order, k, to)
    case Update(k, _) => if k in order then order else order + [k]
  }

  ghost function OrderAll<K, V>(order: seq<K>, ops: seq<DiffOp<K, V>>): seq<K> {
    if ops == [] then order else OrderAfter(OrderAll(order, ops[..|ops| - 1]), ops[|ops| - 1])
  }

  lemma OrderNext<K, V>(order: seq<K>, ops: seq<DiffOp<K, V>>, op: DiffOp<K, V>)
    ensures OrderAll(order, ops + [op]) == OrderAfter(OrderAll(order, ops), op)
  {
    assert (ops + [op])[..|ops|] == ops;
  }

  lemma {:induction false} OrderJoins<K, V>(order: seq<K>, a: seq<DiffOp<K, V>>, b: seq<DiffOp<K, V>>)
    ensures OrderAll(order, a + b) == OrderAll(OrderAll(order, a), b)
    decreases |b|
  {
    if b == [] {
      assert a + b == a;
    } else {
      var before, last := b[..|b| - 1], b[|b| - 1];
      assert a + b == (a + before) + [last] && b == before + [last];
      OrderJoins(order, a, before);
      OrderNext(order, a + before, last);
      OrderNext(OrderAll(order, a), before, last);
    }
  }

  // ---------------------------------------------------------------- removes and updates

  lemma CutMiddle<K>(a: seq<K>, k: K, b: seq<K>)
    requires Distinct(a + [k] + b)
    ensures Lifted(a + [k] + b, k) == a + b
  {
    var s := a + [k] + b;
    assert s[|a|] == k;
    IdxOf(s, |a|);
  }

  ghost function Rest<K, V>(prior: Entries<K, V>, kept: set<K>, n: nat): seq<K>
    requires n <= |prior|
  {
    Unmoved(prior[..n], IndexOf(prior).Keys - kept) + KeysOf(prior[n..])
  }

  /** The removes leave the kept keys, in their order. */
  lemma {:induction false} RemovesLeave<K, V>(prior: Entries<K, V>, kept: set<K>, n: nat)
    requires DistinctKeys(prior) && n <= |prior|
    ensures OrderAll(KeysOf(prior), Removes(prior[..n], kept)) == Rest(prior, kept, n) && Distinct(Rest(prior, kept, n))
    decreases n
  {
    if n == 0 {
      assert prior[..0] == [] && prior[0..] == prior;
      assert Rest(prior, kept, 0) == KeysOf(prior);
    } else {
      RemovesLeave(prior, kept, n - 1);
      RestNext(prior, kept, n);
      var k := prior[n - 1].0;
      assert prior[..n][..n - 1] == prior[..n - 1] && prior[..n][n - 1] == prior[n - 1];
      if k !in kept { OrderNext(KeysOf(prior), Removes(prior[..n - 1], kept), Remove(k)); }
    }
  }

  lemma RestNext<K, V>(prior: Entries<K, V>, kept: set<K>, n: nat)
    requires DistinctKeys(prior) && 0 < n <= |prior| && Distinct(Rest(prior, kept, n - 1))
    ensures Distinct(Rest(prior, kept, n))
    ensures var k := prior[n - 1].0;
            Rest(prior, kept, n) == if k in kept then Rest(prior, kept, n - 1) else Lifted(Rest(prior, kept, n - 1), k)
  {
    var k := prior[n - 1].0;
    var a, b := RestSplits(prior, kept, n);
    if k !in kept {
      CutMiddle(a, k, b);
      LiftedIs(a + [k] + b, k);
    }
  }

  lemma RestSplits<K, V>(prior: Entries<K, V>, kept: set<K>, n: nat) returns (a: seq<K>, b: seq<K>)
    requires DistinctKeys(prior) && 0 < n <= |prior|
    ensures Rest(prior, kept, n - 1) == a + [prior[n - 1].0] + b
    ensures prior[n - 1].0 in kept ==> Rest(prior, kept, n) == a + [prior[n - 1].0] + b
    ensures prior[n - 1].0 !in kept ==> Rest(prior, kept, n) == a + b
  {
    var gone, k := IndexOf(prior).Keys - kept, prior[n - 1].0;
    KeyAt(prior, n - 1);
    a, b := Unmoved(prior[..n - 1], gone), KeysOf(prior[n..]);
    UnmovedNext(prior, gone, n);
    KeysTail(prior, n);
    Regroup(a, k, b);
  }

  lemma Regroup<K>(a: seq<K>, k: K, b: seq<K>)
    ensures a + ([k] + b) == a + [k] + b
  {
  }

  lemma UnmovedNext<K, V>(prior: Entries<K, V>, gone: set<K>, n: nat)
    requires 0 < n <= |prior|
    ensures var k, before := prior[n - 1].0, Unmoved(prior[..n - 1], gone);
            Unmoved(prior[..n], gone) == if k in gone then before else before + [k]
  {
    assert prior[..n][..n - 1] == prior[..n - 1] && prior[..n][n - 1] == prior[n - 1];
  }

  lemma KeysTail<K, V>(prior: Entries<K, V>, n: nat)
    requires 0 < n <= |prior|
    ensures KeysOf(prior[n - 1..]) == [prior[n - 1].0] + KeysOf(prior[n..])
  {
  }

  lemma {:induction false} UpdatesKeepOrder<K, V>(order: seq<K>, ops: seq<DiffOp<K, V>>)
    requires forall op :: op in ops ==> op.Update? && op.key in order
    ensures OrderAll(order, ops) == order
    decreases |ops|
  {
    if ops != [] {
      assert ops[|ops| - 1] in ops && forall op :: op in ops[..|ops| - 1] ==> op in ops;
      UpdatesKeepOrder(order, ops[..|ops| - 1]);
    }
  }

  lemma {:induction false} UpdateKeys<K, V>(pv: map<K, V>, target: Entries<K, V>)
    ensures forall op :: op in Updates(pv, target) ==> op.Update? && op.key in KeysOf(target)
    decreases |target|
  {
    if target != [] {
      var before := target[..|target| - 1];
      UpdateKeys(pv, before);
      forall k | k in KeysOf(before) ensures k in KeysOf(target) {
        var i :| 0 <= i < |before| && before[i].0 == k;
        assert KeysOf(target)[i] == k;
      }
      assert KeysOf(target)[|target| - 1] == target[|target| - 1].0;
    }
  }

  // ---------------------------------------------------------------- the walk over the target

  ghost function PlanOf<K, V>(prior: Entries<K, V>, target: Entries<K, V>, fixed: seq<nat>): Plan<K>
    requires forall i :: 0 <= i < |fixed| ==> fixed[i] < |Common(IndexOf(prior), target)|
  {
    Plan(Unmoved(prior, IndexOf(prior).Keys - ValueOf(target).Keys), KeysOf(target),
         Members(FixedKeys(Common(IndexOf(prior), target), fixed)))
  }

  /** What any increasing choice of fixed keys needs. */
  ghost predicate Chosen<K, V>(prior: Entries<K, V>, target: Entries<K, V>, fixed: seq<nat>) {
    && DistinctKeys(prior) && DistinctKeys(target)
    && (forall i :: 0 <= i < |Common(IndexOf(prior), target)| ==>
          Common(IndexOf(prior), target)[i] in IndexOf(prior))
    && Increasing(PriorIndexes(IndexOf(prior), Common(IndexOf(prior), target)), fixed)
  }

  lemma RisesAhead<K>(index: map<K, nat>, keys: seq<K>, a: K, b: K)
    requires RisesIn(index, keys) && a in keys && b in keys
    ensures a in index && b in index && (Ahead(keys, a, b) <==> index[a] < index[b])
  {
    assert keys[Idx(keys, a)] == a && keys[Idx(keys, b)] == b;
  }

  lemma RisesDistinct<K>(index: map<K, nat>, keys: seq<K>)
    requires RisesIn(index, keys)
    ensures Distinct(keys)
  {
    forall i, j | 0 <= i < j < |keys| ensures keys[i] != keys[j] { assert index[keys[i]] < index[keys[j]]; }
  }

  lemma StartIs<K, V>(prior: Entries<K, V>, target: Entries<K, V>, fixed: seq<nat>)
    requires Chosen(prior, target, fixed)
    ensures var p := PlanOf(prior, target, fixed);
            && Distinct(p.start) && RisesIn(IndexOf(prior), p.start)
            && (forall k :: k in p.start <==> k in IndexOf(prior) && k in IndexOf(target))
  {
    var gone := IndexOf(prior).Keys - ValueOf(target).Keys;
    UnmovedRises(prior, gone);
    RisesDistinct(IndexOf(prior), Unmoved(prior, gone));
    ValueIs(target);
  }

  lemma StartHas<K, V>(prior: Entries<K, V>, target: Entries<K, V>, fixed: seq<nat>, k: K)
    requires Chosen(prior, target, fixed)
    ensures k in PlanOf(prior, target, fixed).start <==> k in IndexOf(prior) && k in IndexOf(target)
  {
    UnmovedRises(prior, IndexOf(prior).Keys - ValueOf(target).Keys);
    ValueIs(target);
  }

  lemma KeysAre<K, V>(target: Entries<K, V>)
    requires DistinctKeys(target)
    ensures Distinct(KeysOf(target)) && forall k :: k in KeysOf(target) <==> k in IndexOf(target)
  {
    IndexIs(target);
    forall k | k in IndexOf(target) ensures k in KeysOf(target) { assert KeysOf(target)[IndexOf(target)[k]] == k; }
  }

  lemma KeyIsListed<K, V>(es: Entries<K, V>, k: K)
    requires DistinctKeys(es) && k in IndexOf(es)
    ensures k in KeysOf(es) && k in Members(KeysOf(es))
  {
    IndexIs(es);
    assert KeysOf(es)[IndexOf(es)[k]] == k;
  }

  lemma PlanIsOk<K, V>(prior: Entries<K, V>, target: Entries<K, V>, fixed: seq<nat>)
    requires Chosen(prior, target, fixed)
    ensures PlanOk(PlanOf(prior, target, fixed))
  {
    var p := PlanOf(prior, target, fixed);
    StartIs(prior, target, fixed);
    KeysAre(target);
    FixedKeepOrder(prior, target, fixed);
    forall k | k in p.start ensures k in Members(p.target) {
      StartHas(prior, target, fixed, k);
      KeyIsListed(target, k);
    }
    forall k | k in p.fixed ensures k in Members(p.start) {
      var f := FixedKeys(Common(IndexOf(prior), target), fixed);
      var i :| 0 <= i < |f| && f[i] == k;
      assert k in IndexOf(prior) && k in IndexOf(target);
      StartHas(prior, target, fixed, k);
    }
    forall i, j | 0 <= i < j < |p.target| && p.target[i] in p.fixed && p.target[j] in p.fixed
      ensures Ahead(p.start, p.target[i], p.target[j])
    {
      FixedRise(prior, target, fixed, i, j);
      RisesAhead(IndexOf(prior), p.start, p.target[i], p.target[j]);
    }
  }

  lemma FixedRise<K, V>(prior: Entries<K, V>, target: Entries<K, V>, fixed: seq<nat>, i: nat, j: nat)
    requires Chosen(prior, target, fixed) && i < j < |target|
    requires var f := FixedKeys(Common(IndexOf(prior), target), fixed);
             KeepsOrder(prior, target, f) && target[i].0 in f && target[j].0 in f
    ensures target[i].0 in IndexOf(prior) && target[j].0 in IndexOf(prior)
    ensures IndexOf(prior)[target[i].0] < IndexOf(prior)[target[j].0]
  {
    var f := FixedKeys(Common(IndexOf(prior), target), fixed);
    var a :| 0 <= a < |f| && f[a] == target[i].0;
    var b :| 0 <= b < |f| && f[b] == target[j].0;
    IndexIs(target);
    assert a != b;

  }

  /** The stable keys of the list are the fixed ones. */
  lemma StableIsFixed<K, V>(prior: Entries<K, V>, target: Entries<K, V>, fixed: seq<nat>, k: K)
    requires Chosen(prior, target, fixed)
    ensures var c := Common(IndexOf(prior), target);
            IsStable(PositionOf(c), Members(fixed), k) <==> k in Members(FixedKeys(c, fixed))
  {
    var c := Common(IndexOf(prior), target);
    CommonIsDistinct(IndexOf(prior), target);
    PositionIs(c);
    if IsStable(PositionOf(c), Members(fixed), k) {
      var i :| 0 <= i < |fixed| && fixed[i] == PositionOf(c)[k];
      assert FixedKeys(c, fixed)[i] == k;
    }
    if k in FixedKeys(c, fixed) {
      var i :| 0 <= i < |fixed| && FixedKeys(c, fixed)[i] == k;
      assert fixed[i] in Members(fixed);
    }
  }

  /** The orders of the walk, one after the other. */
  ghost function Orders<K>(p: Plan<K>, n: nat): (w: seq<seq<K>>)
    requires n <= |p.target|
    ensures |w| == n + 1 && w[0] == p.start && forall i :: 0 <= i < n ==> w[i + 1] == Turn(p, w[i], i)
  {
    if n == 0 then [p.start] else
      var w := Orders(p, n - 1);
      w + [Turn(p, w[n - 1], n - 1)]
  }

  /** The inserts and moves of the list take the turns of the walk. */
  lemma {:induction false} PlacesWalk<K, V>(prior: Entries<K, V>, target: Entries<K, V>, fixed: seq<nat>,
          w: seq<seq<K>>, n: nat)
    requires Chosen(prior, target, fixed) && n <= |target| && Walk(PlanOf(prior, target, fixed), w)
    ensures var pi := IndexOf(prior);
            OrderAll(w[0], Places(pi, PositionOf(Common(pi, target)), Members(fixed), target[..n])) == w[n]
    decreases n
  {
    if n == 0 {
      assert target[..0] == [];
    } else {
      PlacesWalk(prior, target, fixed, w, n - 1);
      PlaceTurns(prior, target, fixed, w, n);
    }
  }

  lemma PlaceTurns<K, V>(prior: Entries<K, V>, target: Entries<K, V>, fixed: seq<nat>, w: seq<seq<K>>, n: nat)
    requires Chosen(prior, target, fixed) && 0 < n <= |target| && Walk(PlanOf(prior, target, fixed), w)
    ensures var pi := IndexOf(prior);
            var ci := PositionOf(Common(pi, target));
            OrderAll(w[0], Places(pi, ci, Members(fixed), target[..n - 1])) == w[n - 1] ==>
            OrderAll(w[0], Places(pi, ci, Members(fixed), target[..n])) == w[n]
  {
    var p, pi := PlanOf(prior, target, fixed), IndexOf(prior);
    var ci := PositionOf(Common(pi, target));
    var before, k := Places(pi, ci, Members(fixed), target[..n - 1]), target[n - 1].0;
    assert target[..n][..n - 1] == target[..n - 1] && target[..n][n - 1] == target[n - 1];
    assert w[n - 1 + 1] == Turn(p, w[n - 1], n - 1);
    KindIs(prior, target, fixed, n - 1);
    AfterShape(p, w, n - 1);
    OrderNext(w[0], before, Insert(k, target[n - 1].1, n - 1));
    OrderNext(w[0], before, Move(k, n - 1));
  }

  lemma KindIs<K, V>(prior: Entries<K, V>, target: Entries<K, V>, fixed: seq<nat>, i: nat)
    requires Chosen(prior, target, fixed) && i < |target|
    ensures var p, pi, k := PlanOf(prior, target, fixed), IndexOf(prior), target[i].0;
            var stable := IsStable(PositionOf(Common(pi, target)), Members(fixed), k);
            && (IsNew(p, i) <==> k !in pi) && (IsFixed(p, i) <==> stable) && (Moves(p, i) <==> k in pi && !stable)
  {
    StartIs(prior, target, fixed);
    IndexIs(target);
    StableIsFixed(prior, target, fixed, target[i].0);
  }

  // ---------------------------------------------------------------- the exact condition

  ghost function MovedKeys<K, V>(ops: seq<DiffOp<K, V>>): set<K> {
    set op | op in ops && op.Move? :: op.key
  }

  /**
    No key that stays follows a new one in the target; and when two keys are moved, everything before the first of them
    in the target is moved too, or stood before the second one in the prior order.
   */
  ghost predicate AppliesWell<K, V>(pi: map<K, nat>, target: Entries<K, V>, moved: set<K>) {
    && (forall s, f :: 0 <= s < f < |target| && target[s].0 !in pi && target[f].0 in pi ==> target[f].0 in moved)
    && (forall s, t, u :: 0 <= s < t < u < |target| && target[t].0 in moved && target[u].0 in moved ==>
          || target[s].0 in moved
          || (target[s].0 in pi && target[u].0 in pi && pi[target[s].0] < pi[target[u].0]))
  }

  lemma MovedAre<K, V>(prior: Entries<K, V>, target: Entries<K, V>, fixed: seq<nat>, i: nat)
    requires Chosen(prior, target, fixed) && i < |target|
    ensures target[i].0 in MovedKeys(DiffOps(prior, target, Members(fixed))) <==>
            Moves(PlanOf(prior, target, fixed), i)
  {
    var pi := IndexOf(prior);
    var ci := PositionOf(Common(pi, target));
    var ops, k := DiffOps(prior, target, Members(fixed)), target[i].0;
    KindIs(prior, target, fixed, i);
    RemovesAre(prior, ValueOf(target).Keys);
    UpdatesAre(ValueOf(prior), target);
    assert target[..|target|] == target;
    PlacesAre(pi, ci, Members(fixed), target, |target|);
    if Moves(PlanOf(prior, target, fixed), i) { assert Move(k, i) in ops; }
    if k in MovedKeys(ops) { var op :| op in ops && op.Move? && op.key == k; }
  }

  lemma WellIsApplied<K, V>(prior: Entries<K, V>, target: Entries<K, V>, fixed: seq<nat>)
    requires Chosen(prior, target, fixed)
    ensures AppliesWell(IndexOf(prior), target, MovedKeys(DiffOps(prior, target, Members(fixed)))) <==>
            WellUpTo(PlanOf(prior, target, fixed), |target|)
  {
    var p, pi := PlanOf(prior, target, fixed), IndexOf(prior);
    var moved := MovedKeys(DiffOps(prior, target, Members(fixed)));
    PlanIsOk(prior, target, fixed);
    forall i | 0 <= i < |target|
      ensures (target[i].0 in moved <==> Moves(p, i)) && (target[i].0 in pi <==> !IsNew(p, i))
      ensures IsFixed(p, i) <==> !IsNew(p, i) && !Moves(p, i)
    {
      MovedAre(prior, target, fixed, i);
      KindIs(prior, target, fixed, i);
    }
    StartIs(prior, target, fixed);
    forall s, u | 0 <= s < |target| && 0 <= u < |target| && !IsNew(p, s) && !IsNew(p, u)
      ensures Ahead(p.start, p.target[s], p.target[u]) <==> pi[target[s].0] < pi[target[u].0]
    {
      RisesAhead(pi, p.start, p.target[s], p.target[u]);
    }
    SameConditions(p, pi, target, moved);
  }

  lemma SameConditions<K, V>(p: Plan<K>, pi: map<K, nat>, target: Entries<K, V>, moved: set<K>)
    requires p.target == KeysOf(target)
    requires forall i :: 0 <= i < |target| ==>
               (target[i].0 in moved <==> Moves(p, i)) && (target[i].0 in pi <==> !IsNew(p, i))
               && (IsFixed(p, i) <==> !IsNew(p, i) && !Moves(p, i))
    requires forall s, u :: 0 <= s < |target| && 0 <= u < |target| && !IsNew(p, s) && !IsNew(p, u) ==>
               (Ahead(p.start, p.target[s], p.target[u]) <==> pi[target[s].0] < pi[target[u].0])
    ensures AppliesWell(pi, target, moved) <==> WellUpTo(p, |target|)
  {
    if AppliesWell(pi, target, moved) {
      forall t | 0 <= t < |target| ensures AppendsWell(p, t) && MovesWell(p, t) {}
    }
    if WellUpTo(p, |target|) {
      forall s, f | 0 <= s < f < |target| && target[s].0 !in pi && target[f].0 in pi ensures target[f].0 in moved {
        assert AppendsWell(p, s);
      }
      forall s, t, u | 0 <= s < t < u < |target| && target[t].0 in moved && target[u].0 in moved
        ensures target[s].0 in moved || (target[s].0 in pi && target[u].0 in pi && pi[target[s].0] < pi[target[u].0])
      {
        assert MovesWell(p, t);
        assert Moves(p, s) || !Moves(p, s);
        assert Moves(p, u);
      }
    }
  }

  /**
    Applying the edit list op by op gives the order of the target if and only if `AppliesWell`, whichever increasing
    keys the list leaves in place.
   */
  lemma OpsReachTarget<K, V>(prior: Entries<K, V>, target: Entries<K, V>, fixed: seq<nat>)
    requires Chosen(prior, target, fixed)
    ensures var ops := DiffOps(prior, target, Members(fixed));
            OrderAll(KeysOf(prior), ops) == KeysOf(target) <==> AppliesWell(IndexOf(prior), target, MovedKeys(ops))
  {
    var p := PlanOf(prior, target, fixed);
    PlanIsOk(prior, target, fixed);
    var w := Orders(p, |p.target|);
    OpsWalk(prior, target, fixed, w);
    WalkReachesTarget(p, w);
    WellIsApplied(prior, target, fixed);
  }

  lemma OpsWalk<K, V>(prior: Entries<K, V>, target: Entries<K, V>, fixed: seq<nat>, w: seq<seq<K>>)
    requires Chosen(prior, target, fixed) && Walk(PlanOf(prior, target, fixed), w)
    ensures OrderAll(KeysOf(prior), DiffOps(prior, target, Members(fixed))) == w[|target|]
  {
    var pi := IndexOf(prior);
    var a := Removes(prior, ValueOf(target).Keys);
    var b := Places(pi, PositionOf(Common(pi, target)), Members(fixed), target);
    var c := Updates(ValueOf(prior), target);
    OrderJoins(KeysOf(prior), a + b, c);
    OrderJoins(KeysOf(prior), a, b);
    RemovesLeave(prior, ValueOf(target).Keys, |prior|);
    assert prior[..|prior|] == prior && prior[|prior|..] == [] && target[..|target|] == target;
    assert KeysOf(prior[|prior|..]) == [];
    assert OrderAll(KeysOf(prior), a) == w[0];
    PlacesWalk(prior, target, fixed, w, |target|);
    AfterShape(PlanOf(prior, target, fixed), w, |target|);
    UpdateKeys(ValueOf(prior), target);
    forall op | op in c ensures op.Update? && op.key in w[|target|] {
      assert op.key in Members(KeysOf(target)[..|target|]);
    }
    UpdatesKeepOrder(w[|target|], c);
  }

  // ---------------------------------------------------------------- targets that are missed

  /** A new key in front of what is there: the map keeps its order, so the new key ends up behind everything. */
  lemma FrontInsertMisses<K, V>(prior: Entries<K, V>, k: K, v: V, fixed: seq<nat>)
    requires DistinctKeys(prior) && prior != [] && k !in IndexOf(prior) && LongestChoice(prior, [(k, v)] + prior, fixed)
    ensures var target := [(k, v)] + prior;
            OrderAll(KeysOf(prior), DiffOps(prior, target, Members(fixed))) != KeysOf(target)
  {
    var target, pi := [(k, v)] + prior, IndexOf(prior);
    FrontKeeps(prior, k, v);
    FewestMoves(prior, target, fixed, KeysOf(prior));
    CommonFits(pi, prior, target);
    NoMoves(DiffOps(prior, target, Members(fixed)));
    assert Chosen(prior, target, fixed);
    OpsReachTarget(prior, target, fixed);
    IndexIs(prior);
    assert target[0].0 !in pi && target[1].0 == prior[0].0;
  }

  lemma FrontKeeps<K, V>(prior: Entries<K, V>, k: K, v: V)
    requires DistinctKeys(prior) && k !in IndexOf(prior)
    ensures var target := [(k, v)] + prior; DistinctKeys(target) && KeepsOrder(prior, target, KeysOf(prior))
  {
    var target, kept := [(k, v)] + prior, KeysOf(prior);
    IndexIs(prior);
    assert DistinctKeys(target);
    forall i | 0 <= i < |kept|
      ensures kept[i] in IndexOf(prior) && IndexOf(prior)[kept[i]] == i
      ensures kept[i] in IndexOf(target) && IndexOf(target)[kept[i]] == i + 1
    {
      KeyAt(prior, i);
      KeyAt(target, i + 1);
    }
  }

  lemma KeyAt<K, V>(es: Entries<K, V>, i: nat)
    requires DistinctKeys(es) && i < |es|
    ensures es[i].0 in IndexOf(es) && IndexOf(es)[es[i].0] == i
  {
    IndexIs(es);
  }

  /** Moves alone can miss the target too: of four keys, the list moves two and lands one of them on the wrong side. */
  lemma MovesMiss<K, V>(prior: Entries<K, V>, fixed: seq<nat>)
    requires DistinctKeys(prior) && |prior| == 4
    requires LongestChoice(prior, [prior[1], prior[3], prior[2], prior[0]], fixed)
    ensures var target := [prior[1], prior[3], prior[2], prior[0]];
            OrderAll(KeysOf(prior), DiffOps(prior, target, Members(fixed))) != KeysOf(target)
  {
    var target, pi := [prior[1], prior[3], prior[2], prior[0]], IndexOf(prior);
    var moved := MovedKeys(DiffOps(prior, target, Members(fixed)));
    assert Chosen(prior, target, fixed);
    FourIndexes(prior, target);
    var t := TwoFixed(prior, target, fixed);
    PositionIs(Common(pi, target));
    forall i | 0 <= i < 4 ensures target[i].0 in moved <==> i !in fixed {
      MovedAre(prior, target, fixed, i);
      KindIs(prior, target, fixed, i);
    }
    OpsReachTarget(prior, target, fixed);
    assert target[t].0 in moved && target[3].0 in moved && target[0].0 !in moved;
    assert pi[target[0].0] == 1 && pi[target[3].0] == 0;
  }

  lemma FourIndexes<K, V>(prior: Entries<K, V>, target: Entries<K, V>)
    requires DistinctKeys(prior) && |prior| == 4 && target == [prior[1], prior[3], prior[2], prior[0]]
    ensures forall i :: 0 <= i < 4 ==> prior[i].0 in IndexOf(prior) && IndexOf(prior)[prior[i].0] == i
    ensures Common(IndexOf(prior), target) == KeysOf(target) && Distinct(KeysOf(target))
  {
    IndexIs(prior);
    var pi := IndexOf(prior);
    CommonPrefix(pi, target, 0);
    CommonPrefix(pi, target, 1);
    CommonPrefix(pi, target, 2);
    CommonPrefix(pi, target, 3);
    assert target[..0] == [] && target[..4] == target;
    assert KeysOf(target) == [prior[1].0, prior[3].0, prior[2].0, prior[0].0];
  }

  /** An increasing choice of three needs three that increase. */
  lemma FirstThree(s: seq<int>, fixed: seq<nat>)
    requires Increasing(s, fixed)
    ensures |fixed| <= 2 || exists i, j, k :: 0 <= i < j < k < |s| && s[i] < s[j] < s[k]
  {
    if |fixed| > 2 { assert fixed[0] < fixed[1] < fixed[2] && s[fixed[0]] < s[fixed[1]] < s[fixed[2]]; }
  }

  /** The longest choices keep the first key and one of the next two. */
  lemma TwoFixed<K, V>(prior: Entries<K, V>, target: Entries<K, V>, fixed: seq<nat>) returns (t: nat)
    requires DistinctKeys(prior) && |prior| == 4 && target == [prior[1], prior[3], prior[2], prior[0]]
    requires LongestChoice(prior, target, fixed) && Common(IndexOf(prior), target) == KeysOf(target)
    requires forall i :: 0 <= i < 4 ==> prior[i].0 in IndexOf(prior) && IndexOf(prior)[prior[i].0] == i
    ensures 1 <= t <= 2 && t !in fixed && 0 in fixed && 3 !in fixed
  {
    var s := PriorIndexes(IndexOf(prior), Common(IndexOf(prior), target));
    assert s == [1, 3, 2, 0];
    assert Increasing(s, [0, 1]);
    assert |fixed| >= 2;
    assert fixed[0] == 0 && (fixed[1] == 1 || fixed[1] == 2);
    FirstThree(s, fixed);
    t := if fixed[1] == 1 then 2 else 1;
    assert fixed == [fixed[0], fixed[1]];
  }

  lemma CommonFits<K, V>(pi: map<K, nat>, prior: Entries<K, V>, target: Entries<K, V>)
    requires DistinctKeys(prior) && DistinctKeys(target) && pi == IndexOf(prior)
    ensures |Common(pi, target)| <= |prior|
  {
    CommonIsPrior(pi, target);
    CommonIsDistinct(pi, target);
    KeysAre(prior);
    var c := Common(pi, target);
    forall k | k in c ensures k in Members(KeysOf(prior)) {
      var i :| 0 <= i < |c| && c[i] == k;
      KeyIsListed(prior, k);
    }
    CountMembers(KeysOf(prior));
    ReconcileApply.Fits(c, Members(KeysOf(prior)));
  }

  lemma {:induction false} NoMoves<K, V>(ops: seq<DiffOp<K, V>>)
    requires MoveCount(ops) == 0
    ensures MovedKeys(ops) == {}
    decreases |ops|
  {
    if ops != [] {
      var before, last := ops[..|ops| - 1], ops[|ops| - 1];
      NoMoves(before);
      assert ops == before + [last];
      assert MovedKeys(ops) == MovedKeys(before) + MovedKeys([last]);
    }
  }

  // ---------------------------------------------------------------- the object

  /** Shifting the part between the two places is taking the key out and putting it in again. */
  lemma Rotates<K>(s: seq<K>, from: nat, to: nat)
    requires from < |s| && to < |s|
    ensures var w := s[..from] + s[from + 1..];
            w[..to] + [s[from]] + w[to..] == if from < to then s[..from] + s[from + 1..to + 1] + [s[from]] + s[to + 1..]
                                             else s[..to] + [s[from]] + s[to..from] + s[from + 1..]
  {
  }

  /** The keys in order with their values. */
  class SourceMap<K(==,!new), V(==)> {
    var order: seq<K>
    var values: map<K, V>

    ghost predicate Valid()
      reads this
    {
      Distinct(order) && Members(order) == values.Keys
    }

    constructor ()
      ensures Valid() && order == [] && values == map[]
    {
      order, values := [], map[];
    }

    /** position. */
    method Position(key: K) returns (i: nat)
      ensures i <= |order| && (i < |order| ==> order[i] == key) && (i == |order| <==> key !in order)
    {
      i := 0;
      while i < |order|
        invariant i <= |order| && key !in order[..i]
      {
        if order[i] == key { return; }
        i := i + 1;
      }
    }

    method Insert(key: K, value: V)
      requires Valid()
      modifies this
      ensures Valid() && values == old(values)[key := value]
      ensures order == if key in old(order) then old(order) else old(order) + [key]
    {
      if key !in values { order := order + [key]; }
      values := values[key := value];
    }

    method Remove(key: K)
      requires Valid()
      modifies this
      ensures Valid() && values == old(values) - {key} && order == Lifted(old(order), key)
    {
      var i := Position(key);
      if i < |order| {
        IdxOf(order, i);
        LiftedIs(order, key);
        order := order[..i] + order[i + 1..];
      }
      values := values - {key};
    }

    /** moveTo with the rotation it does in place. */
    method MoveTo(key: K, index: nat)
      requires Valid()
      modifies this`order
      ensures Valid() && order == MovedTo(old(order), key, index)
    {
      var from := Position(key);
      if from == |order| { return; }
      IdxOf(order, from);
      var to := if index > |order| - 1 then |order| - 1 else index;
      MovedIs(order, key, to);
      Rotates(order, from, to);
      if from < to {
        order := order[..from] + order[from + 1..to + 1] + [key] + order[to + 1..];
      } else {
        order := order[..to] + [key] + order[to..from] + order[from + 1..];
      }
    }

    /** One op of the list. */
    method Apply(op: DiffOp<K, V>)
      requires Valid()
      modifies this
      ensures Valid() && order == OrderAfter(old(order), op) && values == ValueAfter(old(values), op)
    {
      match op
      case Insert(k, v, _) => Insert(k, v);
      case Remove(k) => Remove(k);
      case Move(k, to) => MoveTo(k, to);
      case Update(k, v) => Insert(k, v);
    }

    /** The entries, in order. */
    method Listing() returns (prior: Entries<K, V>)
      requires Valid()
      ensures Lists(prior, order, values)
    {
      prior := [];
      for i := 0 to |order|
        invariant |prior| == i
        invariant forall j :: 0 <= j < i ==> order[j] in values && prior[j] == (order[j], values[order[j]])
      {
        assert order[i] in Members(order);
        prior := prior + [(order[i], values[order[i]])];
      }
    }

    /** The loop over the list. */
    method ApplyAll(list: seq<DiffOp<K, V>>)
      requires Valid()
      modifies this
      ensures Valid() && order == OrderAll(old(order), list) && values == ValuesAfter(old(values), list)
    {
      var i := 0;
      while i < |list|
        invariant 0 <= i <= |list| && Valid()
        invariant order == OrderAll(old(order), list[..i]) && values == ValuesAfter(old(values), list[..i])
      {
        Apply(list[i]);
        AppliedOne(old(order), old(values), list, i);
        i := i + 1;
      }
      assert list[..|list|] == list;
    }

    /** Reconcile: the diff, then op by op. */
    method Reconcile(target: Entries<K, V>) returns (ghost ops: seq<DiffOp<K, V>>)
      requires Valid()
      modifies this
      ensures Valid()
      ensures DistinctKeys(target) ==> Reached(old(order), order, values, target, ops)
    {
      var prior := Listing();
      var list := ReconcileDiff(prior, target);
      ops := list;
      ReconcileIs(prior, order, values, target, list);
      ApplyAll(list);
    }
  }

  lemma AppliedOne<K, V>(order: seq<K>, values: map<K, V>, ops: seq<DiffOp<K, V>>, i: nat)
    requires i < |ops|
    ensures OrderAll(order, ops[..i + 1]) == OrderAfter(OrderAll(order, ops[..i]), ops[i])
    ensures ValuesAfter(values, ops[..i + 1]) == ValueAfter(ValuesAfter(values, ops[..i]), ops[i])
  {
    assert ops[..i + 1][..i] == ops[..i];
  }

  ghost predicate Lists<K, V>(prior: Entries<K, V>, order: seq<K>, values: map<K, V>) {
    && |prior| == |order|
    && forall i :: 0 <= i < |order| ==> order[i] in values && prior[i] == (order[i], values[order[i]])
  }

  lemma ReconcileIs<K(!new), V>(prior: Entries<K, V>, order: seq<K>, values: map<K, V>, target: Entries<K, V>,
          ops: seq<DiffOp<K, V>>)
    requires Distinct(order) && Members(order) == values.Keys && Lists(prior, order, values)
    requires IsDiff(prior, target, ops)
    ensures DistinctKeys(target) ==> Reached(order, OrderAll(order, ops), ValuesAfter(values, ops), target, ops)
  {
    if DistinctKeys(target) { ReconcileReaches(prior, order, values, target, ops); }
  }

  /** The values are those of the target, and so is the order if and only if the list applies well. */
  ghost predicate Reached<K, V>(was: seq<K>, order: seq<K>, values: map<K, V>, target: Entries<K, V>,
          ops: seq<DiffOp<K, V>>) {
    && values == ValueOf(target)
    && (order == KeysOf(target) <==> AppliesWell(PositionOf(was), target, MovedKeys(ops)))
  }

  lemma ReconcileReaches<K(!new), V>(prior: Entries<K, V>, order: seq<K>, values: map<K, V>, target: Entries<K, V>,
          ops: seq<DiffOp<K, V>>)
    requires Distinct(order) && Members(order) == values.Keys && Lists(prior, order, values)
    requires DistinctKeys(target) && IsDiff(prior, target, ops)
    ensures Reached(order, OrderAll(order, ops), ValuesAfter(values, ops), target, ops)
  {
    ListsIs(prior, order, values);
    var fixed :| LongestChoice(prior, target, fixed) && ops == DiffOps(prior, target, Members(fixed));
    assert Chosen(prior, target, fixed);
    OpsReachTarget(prior, target, fixed);
    OpsGiveValues(prior, target, Members(fixed));
  }

  lemma ListsIs<K, V>(prior: Entries<K, V>, order: seq<K>, values: map<K, V>)
    requires Distinct(order) && Members(order) == values.Keys && Lists(prior, order, values)
    ensures DistinctKeys(prior) && KeysOf(prior) == order && ValueOf(prior) == values
    ensures IndexOf(prior) == PositionOf(order)
  {
    assert DistinctKeys(prior);
    SamePositions(prior, order);
    ListsValues(prior, order, values);
  }

  lemma ListsValues<K, V>(prior: Entries<K, V>, order: seq<K>, values: map<K, V>)
    requires DistinctKeys(prior) && Members(order) == values.Keys && Lists(prior, order, values)
    ensures ValueOf(prior) == values
  {
    ValueIs(prior);
    IndexIs(prior);
    forall k | k in values ensures k in ValueOf(prior) && ValueOf(prior)[k] == values[k] {
      assert k in Members(order);
      var i :| 0 <= i < |order| && order[i] == k;
      assert prior[i].0 == k;
    }
    forall k | k in ValueOf(prior) ensures k in values { assert prior[IndexOf(prior)[k]].0 == k; }
    assert ValueOf(prior).Keys == values.Keys;
  }

  lemma {:induction false} SamePositions<K, V>(prior: Entries<K, V>, order: seq<K>)
    requires |prior| == |order| && forall i :: 0 <= i < |order| ==> prior[i].0 == order[i]
    ensures IndexOf(prior) == PositionOf(order)
    decreases |prior|
  {
    if prior != [] { SamePositions(prior[..|prior| - 1], order[..|order| - 1]); }
  }
}
