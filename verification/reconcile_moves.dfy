/** What an edit list means when keys are distinct: it moves as few keys as possible, and it determines the target. */
module ReconcileMoves {
  import opened Basics
  import opened Lis
  import opened Reconcile

  ghost predicate DistinctKeys<K, V>(es: Entries<K, V>) {
    forall i, j :: 0 <= i < j < |es| ==> es[i].0 != es[j].0
  }

  // ---------------------------------------------------------------- maps of distinct keys

  lemma {:induction false} IndexIs<K, V>(es: Entries<K, V>)
    requires DistinctKeys(es)
    ensures forall i :: 0 <= i < |es| ==> es[i].0 in IndexOf(es) && IndexOf(es)[es[i].0] == i
    ensures forall k :: k in IndexOf(es) ==> IndexOf(es)[k] < |es| && es[IndexOf(es)[k]].0 == k
    decreases |es|
  {
    if es != [] { IndexIs(es[..|es| - 1]); }
  }

  lemma {:induction false} ValueIs<K, V>(es: Entries<K, V>)
    requires DistinctKeys(es)
    ensures forall i :: 0 <= i < |es| ==> es[i].0 in ValueOf(es) && ValueOf(es)[es[i].0] == es[i].1
    ensures ValueOf(es).Keys == IndexOf(es).Keys
    decreases |es|
  {
    if es != [] { ValueIs(es[..|es| - 1]); }
  }

  lemma {:induction false} PositionIs<K>(keys: seq<K>)
    requires Distinct(keys)
    ensures forall i :: 0 <= i < |keys| ==> keys[i] in PositionOf(keys) && PositionOf(keys)[keys[i]] == i
    ensures forall k :: k in PositionOf(keys) ==> PositionOf(keys)[k] < |keys| && keys[PositionOf(keys)[k]] == k
    decreases |keys|
  {
    if keys != [] { PositionIs(keys[..|keys| - 1]); }
  }

  /** The common keys are the shared ones, each once and in target order. */
  lemma {:induction false} CommonIs<K, V>(pi: map<K, nat>, target: Entries<K, V>)
    requires DistinctKeys(target)
    ensures var c := Common(pi, target);
            && (forall k :: k in c <==> k in pi && k in IndexOf(target))
            && (forall p :: 0 <= p < |c| ==> c[p] in IndexOf(target))
            && (forall p, q :: 0 <= p < q < |c| ==> IndexOf(target)[c[p]] < IndexOf(target)[c[q]])
    decreases |target|
  {
    if target != [] {
      var before := target[..|target| - 1];
      CommonIs(pi, before);
      IndexIs(before);
      IndexIs(target);
    }
  }

  lemma CommonIsDistinct<K, V>(pi: map<K, nat>, target: Entries<K, V>)
    requires DistinctKeys(target)
    ensures Distinct(Common(pi, target))
  {
    CommonIs(pi, target);
    var c := Common(pi, target);
    forall p, q | 0 <= p < q < |c| ensures c[p] != c[q] { assert IndexOf(target)[c[p]] < IndexOf(target)[c[q]]; }
  }

  // ---------------------------------------------------------------- the fewest moves

  function MoveCount<K, V>(ops: seq<DiffOp<K, V>>): nat {
    if ops == [] then 0 else MoveCount(ops[..|ops| - 1]) + (if ops[|ops| - 1].Move? then 1 else 0)
  }

  lemma {:induction false} MoveCountJoins<K, V>(a: seq<DiffOp<K, V>>, b: seq<DiffOp<K, V>>)
    ensures MoveCount(a + b) == MoveCount(a) + MoveCount(b)
    decreases |b|
  {
    if b == [] {
      assert a + b == a;
    } else {
      assert (a + b)[..|a + b| - 1] == a + b[..|b| - 1];
      MoveCountJoins(a, b[..|b| - 1]);
    }
  }

  lemma {:induction false} RemovesDoNotMove<K, V>(prior: Entries<K, V>, kept: set<K>)
    ensures MoveCount(Removes(prior, kept)) == 0
    decreases |prior|
  {
    if prior != [] {
      var before := Removes(prior[..|prior| - 1], kept);
      RemovesDoNotMove(prior[..|prior| - 1], kept);
      assert (before + [Remove(prior[|prior| - 1].0)])[..|before|] == before;
    }
  }

  lemma {:induction false} UpdatesDoNotMove<K, V>(pv: map<K, V>, target: Entries<K, V>)
    ensures MoveCount(Updates(pv, target)) == 0
    decreases |target|
  {
    if target != [] {
      var before := Updates(pv, target[..|target| - 1]);
      UpdatesDoNotMove(pv, target[..|target| - 1]);
      var (k, v) := target[|target| - 1];
      assert (before + [Update(k, v)])[..|before|] == before;
    }
  }

  /** The positions below `m` that are not held fixed. */
  function Free(stable: set<nat>, m: nat): set<nat> {
    set p: nat | p < m && p !in stable
  }

  lemma FreeMore(stable: set<nat>, m: nat)
    ensures |Free(stable, m + 1)| == |Free(stable, m)| + (if m in stable then 0 else 1)
  {
    if m in stable {
      assert Free(stable, m + 1) == Free(stable, m);
    } else {
      assert Free(stable, m + 1) == Free(stable, m) + {m};
    }
  }

  lemma {:induction false} FreeCount(stable: set<nat>, m: nat)
    requires forall p :: p in stable ==> p < m
    ensures |Free(stable, m)| == m - |stable|
    decreases m
  {
    if m == 0 {
      assert stable == {};
    } else {
      var less := stable - {m - 1};
      FreeCount(less, m - 1);
      FreeMore(stable, m - 1);
      assert Free(stable, m - 1) == Free(less, m - 1);
      assert m - 1 in stable ==> stable == less + {m - 1};
      assert m - 1 !in stable ==> stable == less;
    }
  }

  lemma CommonPrefix<K, V>(pi: map<K, nat>, target: Entries<K, V>, n: nat)
    requires n < |target|
    ensures Common(pi, target[..n + 1]) == if target[n].0 in pi then Common(pi, target[..n]) + [target[n].0]
                                           else Common(pi, target[..n])
  {
    assert target[..n + 1][..n] == target[..n];
  }

  lemma {:induction false} CommonGrows<K, V>(pi: map<K, nat>, target: Entries<K, V>, n: nat)
    requires n <= |target|
    ensures Common(pi, target[..n]) <= Common(pi, target)
    decreases |target| - n
  {
    if n == |target| {
      assert target[..n] == target;
    } else {
      CommonPrefix(pi, target, n);
      CommonGrows(pi, target, n + 1);
    }
  }

  /** A common key of the target is found at the position it has among the common keys. */
  lemma PositionHere<K, V>(pi: map<K, nat>, target: Entries<K, V>, n: nat)
    requires DistinctKeys(target) && n < |target| && target[n].0 in pi
    ensures var c := Common(pi, target);
            target[n].0 in PositionOf(c) && PositionOf(c)[target[n].0] == |Common(pi, target[..n])| < |c|
  {
    var c := Common(pi, target);
    CommonPrefix(pi, target, n);
    CommonGrows(pi, target, n + 1);
    CommonIsDistinct(pi, target);
    PositionIs(c);
    assert c[|Common(pi, target[..n])|] == target[n].0;
  }

  lemma {:induction false} PlacesMoves<K, V>(pi: map<K, nat>, target: Entries<K, V>, stable: set<nat>, n: nat)
    requires DistinctKeys(target) && n <= |target|
    ensures MoveCount(Places(pi, PositionOf(Common(pi, target)), stable, target[..n]))
            == |Free(stable, |Common(pi, target[..n])|)|
    decreases n
  {
    if n == 0 {
      assert Free(stable, 0) == {};
    } else {
      var ci := PositionOf(Common(pi, target));
      assert target[..n][..n - 1] == target[..n - 1];
      PlacesMoves(pi, target, stable, n - 1);
      CommonPrefix(pi, target, n - 1);
      var before := Places(pi, ci, stable, target[..n - 1]);
      var (k, v) := target[n - 1];
      if k in pi {
        PositionHere(pi, target, n - 1);
        FreeMore(stable, |Common(pi, target[..n - 1])|);
        assert (before + [Move(k, n - 1)])[..|before|] == before;
      } else {
        assert (before + [Insert(k, v, n - 1)])[..|before|] == before;
      }
    }
  }

  lemma {:induction false} MembersCount(idx: seq<nat>)
    requires Distinct(idx)
    ensures |Members(idx)| == |idx|
    decreases |idx|
  {
    if idx != [] {
      var before := idx[..|idx| - 1];
      MembersCount(before);
      assert idx == before + [idx[|idx| - 1]];
      assert Members(idx) == Members(before) + {idx[|idx| - 1]};
    }
  }

  /** The keys of `kept` come in the same order before and after. */
  ghost predicate KeepsOrder<K, V>(prior: Entries<K, V>, target: Entries<K, V>, kept: seq<K>) {
    && (forall i :: 0 <= i < |kept| ==> kept[i] in IndexOf(prior) && kept[i] in IndexOf(target))
    && (forall i, j :: 0 <= i < j < |kept| ==>
          IndexOf(prior)[kept[i]] < IndexOf(prior)[kept[j]] && IndexOf(target)[kept[i]] < IndexOf(target)[kept[j]])
  }

  function Positions<K>(ci: map<K, nat>, kept: seq<K>): (r: seq<nat>)
    requires forall i :: 0 <= i < |kept| ==> kept[i] in ci
    ensures |r| == |kept| && forall i :: 0 <= i < |r| ==> r[i] == ci[kept[i]]
  {
    seq(|kept|, i requires 0 <= i < |kept| => ci[kept[i]])
  }

  /** Keys that keep their order are an increasing subsequence. */
  lemma KeptIsIncreasing<K, V>(prior: Entries<K, V>, target: Entries<K, V>, kept: seq<K>)
    requires DistinctKeys(target) && KeepsOrder(prior, target, kept)
    ensures var pi := IndexOf(prior);
            var c := Common(pi, target);
            && (forall i :: 0 <= i < |c| ==> c[i] in pi) && (forall i :: 0 <= i < |kept| ==> kept[i] in PositionOf(c))
            && Increasing(PriorIndexes(pi, c), Positions(PositionOf(c), kept))
  {
    var pi := IndexOf(prior);
    var c := Common(pi, target);
    var ci := PositionOf(c);
    CommonIsPrior(pi, target);
    CommonIs(pi, target);
    CommonIsDistinct(pi, target);
    PositionIs(c);
    forall i | 0 <= i < |kept| ensures kept[i] in ci && ci[kept[i]] < |c| && c[ci[kept[i]]] == kept[i] {
      assert kept[i] in c;
      var p :| 0 <= p < |c| && c[p] == kept[i];
    }
    var r := Positions(ci, kept);
    forall i, j | 0 <= i < j < |r| ensures r[i] < r[j] {
      assert IndexOf(target)[kept[i]] < IndexOf(target)[kept[j]];
    }
  }

  /**
    The edit list moves every common key but the fixed ones, and no choice of keys that keep their relative order
    leaves fewer to move.
   */
  lemma FewestMoves<K, V>(prior: Entries<K, V>, target: Entries<K, V>, fixed: seq<nat>, kept: seq<K>)
    requires DistinctKeys(prior) && DistinctKeys(target) && KeepsOrder(prior, target, kept)
    requires forall i :: 0 <= i < |Common(IndexOf(prior), target)| ==>
             Common(IndexOf(prior), target)[i] in IndexOf(prior)
    requires IsLongest(PriorIndexes(IndexOf(prior), Common(IndexOf(prior), target)), fixed)
    ensures var moves := MoveCount(DiffOps(prior, target, Members(fixed)));
            && moves == |Common(IndexOf(prior), target)| - |fixed|
            && moves <= |Common(IndexOf(prior), target)| - |kept|
  {
    var pi := IndexOf(prior);
    var c := Common(pi, target);
    var stable := Members(fixed);
    var removes, places, updates := Removes(prior, ValueOf(target).Keys), Places(pi, PositionOf(c), stable, target),
        Updates(ValueOf(prior), target);
    MoveCountJoins(removes + places, updates);
    MoveCountJoins(removes, places);
    RemovesDoNotMove(prior, ValueOf(target).Keys);
    UpdatesDoNotMove(ValueOf(prior), target);
    PlacesMoves(pi, target, stable, |target|);
    assert target[..|target|] == target;
    FreeCount(stable, |c|);
    MembersCount(fixed);
    KeptIsIncreasing(prior, target, kept);
  }

  /** The keys held fixed. */
  function FixedKeys<K>(common: seq<K>, fixed: seq<nat>): (r: seq<K>)
    requires forall i :: 0 <= i < |fixed| ==> fixed[i] < |common|
    ensures |r| == |fixed| && forall i :: 0 <= i < |r| ==> r[i] == common[fixed[i]]
  {
    seq(|fixed|, i requires 0 <= i < |fixed| => common[fixed[i]])
  }

  /** They keep their order. */
  lemma FixedKeepOrder<K, V>(prior: Entries<K, V>, target: Entries<K, V>, fixed: seq<nat>)
    requires DistinctKeys(target)
    requires forall i :: 0 <= i < |Common(IndexOf(prior), target)| ==>
             Common(IndexOf(prior), target)[i] in IndexOf(prior)
    requires Increasing(PriorIndexes(IndexOf(prior), Common(IndexOf(prior), target)), fixed)
    ensures KeepsOrder(prior, target, FixedKeys(Common(IndexOf(prior), target), fixed))
  {
    CommonIs(IndexOf(prior), target);
  }

  // ---------------------------------------------------------------- the target from the prior sequence and the ops

  function Gone<K(==), V(==)>(ops: seq<DiffOp<K, V>>): set<K> {
    set op | op in ops && (op.Remove? || op.Move?) :: op.key
  }

  /** The keys that no op removes or moves, in prior order. */
  function Unmoved<K(==), V>(prior: Entries<K, V>, gone: set<K>): seq<K> {
    if prior == [] then []
    else
      var before := Unmoved(prior[..|prior| - 1], gone);
      if prior[|prior| - 1].0 in gone then before else before + [prior[|prior| - 1].0]
  }

  /** The key an op puts at index `t`. */
  function PutAt<K, V>(ops: seq<DiffOp<K, V>>, t: nat): Option<K> {
    if ops == [] then None
    else
      var op := ops[|ops| - 1];
      if (op.Insert? && op.index == t) || (op.Move? && op.to == t) then Some(op.key) else PutAt(ops[..|ops| - 1], t)
  }

  /** The keys at indexes below `n`: what an op puts there, or the next unmoved key. */
  function Rebuilt<K, V>(ops: seq<DiffOp<K, V>>, unmoved: seq<K>, n: nat): (r: (seq<K>, nat)) {
    if n == 0 then ([], 0)
    else
      var (keys, used) := Rebuilt(ops, unmoved, n - 1);
      match PutAt(ops, n - 1)
      case Some(k) => (keys + [k], used)
      case None => if used < |unmoved| then (keys + [unmoved[used]], used + 1) else (keys, used)
  }

  function KeysOf<K, V>(es: Entries<K, V>): (r: seq<K>)
    ensures |r| == |es| && forall i :: 0 <= i < |r| ==> r[i] == es[i].0
  {
    seq(|es|, i requires 0 <= i < |es| => es[i].0)
  }

  lemma {:induction false} RemovesAre<K, V>(prior: Entries<K, V>, kept: set<K>)
    ensures forall op :: op in Removes(prior, kept) ==> op.Remove? && op.key !in kept
    ensures forall i :: 0 <= i < |prior| && prior[i].0 !in kept ==> Remove(prior[i].0) in Removes(prior, kept)
    decreases |prior|
  {
    if prior != [] { RemovesAre(prior[..|prior| - 1], kept); }
  }

  lemma {:induction false} UpdatesAre<K, V>(pv: map<K, V>, target: Entries<K, V>)
    ensures forall op :: op in Updates(pv, target) ==> op.Update?
    decreases |target|
  {
    if target != [] { UpdatesAre(pv, target[..|target| - 1]); }
  }

  /** What the walk over the target emits for the entries below `n`. */
  lemma {:induction false} PlacesAre<K, V>(pi: map<K, nat>, ci: map<K, nat>, stable: set<nat>, target: Entries<K, V>,
          n: nat)
    requires n <= |target|
    ensures forall op :: op in Places(pi, ci, stable, target[..n]) ==>
              || (op.Insert? && op.index < n && target[op.index].0 == op.key && op.key !in pi)
              || (op.Move? && op.to < n && target[op.to].0 == op.key && op.key in pi && !IsStable(ci, stable, op.key))
    ensures forall t :: 0 <= t < n && target[t].0 in pi && !IsStable(ci, stable, target[t].0) ==>
            Move(target[t].0, t) in Places(pi, ci, stable, target[..n])
    decreases n
  {
    if n > 0 {
      assert target[..n][..n - 1] == target[..n - 1];
      PlacesAre(pi, ci, stable, target, n - 1);
    }
  }

  lemma {:induction false} PutAtNone<K, V>(ops: seq<DiffOp<K, V>>, t: nat)
    requires forall op :: op in ops ==> !(op.Insert? && op.index == t) && !(op.Move? && op.to == t)
    ensures PutAt(ops, t) == None
    decreases |ops|
  {
    if ops != [] { PutAtNone(ops[..|ops| - 1], t); }
  }

  lemma {:induction false} PutAtJoins<K, V>(a: seq<DiffOp<K, V>>, b: seq<DiffOp<K, V>>, t: nat)
    requires forall op :: op in b ==> !(op.Insert? && op.index == t) && !(op.Move? && op.to == t)
    ensures PutAt(a + b, t) == PutAt(a, t)
    decreases |b|
  {
    if b == [] {
      assert a + b == a;
    } else {
      assert (a + b)[..|a + b| - 1] == a + b[..|b| - 1];
      PutAtJoins(a, b[..|b| - 1], t);
    }
  }

  lemma {:induction false} PutAtSkips<K, V>(a: seq<DiffOp<K, V>>, b: seq<DiffOp<K, V>>, t: nat)
    requires forall op :: op in a ==> op.Remove?
    ensures PutAt(a + b, t) == PutAt(b, t)
    decreases |b|
  {
    if b == [] {
      assert a + b == a;
      PutAtNone(a, t);
    } else {
      assert (a + b)[..|a + b| - 1] == a + b[..|b| - 1];
      PutAtSkips(a, b[..|b| - 1], t);
    }
  }

  /** The walk puts a key at an index exactly when the target's key there is new or not held fixed. */
  lemma {:induction false} PutAtIs<K, V>(pi: map<K, nat>, ci: map<K, nat>, stable: set<nat>, target: Entries<K, V>,
          n: nat, t: nat)
    requires t < n <= |target|
    ensures PutAt(Places(pi, ci, stable, target[..n]), t) ==
            if target[t].0 in pi && IsStable(ci, stable, target[t].0) then None else Some(target[t].0)
    decreases n
  {
    assert target[..n][..n - 1] == target[..n - 1];
    var before := Places(pi, ci, stable, target[..n - 1]);
    var (k, v) := target[n - 1];
    assert (before + [Insert(k, v, n - 1)])[..|before|] == before && (before + [Move(k, n - 1)])[..|before|] == before;
    if t < n - 1 {
      PutAtIs(pi, ci, stable, target, n - 1, t);
    } else {
      PlacesAre(pi, ci, stable, target, n - 1);
      PutAtNone(before, t);
    }
  }

  lemma PutAtDiff<K, V>(prior: Entries<K, V>, target: Entries<K, V>, stable: set<nat>, t: nat)
    requires t < |target|
    ensures var pi := IndexOf(prior);
            var ci := PositionOf(Common(pi, target));
            PutAt(DiffOps(prior, target, stable), t) ==
            if target[t].0 in pi && IsStable(ci, stable, target[t].0) then None else Some(target[t].0)
  {
    var pi := IndexOf(prior);
    var ci := PositionOf(Common(pi, target));
    var a, b, c := Removes(prior, ValueOf(target).Keys), Places(pi, ci, stable, target),
        Updates(ValueOf(prior), target);
    UpdatesAre(ValueOf(prior), target);
    RemovesAre(prior, ValueOf(target).Keys);
    PutAtJoins(a + b, c, t);
    PutAtSkips(a, b, t);
    assert target[..|target|] == target;
    PutAtIs(pi, ci, stable, target, |target|, t);
  }

  /** A prior key survives in place exactly when it is held fixed. */
  lemma GoneIs<K, V>(prior: Entries<K, V>, target: Entries<K, V>, stable: set<nat>, i: nat)
    requires DistinctKeys(prior) && DistinctKeys(target) && i < |prior|
    ensures prior[i].0 !in Gone(DiffOps(prior, target, stable)) <==>
            IsStable(PositionOf(Common(IndexOf(prior), target)), stable, prior[i].0)
  {
    var k := prior[i].0;
    var pi := IndexOf(prior);
    var ci := PositionOf(Common(pi, target));
    var a, b, c := Removes(prior, ValueOf(target).Keys), Places(pi, ci, stable, target),
        Updates(ValueOf(prior), target);
    var ops := DiffOps(prior, target, stable);
    RemovesAre(prior, ValueOf(target).Keys);
    UpdatesAre(ValueOf(prior), target);
    PlacesAre(pi, ci, stable, target, |target|);
    assert target[..|target|] == target;
    ValueIs(target);
    IndexIs(prior);
    IndexIs(target);
    CommonIs(pi, target);
    CommonIsDistinct(pi, target);
    PositionIs(Common(pi, target));
    if IsStable(ci, stable, k) {
      assert k in Common(pi, target);
    } else if k in IndexOf(target) {
      assert Move(k, IndexOf(target)[k]) in ops;
    } else {
      assert Remove(k) in ops;
    }
  }

  ghost predicate RisesIn<K>(index: map<K, nat>, keys: seq<K>) {
    && (forall i :: 0 <= i < |keys| ==> keys[i] in index)
    && (forall i, j :: 0 <= i < j < |keys| ==> index[keys[i]] < index[keys[j]])
  }

  lemma {:induction false} RisesUnique<K>(index: map<K, nat>, a: seq<K>, b: seq<K>)
    requires RisesIn(index, a) && RisesIn(index, b) && Members(a) == Members(b)
    ensures a == b
    decreases |a|
  {
    NonEmptyMembers(a);
    NonEmptyMembers(b);
    if a != [] {
      SameHead(index, a, b);
      assert a == [a[0]] + a[1..] && b == [b[0]] + b[1..];
      assert Members(a[1..]) == Members(a) - {a[0]} && Members(b[1..]) == Members(b) - {b[0]};
      RisesUnique(index, a[1..], b[1..]);
    }
  }

  lemma SameHead<K>(index: map<K, nat>, a: seq<K>, b: seq<K>)
    requires RisesIn(index, a) && RisesIn(index, b) && Members(a) == Members(b) && a != [] && b != []
    ensures a[0] == b[0]
  {
    assert a[0] in Members(b) && b[0] in Members(a);
    var i :| 0 <= i < |a| && a[i] == b[0];
    var j :| 0 <= j < |b| && b[j] == a[0];
  }

  lemma {:induction false} UnmovedRises<K, V>(prior: Entries<K, V>, gone: set<K>)
    requires DistinctKeys(prior)
    ensures RisesIn(IndexOf(prior), Unmoved(prior, gone))
    ensures forall k :: k in Unmoved(prior, gone) <==> k in IndexOf(prior) && k !in gone
    decreases |prior|
  {
    if prior != [] {
      UnmovedRises(prior[..|prior| - 1], gone);
      IndexIs(prior[..|prior| - 1]);
      IndexIs(prior);
    }
  }

  /** The ops single out exactly the keys held fixed, in the order they have in both sequences. */
  lemma UnmovedAreFixed<K, V>(prior: Entries<K, V>, target: Entries<K, V>, fixed: seq<nat>)
    requires DistinctKeys(prior) && DistinctKeys(target)
    requires forall i :: 0 <= i < |Common(IndexOf(prior), target)| ==>
             Common(IndexOf(prior), target)[i] in IndexOf(prior)
    requires Increasing(PriorIndexes(IndexOf(prior), Common(IndexOf(prior), target)), fixed)
    ensures Unmoved(prior, Gone(DiffOps(prior, target, Members(fixed))))
            == FixedKeys(Common(IndexOf(prior), target), fixed)
  {
    var pi := IndexOf(prior);
    var c := Common(pi, target);
    var gone := Gone(DiffOps(prior, target, Members(fixed)));
    var a, b := Unmoved(prior, gone), FixedKeys(c, fixed);
    UnmovedRises(prior, gone);
    FixedKeepOrder(prior, target, fixed);
    forall k ensures k in a <==> k in b { SurvivorIsFixed(prior, target, fixed, k); }
    assert Members(a) == Members(b);
    RisesUnique(pi, a, b);
  }

  lemma SurvivorIsFixed<K, V>(prior: Entries<K, V>, target: Entries<K, V>, fixed: seq<nat>, k: K)
    requires DistinctKeys(prior) && DistinctKeys(target)
    requires forall i :: 0 <= i < |fixed| ==> fixed[i] < |Common(IndexOf(prior), target)|
    ensures k in Unmoved(prior, Gone(DiffOps(prior, target, Members(fixed)))) <==>
            k in FixedKeys(Common(IndexOf(prior), target), fixed)
  {
    var pi := IndexOf(prior);
    var c := Common(pi, target);
    IndexIs(prior);
    CommonIs(pi, target);
    CommonIsDistinct(pi, target);
    PositionIs(c);
    UnmovedRises(prior, Gone(DiffOps(prior, target, Members(fixed))));
    if k in pi { GoneIs(prior, target, Members(fixed), pi[k]); }
    if IsStable(PositionOf(c), Members(fixed), k) {
      var i :| 0 <= i < |fixed| && fixed[i] == PositionOf(c)[k];
      assert FixedKeys(c, fixed)[i] == k;
    }
    if k in FixedKeys(c, fixed) {
      var i :| 0 <= i < |fixed| && FixedKeys(c, fixed)[i] == k;
      assert fixed[i] in Members(fixed);
    }
  }

  /** How many of the fixed positions lie below `m`. */
  function UsedBelow(fixed: seq<nat>, m: nat): (u: nat)
    ensures u <= |fixed|
  {
    if fixed == [] then 0 else UsedBelow(fixed[..|fixed| - 1], m) + (if fixed[|fixed| - 1] < m then 1 else 0)
  }

  lemma {:induction false} UsedIs(fixed: seq<nat>, m: nat)
    requires forall i, j :: 0 <= i < j < |fixed| ==> fixed[i] < fixed[j]
    ensures forall i :: 0 <= i < |fixed| ==> (fixed[i] < m <==> i < UsedBelow(fixed, m))
    decreases |fixed|
  {
    if fixed != [] { UsedIs(fixed[..|fixed| - 1], m); }
  }

  lemma {:induction false} UsedNone(fixed: seq<nat>)
    ensures UsedBelow(fixed, 0) == 0
    decreases |fixed|
  {
    if fixed != [] { UsedNone(fixed[..|fixed| - 1]); }
  }

  lemma UsedMore(fixed: seq<nat>, m: nat)
    requires forall i, j :: 0 <= i < j < |fixed| ==> fixed[i] < fixed[j]
    ensures UsedBelow(fixed, m + 1) == UsedBelow(fixed, m) + (if m in fixed then 1 else 0)
    ensures m in fixed ==> UsedBelow(fixed, m) < |fixed| && fixed[UsedBelow(fixed, m)] == m
  {
    UsedIs(fixed, m);
    UsedIs(fixed, m + 1);
    if m in fixed {
      var i :| 0 <= i < |fixed| && fixed[i] == m;
      assert i == UsedBelow(fixed, m);
      assert UsedBelow(fixed, m + 1) > i;
    }
    var u, w := UsedBelow(fixed, m), UsedBelow(fixed, m + 1);
    assert u < |fixed| ==> fixed[u] >= m;
    assert w > 0 ==> fixed[w - 1] < m + 1;
    assert w < |fixed| ==> fixed[w] >= m + 1;
    assert u > 0 ==> fixed[u - 1] < m;
  }

  lemma {:induction false} RebuiltIs<K, V>(prior: Entries<K, V>, target: Entries<K, V>, fixed: seq<nat>, n: nat)
    requires DistinctKeys(prior) && DistinctKeys(target) && n <= |target|
    requires forall i :: 0 <= i < |fixed| ==> fixed[i] < |Common(IndexOf(prior), target)|
    requires forall i, j :: 0 <= i < j < |fixed| ==> fixed[i] < fixed[j]
    ensures RebuiltTo(prior, target, fixed, n)
    decreases n
  {
    if n == 0 {
      UsedNone(fixed);
    } else {
      RebuiltIs(prior, target, fixed, n - 1);
      RebuiltNext(prior, target, fixed, n);
    }
  }

  /** The first `n` places are rebuilt, and the fixed keys among them are used up. */
  ghost predicate RebuiltTo<K, V>(prior: Entries<K, V>, target: Entries<K, V>, fixed: seq<nat>, n: nat)
    requires n <= |target|
    requires forall i :: 0 <= i < |fixed| ==> fixed[i] < |Common(IndexOf(prior), target)|
  {
    var pi := IndexOf(prior);
    Rebuilt(DiffOps(prior, target, Members(fixed)), FixedKeys(Common(pi, target), fixed), n) ==
    (KeysOf(target[..n]), UsedBelow(fixed, |Common(pi, target[..n])|))
  }

  lemma RebuiltNext<K, V>(prior: Entries<K, V>, target: Entries<K, V>, fixed: seq<nat>, n: nat)
    requires DistinctKeys(prior) && DistinctKeys(target) && 0 < n <= |target|
    requires forall i :: 0 <= i < |fixed| ==> fixed[i] < |Common(IndexOf(prior), target)|
    requires forall i, j :: 0 <= i < j < |fixed| ==> fixed[i] < fixed[j]
    requires RebuiltTo(prior, target, fixed, n - 1)
    ensures RebuiltTo(prior, target, fixed, n)
  {
    var pi, k := IndexOf(prior), target[n - 1].0;
    var stable := k in pi && IsStable(PositionOf(Common(pi, target)), Members(fixed), k);
    PutAtDiff(prior, target, Members(fixed), n - 1);
    UsedNext(pi, target, fixed, n, stable);
    KeysNext(target, n);
    RebuiltTurn(DiffOps(prior, target, Members(fixed)), FixedKeys(Common(pi, target), fixed), n,
        KeysOf(target[..n - 1]),
        UsedBelow(fixed, |Common(pi, target[..n - 1])|), k, stable);
  }

  lemma KeysNext<K, V>(target: Entries<K, V>, n: nat)
    requires 0 < n <= |target|
    ensures KeysOf(target[..n]) == KeysOf(target[..n - 1]) + [target[n - 1].0]
  {
  }

  lemma UsedNext<K, V>(pi: map<K, nat>, target: Entries<K, V>, fixed: seq<nat>, n: nat, stable: bool)
    requires DistinctKeys(target) && 0 < n <= |target|
    requires forall i :: 0 <= i < |fixed| ==> fixed[i] < |Common(pi, target)|
    requires forall i, j :: 0 <= i < j < |fixed| ==> fixed[i] < fixed[j]
    requires stable <==> target[n - 1].0 in pi
                         && IsStable(PositionOf(Common(pi, target)), Members(fixed), target[n - 1].0)
    ensures var used := UsedBelow(fixed, |Common(pi, target[..n - 1])|);
            && UsedBelow(fixed, |Common(pi, target[..n])|) == used + (if stable then 1 else 0)
            && (stable ==> used < |fixed| && FixedKeys(Common(pi, target), fixed)[used] == target[n - 1].0)
  {
    CommonPrefix(pi, target, n - 1);
    if target[n - 1].0 in pi { NextFixed(pi, target, fixed, n); }
  }

  lemma RebuiltTurn<K, V>(ops: seq<DiffOp<K, V>>, unmoved: seq<K>, n: nat, keys: seq<K>, used: nat, k: K, stable: bool)
    requires n > 0 && Rebuilt(ops, unmoved, n - 1) == (keys, used)
    requires PutAt(ops, n - 1) == if stable then None else Some(k)
    requires stable ==> used < |unmoved| && unmoved[used] == k
    ensures Rebuilt(ops, unmoved, n) == (keys + [k], used + if stable then 1 else 0)
  {
  }

  /** A common key is fixed exactly when it is the next fixed key. */
  lemma NextFixed<K, V>(pi: map<K, nat>, target: Entries<K, V>, fixed: seq<nat>, n: nat)
    requires DistinctKeys(target) && 0 < n <= |target| && target[n - 1].0 in pi
    requires forall i :: 0 <= i < |fixed| ==> fixed[i] < |Common(pi, target)|
    requires forall i, j :: 0 <= i < j < |fixed| ==> fixed[i] < fixed[j]
    ensures var k, m, common := target[n - 1].0, |Common(pi, target[..n - 1])|, Common(pi, target);
            var stable := IsStable(PositionOf(common), Members(fixed), k);
            && UsedBelow(fixed, m + 1) == UsedBelow(fixed, m) + (if stable then 1 else 0)
            && (stable ==> UsedBelow(fixed, m) < |fixed| && FixedKeys(common, fixed)[UsedBelow(fixed, m)] == k)
  {
    PositionHere(pi, target, n - 1);
    UsedMore(fixed, |Common(pi, target[..n - 1])|);
    CommonPrefix(pi, target, n - 1);
    CommonGrows(pi, target, n);
  }

  /** The order of the target follows from the prior sequence and the edit list alone. */
  lemma OpsGiveTarget<K, V>(prior: Entries<K, V>, target: Entries<K, V>, fixed: seq<nat>)
    requires DistinctKeys(prior) && DistinctKeys(target)
    requires forall i :: 0 <= i < |Common(IndexOf(prior), target)| ==>
             Common(IndexOf(prior), target)[i] in IndexOf(prior)
    requires IsLongest(PriorIndexes(IndexOf(prior), Common(IndexOf(prior), target)), fixed)
    ensures var ops := DiffOps(prior, target, Members(fixed));
            Rebuilt(ops, Unmoved(prior, Gone(ops)), |target|).0 == KeysOf(target)
  {
    UnmovedAreFixed(prior, target, fixed);
    RebuiltIs(prior, target, fixed, |target|);
    assert target[..|target|] == target;
  }
}
