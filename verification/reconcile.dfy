/** Keyed reconciliation: the edit list between two keyed sequences, with the fewest moves. */
module Reconcile {

  type Entries<K, V> = seq<(K, V)>

  datatype DiffOp<K, V> = Insert(key: K, value: V, index: nat) | Remove(key: K) | Move(key: K, to: nat)
          | Update(key: K, value: V)

  // ---------------------------------------------------------------- the lists of the source

  /** The last index of each key. */
  function IndexOf<K, V>(es: Entries<K, V>): (m: map<K, nat>) {
    if es == [] then map[] else IndexOf(es[..|es| - 1])[es[|es| - 1].0 := |es| - 1]
  }

  function ValueOf<K, V>(es: Entries<K, V>): map<K, V> {
    if es == [] then map[] else ValueOf(es[..|es| - 1])[es[|es| - 1].0 := es[|es| - 1].1]
  }

  function Removes<K(==), V>(prior: Entries<K, V>, kept: set<K>): seq<DiffOp<K, V>> {
    if prior == [] then []
    else
      var before := Removes(prior[..|prior| - 1], kept);
      if prior[|prior| - 1].0 in kept then before else before + [Remove(prior[|prior| - 1].0)]
  }

  /** The keys of the target that the prior sequence had, in target order. */
  function Common<K(==), V>(pi: map<K, nat>, target: Entries<K, V>): seq<K> {
    if target == [] then []
    else
      var before := Common(pi, target[..|target| - 1]);
      if target[|target| - 1].0 in pi then before + [target[|target| - 1].0] else before
  }

  function PriorIndexes<K>(pi: map<K, nat>, keys: seq<K>): (r: seq<int>)
    requires forall i :: 0 <= i < |keys| ==> keys[i] in pi
    ensures |r| == |keys| && forall i :: 0 <= i < |r| ==> r[i] == pi[keys[i]]
  {
    seq(|keys|, i requires 0 <= i < |keys| => pi[keys[i]] as int)
  }

  /** The last position of each key among the common ones. */
  function PositionOf<K>(keys: seq<K>): map<K, nat> {
    if keys == [] then map[] else PositionOf(keys[..|keys| - 1])[keys[|keys| - 1] := |keys| - 1]
  }

  predicate IsStable<K(==)>(ci: map<K, nat>, stable: set<nat>, k: K) {
    k in ci && ci[k] in stable
  }

  /** Inserts and moves, in target order. */
  function Places<K(==), V>(pi: map<K, nat>, ci: map<K, nat>, stable: set<nat>,
          target: Entries<K, V>): seq<DiffOp<K, V>> {
    if target == [] then []
    else
      var before := Places(pi, ci, stable, target[..|target| - 1]);
      var (k, v) := target[|target| - 1];
      if k !in pi then before + [Insert(k, v, |target| - 1)]
      else if IsStable(ci, stable, k) then before
      else before + [Move(k, |target| - 1)]
  }

  function Updates<K(==), V(==)>(pv: map<K, V>, target: Entries<K, V>): seq<DiffOp<K, V>> {
    if target == [] then []
    else
      var before := Updates(pv, target[..|target| - 1]);
      var (k, v) := target[|target| - 1];
      if k in pv && pv[k] != v then before + [Update(k, v)] else before
  }

  /** The whole edit list, given the positions among the common keys that are held fixed. */
  function DiffOps<K(==), V(==)>(prior: Entries<K, V>, target: Entries<K, V>, stable: set<nat>): seq<DiffOp<K, V>> {
    var pi := IndexOf(prior);
    Removes(prior, ValueOf(target).Keys) + Places(pi, PositionOf(Common(pi, target)), stable, target)
        + Updates(ValueOf(prior), target)
  }

  lemma {:induction false} CommonIsPrior<K, V>(pi: map<K, nat>, target: Entries<K, V>)
    ensures forall i :: 0 <= i < |Common(pi, target)| ==> Common(pi, target)[i] in pi
    decreases |target|
  {
    if target != [] { CommonIsPrior(pi, target[..|target| - 1]); }
  }

  // ---------------------------------------------------------------- the loops

  method BuildValues<K(==), V>(es: Entries<K, V>) returns (m: map<K, V>)
    ensures m == ValueOf(es)
  {
    m := map[];
    for i := 0 to |es|
      invariant m == ValueOf(es[..i])
    {
      assert es[..i + 1][..i] == es[..i];
      m := m[es[i].0 := es[i].1];
    }
    assert es[..|es|] == es;
  }

  method BuildRemoves<K(==), V>(prior: Entries<K, V>, kept: set<K>) returns (ops: seq<DiffOp<K, V>>)
    ensures ops == Removes(prior, kept)
  {
    ops := [];
    for i := 0 to |prior|
      invariant ops == Removes(prior[..i], kept)
    {
      assert prior[..i + 1][..i] == prior[..i];
      if prior[i].0 !in kept { ops := ops + [Remove(prior[i].0)]; }
    }
    assert prior[..|prior|] == prior;
  }

  method BuildCommon<K(==), V>(pi: map<K, nat>, target: Entries<K, V>)
          returns (common: seq<K>, ci: map<K, nat>, indexes: seq<int>)
    ensures common == Common(pi, target) && ci == PositionOf(common)
    ensures |indexes| == |common| && forall i :: 0 <= i < |common| ==> common[i] in pi && indexes[i] == pi[common[i]]
  {
    common, ci, indexes := [], map[], [];
    for i := 0 to |target|
      invariant common == Common(pi, target[..i]) && ci == PositionOf(common)
      invariant |indexes| == |common| && forall i :: 0 <= i < |common| ==>
                common[i] in pi && indexes[i] == pi[common[i]]
    {
      assert target[..i + 1][..i] == target[..i];
      var k := target[i].0;
      if k in pi {
        ci := ci[k := |common|];
        assert (common + [k])[..|common|] == common;
        common := common + [k];
        indexes := indexes + [pi[k]];
      }
    }
    assert target[..|target|] == target;
  }

  method BuildPlaces<K(==), V>(pi: map<K, nat>, ci: map<K, nat>, stable: set<nat>, target: Entries<K, V>)
          returns (ops: seq<DiffOp<K, V>>)
    ensures ops == Places(pi, ci, stable, target)
  {
    ops := [];
    for i := 0 to |target|
      invariant ops == Places(pi, ci, stable, target[..i])
    {
      assert target[..i + 1][..i] == target[..i];
      var (k, v) := target[i];
      if k !in pi {
        ops := ops + [Insert(k, v, i)];
      } else if !IsStable(ci, stable, k) {
        ops := ops + [Move(k, i)];
      }
    }
    assert target[..|target|] == target;
  }

  method BuildUpdates<K(==), V(==)>(pv: map<K, V>, target: Entries<K, V>) returns (ops: seq<DiffOp<K, V>>)
    ensures ops == Updates(pv, target)
  {
    ops := [];
    for i := 0 to |target|
      invariant ops == Updates(pv, target[..i])
    {
      assert target[..i + 1][..i] == target[..i];
      var (k, v) := target[i];
      if k in pv && pv[k] != v { ops := ops + [Update(k, v)]; }
    }
    assert target[..|target|] == target;
  }
}
