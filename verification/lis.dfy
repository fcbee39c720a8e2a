/** The longest strictly increasing subsequence, by patience sorting. */
module Lis {

  /** `idx` picks a strictly increasing subsequence of `s`, by ascending positions. */
  ghost predicate Increasing(s: seq<int>, idx: seq<nat>) {
    && (forall i :: 0 <= i < |idx| ==> idx[i] < |s|)
    && (forall i, j :: 0 <= i < j < |idx| ==> idx[i] < idx[j] && s[idx[i]] < s[idx[j]])
  }

  ghost predicate IsLongest(s: seq<int>, idx: seq<nat>) {
    Increasing(s, idx) && forall other {:trigger Increasing(s, other)} :: Increasing(s, other) ==> |other| <= |idx|
  }

  // ---------------------------------------------------------------- the piles

  /** `rank[j]` is the pile that position `j` was put on, counted from one. */
  ghost predicate Ranked(s: seq<int>, rank: seq<nat>) {
    && |rank| <= |s|
    && (forall j :: 0 <= j < |rank| ==> rank[j] >= 1)
    && (forall p, q :: 0 <= p < q < |rank| && s[p] < s[q] ==> rank[p] < rank[q])
  }

  /** Pile tops rise from pile to pile, and no position is below the top of its pile. */
  ghost predicate Piles(s: seq<int>, rank: seq<nat>, tails: seq<nat>) {
    && |rank| <= |s|
    && (forall k {:trigger tails[k]} :: 0 <= k < |tails| ==> tails[k] < |rank| && rank[tails[k]] == k + 1)
    && Rising(s, tails)
    && (forall j {:trigger Covered(s, rank, tails, j)} :: 0 <= j < |rank| ==> Covered(s, rank, tails, j))
  }

  ghost predicate Rising(s: seq<int>, tails: seq<nat>) {
    forall k, l {:trigger tails[k], tails[l]} :: 0 <= k < l < |tails| ==>
        tails[k] < |s| && tails[l] < |s| && s[tails[k]] < s[tails[l]]
  }

  ghost predicate Covered(s: seq<int>, rank: seq<nat>, tails: seq<nat>, j: nat)
    requires j < |rank| <= |s|
  {
    1 <= rank[j] <= |tails| && tails[rank[j] - 1] < |s| && s[tails[rank[j] - 1]] <= s[j]
  }

  /** A back pointer leads to a smaller earlier value one pile to the left. */
  ghost predicate BackOk(s: seq<int>, rank: seq<nat>, j: nat, p: int) {
    && j < |rank| <= |s|
    && (rank[j] == 1 ==> p == -1)
    && (rank[j] > 1 ==> 0 <= p < j && rank[p] == rank[j] - 1 && s[p] < s[j])
  }

  /** An increasing subsequence climbs at least one pile per step. */
  lemma {:induction false} RankBounds(s: seq<int>, rank: seq<nat>, other: seq<nat>, t: nat)
    requires Ranked(s, rank) && |rank| == |s| && Increasing(s, other) && t < |other|
    ensures rank[other[t]] >= t + 1
  {
    if t > 0 {
      RankBounds(s, rank, other, t - 1);
      assert s[other[t - 1]] < s[other[t]];
    }
  }

  lemma NoLonger(s: seq<int>, rank: seq<nat>, tails: seq<nat>, other: seq<nat>)
    requires Ranked(s, rank) && |rank| == |s| && Piles(s, rank, tails) && Increasing(s, other)
    ensures |other| <= |tails|
  {
    if other != [] {
      RankBounds(s, rank, other, |other| - 1);
      assert Covered(s, rank, tails, other[|other| - 1]);
    }
  }

  /** The pile tops once position `i` is on pile `lo`. */
  function Topped(tails: seq<nat>, lo: nat, i: nat): (r: seq<nat>)
    requires lo <= |tails|
    ensures |r| == (if lo == |tails| then |tails| + 1 else |tails|)
    ensures forall k :: 0 <= k < |r| ==> r[k] == if k == lo then i else tails[k]
  {
    if lo == |tails| then tails + [i] else tails[lo := i]
  }

  /** `lo` is the first pile whose top is not smaller than `x`. */
  ghost predicate Fits(s: seq<int>, tails: seq<nat>, lo: nat, x: int) {
    && lo <= |tails|
    && (forall k {:trigger tails[k]} :: 0 <= k < lo ==> tails[k] < |s| && s[tails[k]] < x)
    && (forall k {:trigger tails[k]} :: lo <= k < |tails| ==> tails[k] < |s| && x <= s[tails[k]])
  }

  lemma RankedMore(s: seq<int>, rank: seq<nat>, tails: seq<nat>, lo: nat)
    requires Ranked(s, rank) && Piles(s, rank, tails) && |rank| < |s| && Fits(s, tails, lo, s[|rank|])
    ensures Ranked(s, rank + [lo + 1])
  {
    forall p | 0 <= p < |rank| && s[p] < s[|rank|] ensures rank[p] < lo + 1 {
      assert Covered(s, rank, tails, p);
    }
  }

  lemma RisingMore(s: seq<int>, tails: seq<nat>, lo: nat, i: nat)
    requires Rising(s, tails) && i < |s| && Fits(s, tails, lo, s[i])
    ensures Rising(s, Topped(tails, lo, i))
  {
    var r := Topped(tails, lo, i);
    forall k, l | 0 <= k < l < |r| ensures r[k] < |s| && r[l] < |s| && s[r[k]] < s[r[l]] {
      if k == lo { assert s[tails[lo]] < s[tails[l]]; }
    }
  }

  /** The next position goes on the first pile whose top is not smaller. */
  lemma PilesMore(s: seq<int>, rank: seq<nat>, tails: seq<nat>, lo: nat)
    requires Piles(s, rank, tails) && |rank| < |s| && Fits(s, tails, lo, s[|rank|])
    ensures Piles(s, rank + [lo + 1], Topped(tails, lo, |rank|))
  {
    var i := |rank|;
    var rank', r := rank + [lo + 1], Topped(tails, lo, i);
    RisingMore(s, tails, lo, i);
    forall j | 0 <= j < |rank'| ensures Covered(s, rank', r, j) {
      if j < i { assert Covered(s, rank, tails, j); }
    }
  }

  // ---------------------------------------------------------------- the method

  method Search(s: seq<int>, tails: seq<nat>, x: int) returns (lo: nat)
    requires (forall k :: 0 <= k < |tails| ==> tails[k] < |s|) && Rising(s, tails)
    ensures Fits(s, tails, lo, x)
  {
    lo := 0;
    var hi := |tails|;
    while lo < hi
      invariant 0 <= lo <= hi <= |tails|
      invariant forall k :: 0 <= k < lo ==> s[tails[k]] < x
      invariant forall k :: hi <= k < |tails| ==> x <= s[tails[k]]
    {
      var mid := (lo + hi) / 2;
      if s[tails[mid]] < x { lo := mid + 1; } else { hi := mid; }
    }
  }

  method Reverse(a: seq<nat>) returns (r: seq<nat>)
    ensures |r| == |a| && forall k :: 0 <= k < |a| ==> r[k] == a[|a| - 1 - k]
  {
    r := a;
    var i, j := 0, |a| - 1;
    while i < j
      invariant 0 <= i <= j + 2 && i + j == |a| - 1 && |r| == |a|
      invariant forall k :: i <= k <= j ==> r[k] == a[k]
      invariant forall k :: 0 <= k < i ==> r[k] == a[|a| - 1 - k] && r[|a| - 1 - k] == a[k]
    {
      r := r[i := r[j]][j := r[i]];
      i, j := i + 1, j - 1;
    }
  }

  /** The chain of back pointers, read off the last pile. */
  ghost predicate ChainOk(s: seq<int>, rank: seq<nat>, chain: seq<nat>, k: int, top: nat) {
    && |rank| == |s| && |chain| <= top
    && (forall i :: 0 <= i < |chain| ==> chain[i] < |s| && rank[chain[i]] == top - i)
    && (forall i, j :: 0 <= i < j < |chain| ==> chain[j] < chain[i] && s[chain[j]] < s[chain[i]])
    && (k == -1 <==> |chain| == top)
    && (k != -1 ==> 0 <= k < |s| && rank[k] == top - |chain| && forall i :: 0 <= i < |chain| ==>
        k < chain[i] && s[k] < s[chain[i]])
  }

  method Longest(s: seq<int>) returns (idx: seq<nat>)
    ensures IsLongest(s, idx)
  {
    var tails: seq<nat> := [];
    var prev := new int[|s|];
    ghost var rank: seq<nat> := [];
    for i := 0 to |s|
      invariant |rank| == i && Ranked(s, rank) && Piles(s, rank, tails)
      invariant forall j :: 0 <= j < i ==> BackOk(s, rank, j, prev[j])
    {
      var lo := Search(s, tails, s[i]);
      prev[i] := if lo > 0 then tails[lo - 1] else -1;
      RankedMore(s, rank, tails, lo);
      PilesMore(s, rank, tails, lo);
      BackMore(s, rank, tails, lo, prev[..i]);
      rank := rank + [lo + 1];
      tails := Topped(tails, lo, i);
    }
    forall other | Increasing(s, other) ensures |other| <= |tails| { NoLonger(s, rank, tails, other); }
    if |tails| == 0 { return []; }
    var chain := Collect(s, rank, prev, tails[|tails| - 1], |tails|);
    idx := Reverse(chain);
    assert Increasing(s, idx);
  }

  lemma BackMore(s: seq<int>, rank: seq<nat>, tails: seq<nat>, lo: nat, prev: seq<int>)
    requires Piles(s, rank, tails) && |rank| == |prev| < |s| && Fits(s, tails, lo, s[|rank|])
    requires forall j :: 0 <= j < |prev| ==> BackOk(s, rank, j, prev[j])
    ensures forall j :: 0 <= j < |prev| ==> BackOk(s, rank + [lo + 1], j, prev[j])
    ensures BackOk(s, rank + [lo + 1], |prev|, if lo > 0 then tails[lo - 1] else -1)
  {
    forall j | 0 <= j < |prev| ensures BackOk(s, rank + [lo + 1], j, prev[j]) { assert BackOk(s, rank, j, prev[j]); }
  }

  method Collect(s: seq<int>, ghost rank: seq<nat>, prev: array<int>, last: nat, top: nat) returns (chain: seq<nat>)
    requires |rank| == |s| == prev.Length && last < |s| && rank[last] == top
             && (forall j :: 0 <= j < |s| ==> BackOk(s, rank, j, prev[j]))
    requires forall j :: 0 <= j < |rank| ==> rank[j] >= 1
    ensures ChainOk(s, rank, chain, -1, top)
  {
    chain := [];
    var k: int := last;
    while k != -1
      invariant ChainOk(s, rank, chain, k, top)
      decreases top - |chain|
    {
      assert BackOk(s, rank, k, prev[k]);
      chain := chain + [k];
      k := prev[k];
    }
  }
}
