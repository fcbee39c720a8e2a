/** Dense sibling keys: byte strings in lexicographic order, and a key minted between two of them. */
module TreeKeys {
  import opened Basics

  type Key = seq<int>

  predicate Bytes(k: Key) {
    forall i :: 0 <= i < |k| ==> 0 <= k[i] <= 255
  }

  predicate Before(x: Key, y: Key) {
    y != [] && (x == [] || x[0] < y[0] || (x[0] == y[0] && Before(x[1..], y[1..])))
  }

  lemma {:induction false} BeforeTrans(x: Key, y: Key, z: Key)
    requires Before(x, y) && Before(y, z)
    ensures Before(x, z)
  {
    if x != [] && x[0] == y[0] == z[0] { BeforeTrans(x[1..], y[1..], z[1..]); }
  }

  lemma {:induction false} BeforeTotal(x: Key, y: Key)
    ensures Before(x, y) || x == y || Before(y, x)
    ensures !(Before(x, y) && Before(y, x)) && !Before(x, x)
  {
    if x != [] && y != [] && x[0] == y[0] {
      BeforeTotal(x[1..], y[1..]);
      assert x == [x[0]] + x[1..] && y == [y[0]] + y[1..];
    }
    if x != [] { BeforeTotal(x[1..], x[1..]); }
  }

  function Digit(k: Key): int {
    if k == [] then 0 else k[0]
  }

  function Rest(k: Key): Key {
    if k == [] then [] else k[1..]
  }

  /** The bound above: an open end counts as 256, an exhausted key as zero. */
  function Bound(hi: Option<Key>): int {
    if hi.None? then 256 else Digit(hi.value)
  }

  function RestOf(hi: Option<Key>): Option<Key> {
    if hi.None? then None else Some(Rest(hi.value))
  }

  /** The digits minted from here on, with `left` turns of the loop to go. */
  function Mint(lo: Key, hi: Option<Key>, left: nat): Key
    decreases if hi.Some? then 1 else 0, |lo|, left
  {
    if left == 0 then [128]
    else
      var a, b := Digit(lo), Bound(hi);
      if a + 1 < b then [(a + b) / 2]
      else if a < b then [a] + KeyBetween(Rest(lo), None)
      else [a] + Mint(Rest(lo), RestOf(hi), left - 1)
  }

  function Turns(lo: Key, hi: Option<Key>): nat {
    |lo| + (if hi.Some? then |hi.value| else 0) + 3
  }

  /** treeKeyBetween; an absent lower key behaves as the empty one. */
  function KeyBetween(lo: Key, hi: Option<Key>): Key
    decreases if hi.Some? then 1 else 0, |lo|, Turns(lo, hi) + 1
  {
    Mint(lo, hi, Turns(lo, hi))
  }

  // ---------------------------------------------------------------- the loop

  /** What is left of a key after `i` digits. */
  function From(k: Key, i: nat): Key {
    if i <= |k| then k[i..] else []
  }

  function FromOf(hi: Option<Key>, i: nat): Option<Key> {
    if hi.None? then None else Some(From(hi.value, i))
  }

  lemma FromTurns(k: Key, i: nat)
    ensures From(k, i + 1) == Rest(From(k, i)) && Digit(From(k, i)) == if i < |k| then k[i] else 0
  {
  }

  /** One turn of the loop, at the digits `a` and `b` it reads, towards the `whole` key. */
  lemma MintTurns(done: Key, lo: Key, hi: Option<Key>, left: nat, whole: Key)
    requires left > 0 && done + Mint(lo, hi, left) == whole
    ensures Digit(lo) + 1 < Bound(hi) ==> done + [(Digit(lo) + Bound(hi)) / 2] == whole
    ensures Digit(lo) + 1 == Bound(hi) ==> done + [Digit(lo)] + KeyBetween(Rest(lo), None) == whole
    ensures Digit(lo) >= Bound(hi) ==> done + [Digit(lo)] + Mint(Rest(lo), RestOf(hi), left - 1) == whole
  {
    if Digit(lo) + 1 == Bound(hi) {
      assert done + [Digit(lo)] + KeyBetween(Rest(lo), None) == done + ([Digit(lo)] + KeyBetween(Rest(lo), None));
    } else if Digit(lo) >= Bound(hi) {
      assert done + [Digit(lo)] + Mint(Rest(lo), RestOf(hi), left - 1) == done
             + ([Digit(lo)] + Mint(Rest(lo), RestOf(hi), left - 1));
    }
  }

  /** The part of `whole` that is still to be minted after `i` turns. */
  ghost predicate Minting(key: Key, lo: Key, hi: Option<Key>, i: nat, whole: Key) {
    i <= Turns(lo, hi) && key + Mint(From(lo, i), FromOf(hi, i), Turns(lo, hi) - i) == whole
  }

  lemma MintingTurns(key: Key, lo: Key, hi: Option<Key>, i: nat, a: int, b: int, whole: Key)
    requires Minting(key, lo, hi, i, whole) && i < Turns(lo, hi)
    requires a == (if i < |lo| then lo[i] else 0)
    requires b == (if hi.None? then 256 else if i < |hi.value| then hi.value[i] else 0)
    ensures a + 1 < b ==> key + [(a + b) / 2] == whole
    ensures a + 1 == b ==> key + [a] + KeyBetween(From(lo, i + 1), None) == whole
    ensures a >= b ==> Minting(key + [a], lo, hi, i + 1, whole)
  {
    FromTurns(lo, i);
    if hi.Some? { FromTurns(hi.value, i); }
    MintTurns(key, From(lo, i), FromOf(hi, i), Turns(lo, hi) - i, whole);
  }

  method MintKey(lo: Key, hi: Option<Key>) returns (key: Key)
    ensures key == KeyBetween(lo, hi)
    decreases if hi.Some? then 1 else 0, |lo|
  {
    key := [];
    var i := 0;
    var last := Turns(lo, hi) - 1;
    ghost var whole := KeyBetween(lo, hi);
    while i <= last
      invariant 0 <= i <= last + 1 && Minting(key, lo, hi, i, whole)
    {
      var a := if i < |lo| then lo[i] else 0;
      var b := if hi.None? then 256 else if i < |hi.value| then hi.value[i] else 0;
      MintingTurns(key, lo, hi, i, a, b, whole);
      if a + 1 < b {
        key := key + [(a + b) / 2];
        return;
      }
      key := key + [a];
      i := i + 1;
      if a < b {
        var tail := MintKey(From(lo, i), None);
        key := key + tail;
        return;
      }
    }
    key := key + [128];
  }

  // ---------------------------------------------------------------- what is minted

  /** A minted key is a nonempty byte string that does not end in zero. */
  predicate Proper(k: Key) {
    Bytes(k) && k != [] && k[|k| - 1] != 0
  }

  ghost predicate BoundOk(hi: Option<Key>) {
    hi.Some? ==> Bytes(hi.value)
  }

  lemma ProperMore(a: int, k: Key)
    requires 0 <= a <= 255 && Proper(k)
    ensures Proper([a] + k)
  {
  }

  lemma {:induction false} MintProper(lo: Key, hi: Option<Key>, left: nat)
    requires Bytes(lo) && BoundOk(hi)
    ensures Proper(Mint(lo, hi, left))
    decreases if hi.Some? then 1 else 0, |lo|, left
  {
    if left > 0 {
      var a, b := Digit(lo), Bound(hi);
      if a + 1 >= b {
        if a < b {
          MintProper(Rest(lo), None, Turns(Rest(lo), None));
          ProperMore(a, KeyBetween(Rest(lo), None));
        } else {
          MintProper(Rest(lo), RestOf(hi), left - 1);
          ProperMore(a, Mint(Rest(lo), RestOf(hi), left - 1));
        }
      }
    }
  }

  /** With an open end above, the minted key is above `lo`. */
  lemma {:induction false} MintAbove(lo: Key)
    requires Bytes(lo)
    ensures Before(lo, KeyBetween(lo, None))
    decreases |lo|
  {
    if Digit(lo) == 255 { MintAbove(Rest(lo)); }
  }

  /** `hi` is `lo` followed by zeros only. */
  predicate Padded(lo: Key, hi: Key) {
    && |lo| <= |hi| && hi[..|lo|] == lo
    && forall i :: |lo| <= i < |hi| ==> hi[i] == 0
  }

  lemma PaddedRest(lo: Key, hi: Key)
    requires hi != [] && Digit(lo) == hi[0] && (lo == [] ==> hi[0] == 0)
    ensures Padded(lo, hi) <==> Padded(Rest(lo), hi[1..])
  {
    if lo != [] {
      if Padded(Rest(lo), hi[1..]) {
        assert lo == [lo[0]] + lo[1..] && hi[..|lo|] == [hi[0]] + hi[1..][..|lo| - 1];
        forall i | |lo| <= i < |hi| ensures hi[i] == 0 { assert hi[i] == hi[1..][i - 1]; }
      }
      if Padded(lo, hi) {
        assert hi[1..][..|lo| - 1] == hi[..|lo|][1..];
      }
    } else if Padded([], hi[1..]) {
      forall i | 0 < i < |hi| ensures hi[i] == 0 { assert hi[i] == hi[1..][i - 1]; }
    }
  }

  lemma {:induction false} MintBetween(lo: Key, hi: Key, left: nat)
    requires Bytes(lo) && Bytes(hi) && Before(lo, hi) && !Padded(lo, hi) && left > |hi|
    ensures Before(lo, Mint(lo, Some(hi), left)) && Before(Mint(lo, Some(hi), left), hi)
    decreases |hi|
  {
    var a, b := Digit(lo), hi[0];
    if a + 1 == b {
      MintAbove(Rest(lo));
    } else if a == b {
      PaddedRest(lo, hi);
      RestBefore(lo, hi);
      MintBetween(Rest(lo), hi[1..], left - 1);
    }
  }

  lemma RestBefore(lo: Key, hi: Key)
    requires Before(lo, hi) && Digit(lo) == hi[0] && !Padded(lo, hi)
    ensures Before(Rest(lo), hi[1..])
  {
    assert lo == [] ==> hi[..|lo|] == lo;
  }

  /** Between `lo` and `lo` padded with zeros the loop runs out and overshoots. */
  lemma {:induction false} MintOvershoots(lo: Key, hi: Key, left: nat)
    requires Padded(lo, hi) && left >= |hi|
    ensures Before(hi, Mint(lo, Some(hi), left))
    decreases left
  {
    if left > 0 && hi != [] {
      assert Digit(lo) == hi[0] by { if lo != [] { assert hi[..|lo|][0] == hi[0]; } }
      PaddedRest(lo, hi);
      MintOvershoots(Rest(lo), hi[1..], left - 1);
    }
  }

  /** The minted key lies strictly between exactly when something does that is not forced to end in zero. */
  lemma KeyBetweenExact(lo: Key, hi: Key)
    requires Bytes(lo) && Bytes(hi)
    ensures var k := KeyBetween(lo, Some(hi)); Before(lo, k) && Before(k, hi) <==> Before(lo, hi) && !Padded(lo, hi)
    ensures Proper(KeyBetween(lo, Some(hi)))
  {
    var k := KeyBetween(lo, Some(hi));
    MintProper(lo, Some(hi), Turns(lo, Some(hi)));
    if Before(lo, hi) && !Padded(lo, hi) { MintBetween(lo, hi, Turns(lo, Some(hi))); }
    if Before(lo, k) && Before(k, hi) { BeforeTrans(lo, k, hi); }
    if Padded(lo, hi) {
      MintOvershoots(lo, hi, Turns(lo, Some(hi)));
      BeforeTotal(k, hi);
    }
  }
}
