/** Equal bytes mean equal values, and equal values give equal bytes. */
module CanonicalMeaning {
  import opened Basics
  import opened TreeKeys
  import opened Canonical

  // ---------------------------------------------------------------- sorting

  ghost predicate Sorted(ss: seq<Bytes>) {
    forall i, j :: 0 <= i < j < |ss| ==> !Before(ss[j], ss[i])
  }

  lemma {:induction false} InsertPermutes(s: Bytes, ss: seq<Bytes>)
    ensures multiset(Insert(s, ss)) == multiset(ss) + multiset{s}
    decreases |ss|
  {
    if ss != [] {
      assert ss == [ss[0]] + ss[1..];
      InsertPermutes(s, ss[1..]);
    }
  }

  lemma {:induction false} SortPermutes(ss: seq<Bytes>)
    ensures multiset(Sort(ss)) == multiset(ss)
    decreases |ss|
  {
    if ss != [] {
      assert ss == [ss[0]] + ss[1..];
      SortPermutes(ss[1..]);
      InsertPermutes(ss[0], Sort(ss[1..]));
    }
  }

  lemma {:induction false} InsertSorts(s: Bytes, ss: seq<Bytes>)
    requires Sorted(ss)
    ensures Sorted(Insert(s, ss))
    decreases |ss|
  {
    if ss != [] {
      var r := Insert(s, ss);
      if Before(ss[0], s) {
        InsertSorts(s, ss[1..]);
        InsertPermutes(s, ss[1..]);
        forall j | 0 < j < |r| ensures !Before(r[j], r[0]) {
          assert r[j] in multiset(Insert(s, ss[1..]));
          BeforeTotal(ss[0], s);
        }
      } else {
        forall j | 0 < j < |r| ensures !Before(r[j], s) {
          assert r[j] == ss[j - 1];
          if Before(ss[j - 1], s) && j > 1 {
            BeforeTotal(ss[0], ss[j - 1]);
            if ss[0] != ss[j - 1] { BeforeTrans(ss[0], ss[j - 1], s); }
          }
        }
      }
    }
  }

  lemma {:induction false} SortSorts(ss: seq<Bytes>)
    ensures Sorted(Sort(ss))
    decreases |ss|
  {
    if ss != [] {
      SortSorts(ss[1..]);
      InsertSorts(ss[0], Sort(ss[1..]));
    }
  }

  lemma {:induction false} SortedUnique(a: seq<Bytes>, b: seq<Bytes>)
    requires Sorted(a) && Sorted(b) && multiset(a) == multiset(b)
    ensures a == b
    decreases |a|
  {
    assert |a| == |multiset(a)| == |multiset(b)| == |b|;
    if a != [] {
      SortedHeads(a, b);
      HeadCounts(a);
      HeadCounts(b);
      SortedUnique(a[1..], b[1..]);
      assert a == [a[0]] + a[1..] && b == [b[0]] + b[1..];
    }
  }

  lemma HeadCounts<T>(s: seq<T>)
    requires s != []
    ensures multiset(s[1..]) == multiset(s) - multiset{s[0]}
  {
    assert s == [s[0]] + s[1..];
  }

  lemma SortedHeads(a: seq<Bytes>, b: seq<Bytes>)
    requires Sorted(a) && Sorted(b) && multiset(a) == multiset(b) && a != [] && b != []
    ensures a[0] == b[0]
  {
    assert a[0] in multiset(b) && b[0] in multiset(a);
    var i :| 0 <= i < |a| && a[i] == b[0];
    var j :| 0 <= j < |b| && b[j] == a[0];
    BeforeTotal(a[0], b[0]);
  }

  /** Sorting forgets order and nothing else. */
  lemma SortForgetsOrder(a: seq<Bytes>, b: seq<Bytes>)
    ensures Sort(a) == Sort(b) <==> multiset(a) == multiset(b)
  {
    SortPermutes(a);
    SortPermutes(b);
    SortSorts(a);
    SortSorts(b);
    if multiset(a) == multiset(b) { SortedUnique(Sort(a), Sort(b)); }
  }

  lemma {:induction false} OnceIs(ss: seq<Bytes>)
    ensures Members(Once(ss)) == Members(ss) && Distinct(Once(ss))
    decreases |ss|
  {
    if ss != [] {
      var x := ss[|ss| - 1];
      var before := Once(ss[..|ss| - 1]);
      OnceIs(ss[..|ss| - 1]);
      assert ss == ss[..|ss| - 1] + [x];
      assert Members(ss) == Members(ss[..|ss| - 1]) + {x};
      assert Members(before + [x]) == Members(before) + {x};
      assert x in before ==> x in Members(before);
    }
  }

  lemma {:induction false} DistinctMultiset(ss: seq<Bytes>)
    requires Distinct(ss)
    ensures multiset(ss) == multiset(Members(ss))
    decreases |ss|
  {
    if ss != [] {
      var before := ss[..|ss| - 1];
      DistinctMultiset(before);
      assert ss == before + [ss[|ss| - 1]];
      assert ss[|ss| - 1] !in before;
      assert Members(ss) == Members(before) + {ss[|ss| - 1]};
    }
  }

  /** Deduplicating and sorting forgets order and repetition and nothing else. */
  lemma OnceForgetsRepeats(a: seq<Bytes>, b: seq<Bytes>)
    ensures Sort(Once(a)) == Sort(Once(b)) <==> Members(a) == Members(b)
  {
    OnceIs(a);
    OnceIs(b);
    DistinctMultiset(Once(a));
    DistinctMultiset(Once(b));
    SortForgetsOrder(Once(a), Once(b));
    assert multiset(Once(a)) == multiset(Once(b)) ==> Members(Once(a)) == Members(Once(b)) by {
      assert forall x :: x in Once(a) <==> x in multiset(Once(a));
      assert forall x :: x in Once(b) <==> x in multiset(Once(b));
    }
  }

  // ---------------------------------------------------------------- bytes and meanings

  lemma {:induction false} EncAllAt(vs: seq<Value>, i: nat)
    requires i < |vs|
    ensures EncAll(vs)[i] == Enc(vs[i]) && MeanAll(vs)[i] == Mean(vs[i])
    decreases |vs|
  {
    if i > 0 { EncAllAt(vs[1..], i - 1); }
  }

  lemma {:induction false} EntriesAt(es: seq<Entry>, i: nat)
    requires i < |es|
    ensures EncEntries(es)[i] == EncEntry(es[i]) && MeanEntries(es)[i] == MeanEntry(es[i])
    decreases |es|
  {
    if i > 0 { EntriesAt(es[1..], i - 1); }
  }

  lemma EncAllFrames(vs: seq<Value>)
    ensures AllFrames(EncAll(vs))
  {
    forall i | 0 <= i < |vs| ensures IsFrame(EncAll(vs)[i]) {
      EncAllAt(vs, i);
      EncIsFrame(vs[i]);
    }
  }

  lemma {:induction false} SortFrames(ss: seq<Bytes>)
    requires AllFrames(ss)
    ensures AllFrames(Sort(ss))
  {
    SortPermutes(ss);
    forall i | 0 <= i < |Sort(ss)| ensures IsFrame(Sort(ss)[i]) {
      assert Sort(ss)[i] in multiset(Sort(ss));
      assert Sort(ss)[i] in multiset(ss);
    }
  }

  lemma OnceFrames(ss: seq<Bytes>)
    requires AllFrames(ss)
    ensures AllFrames(Once(ss))
  {
    OnceIs(ss);
    forall i | 0 <= i < |Once(ss)| ensures IsFrame(Once(ss)[i]) {
      assert Once(ss)[i] in Members(Once(ss));
      assert Once(ss)[i] in Members(ss);
    }
  }

  /** An entry is two frames. */
  ghost predicate IsPair(s: Bytes) {
    exists a, b :: IsFrame(a) && IsFrame(b) && s == a + b
  }

  ghost predicate AllPairs(ss: seq<Bytes>) {
    forall i :: 0 <= i < |ss| ==> IsPair(ss[i])
  }

  lemma PairSplits(s: Bytes, x: Bytes, t: Bytes, y: Bytes)
    requires IsPair(s) && IsPair(t) && s + x == t + y
    ensures s == t && x == y
  {
    var a, b :| IsFrame(a) && IsFrame(b) && s == a + b;
    var c, d :| IsFrame(c) && IsFrame(d) && t == c + d;
    assert a + (b + x) == s + x == t + y == c + (d + y);
    HeadSplits(a, b + x, c, d + y);
    HeadSplits(b, x, d, y);
  }

  lemma PairsNotEmpty(ss: seq<Bytes>)
    requires AllPairs(ss)
    ensures Concat(ss) == [] <==> ss == []
  {
    if ss != [] {
      var a, b :| IsFrame(a) && IsFrame(b) && ss[0] == a + b;
      ConcatNotEmpty([a]);
      assert Concat([a]) == a + [];
      assert |Concat(ss)| >= |ss[0]| >= |a|;
    }
  }

  lemma {:induction false} PairsSplit(a: seq<Bytes>, b: seq<Bytes>)
    requires AllPairs(a) && AllPairs(b) && Concat(a) == Concat(b)
    ensures a == b
    decreases |a|
  {
    PairsNotEmpty(a);
    PairsNotEmpty(b);
    if a != [] {
      PairSplits(a[0], Concat(a[1..]), b[0], Concat(b[1..]));
      PairsSplit(a[1..], b[1..]);
      assert a == [a[0]] + a[1..] && b == [b[0]] + b[1..];
    }
  }

  lemma EntriesPairs(es: seq<Entry>)
    ensures AllPairs(EncEntries(es)) && AllPairs(Sort(EncEntries(es)))
  {
    forall i | 0 <= i < |es| ensures IsPair(EncEntries(es)[i]) {
      EntriesAt(es, i);
      EncIsFrame(es[i].key);
      EncIsFrame(es[i].value);
    }
    SortPermutes(EncEntries(es));
    var ss := Sort(EncEntries(es));
    forall i | 0 <= i < |ss| ensures IsPair(ss[i]) {
      assert ss[i] in multiset(ss);
      assert ss[i] in multiset(EncEntries(es));
    }
  }

  function Without<T>(s: seq<T>, j: nat): (r: seq<T>)
    requires j < |s|
    ensures |r| == |s| - 1 && forall i :: 0 <= i < |r| ==> r[i] == s[if i < j then i else i + 1]
  {
    s[..j] + s[j + 1..]
  }

  lemma WithoutCounts<T>(s: seq<T>, j: nat)
    requires j < |s|
    ensures multiset(Without(s, j)) == multiset(s) - multiset{s[j]}
  {
    assert s == s[..j] + [s[j]] + s[j + 1..];
  }

  lemma WithoutEntryAt(es: seq<Entry>, j: nat, i: nat)
    requires j < |es| && i < |es| - 1
    ensures EncEntries(Without(es, j))[i] == Without(EncEntries(es), j)[i]
    ensures MeanEntries(Without(es, j))[i] == Without(MeanEntries(es), j)[i]
  {
    EntriesAt(Without(es, j), i);
    EntriesAt(es, if i < j then i else i + 1);
  }

  lemma WithoutEntries(es: seq<Entry>, j: nat)
    requires j < |es|
    ensures EncEntries(Without(es, j)) == Without(EncEntries(es), j)
            && MeanEntries(Without(es, j)) == Without(MeanEntries(es), j)
  {
    var n := |es| - 1;
    var a, b := EncEntries(Without(es, j)), Without(EncEntries(es), j);
    var c, d := MeanEntries(Without(es, j)), Without(MeanEntries(es), j);
    assert |a| == |b| == |c| == |d| == n;
    forall i | 0 <= i < n ensures a[i] == b[i] && c[i] == d[i] { WithoutEntryAt(es, j, i); }
  }

  // ---------------------------------------------------------------- the theorem

  /** Two values have the same bytes exactly when they mean the same. */
  lemma {:induction false} EncMeans(v: Value, w: Value)
    ensures Enc(v) == Enc(w) <==> Mean(v) == Mean(w)
    decreases v
  {
    BodiesMean(v, w);
    if v.Int? && w.Int? && Enc(v) == Enc(w) {
      FrameSplits(105, Integer(v.i), [], 105, Integer(w.i), []);
      IntegerInjective(v.i, w.i);
    }
    match (v, w)
    case (List(a), List(b)) => ListMeans(a, b);
    case (Set(a), Set(b)) => SetMeans(a, b);
    case (Map(a), Map(b)) => MapMeans(a, b);
    case _ =>
  }

  function Tag(v: Value): int {
    match v
    case Nil => 110
    case Bool(_) => 98
    case Int(_) => 105
    case Str(_) => 115
    case Blob(_) => 121
    case List(_) => 108
    case Set(_) => 116
    case Map(_) => 109
  }

  function BodyOf(v: Value): Bytes {
    match v
    case Nil => []
    case Bool(b) => [if b then 49 else 48]
    case Int(i) => Integer(i)
    case Str(s) => s
    case Blob(y) => y
    case List(vs) => Concat(EncAll(vs))
    case Set(vs) => Concat(Sort(Once(EncAll(vs))))
    case Map(es) => Concat(Sort(EncEntries(es)))
  }

  /** Equal encodings have the same tag and the same body. */
  lemma BodiesMean(v: Value, w: Value)
    ensures Enc(v) == Frame(Tag(v), BodyOf(v)) && Enc(w) == Frame(Tag(w), BodyOf(w))
    ensures Enc(v) == Enc(w) <==> Tag(v) == Tag(w) && BodyOf(v) == BodyOf(w)
  {
    if Enc(v) == Enc(w) {
      assert Frame(Tag(v), BodyOf(v)) + [] == Frame(Tag(w), BodyOf(w)) + [];
      FrameSplits(Tag(v), BodyOf(v), [], Tag(w), BodyOf(w), []);
    }
  }

  lemma {:induction false} ListMeans(a: seq<Value>, b: seq<Value>)
    ensures Concat(EncAll(a)) == Concat(EncAll(b)) <==> MeanAll(a) == MeanAll(b)
    decreases a
  {
    EncAllFrames(a);
    EncAllFrames(b);
    if Concat(EncAll(a)) == Concat(EncAll(b)) { FramesSplit(EncAll(a), EncAll(b)); }
    AllMeans(a, b);
  }

  lemma {:induction false} AllMeans(a: seq<Value>, b: seq<Value>)
    ensures EncAll(a) == EncAll(b) <==> MeanAll(a) == MeanAll(b)
    decreases a, 0
  {
    if a != [] && b != [] {
      EncMeans(a[0], b[0]);
      AllMeans(a[1..], b[1..]);
      HeadTail(EncAll(a), EncAll(b));
      HeadTail(MeanAll(a), MeanAll(b));
    }
  }

  lemma HeadTail<T>(x: seq<T>, y: seq<T>)
    requires x != [] && y != []
    ensures x == y <==> x[0] == y[0] && x[1..] == y[1..]
  {
    if x[0] == y[0] && x[1..] == y[1..] { assert x == [x[0]] + x[1..] && y == [y[0]] + y[1..]; }
  }

  lemma {:induction false} SetMeans(a: seq<Value>, b: seq<Value>)
    ensures Concat(Sort(Once(EncAll(a)))) == Concat(Sort(Once(EncAll(b)))) <==>
            Members(MeanAll(a)) == Members(MeanAll(b))
    decreases a
  {
    EncAllFrames(a);
    EncAllFrames(b);
    OnceFrames(EncAll(a));
    OnceFrames(EncAll(b));
    SortFrames(Once(EncAll(a)));
    SortFrames(Once(EncAll(b)));
    if Concat(Sort(Once(EncAll(a)))) == Concat(Sort(Once(EncAll(b)))) {
      FramesSplit(Sort(Once(EncAll(a))), Sort(Once(EncAll(b))));
    }
    OnceForgetsRepeats(EncAll(a), EncAll(b));
    MembersMean(a, b);
  }

  lemma {:induction false} MembersMean(a: seq<Value>, b: seq<Value>)
    ensures Members(EncAll(a)) == Members(EncAll(b)) <==> Members(MeanAll(a)) == Members(MeanAll(b))
    decreases a, 0
  {
    forall i, j | 0 <= i < |a| && 0 <= j < |b|
        ensures EncAll(a)[i] == EncAll(b)[j] <==> MeanAll(a)[i] == MeanAll(b)[j] {
      EncAllAt(a, i);
      EncAllAt(b, j);
      EncMeans(a[i], b[j]);
    }
    if Members(EncAll(a)) == Members(EncAll(b)) { SameImages(EncAll(a), EncAll(b), MeanAll(a), MeanAll(b)); }
    if Members(MeanAll(a)) == Members(MeanAll(b)) { SameImages(MeanAll(a), MeanAll(b), EncAll(a), EncAll(b)); }
  }

  lemma SameImages<X, Y>(a: seq<X>, b: seq<X>, c: seq<Y>, d: seq<Y>)
    requires |a| == |c| && |b| == |d| && Members(a) == Members(b)
    requires forall i, j :: 0 <= i < |a| && 0 <= j < |b| && a[i] == b[j] ==> c[i] == d[j]
    ensures Members(c) == Members(d)
  {
    forall y | y in Members(c) ensures y in Members(d) {
      var i :| 0 <= i < |c| && c[i] == y;
      assert a[i] in Members(b);
      var j :| 0 <= j < |b| && b[j] == a[i];
    }
    forall y | y in Members(d) ensures y in Members(c) {
      var j :| 0 <= j < |d| && d[j] == y;
      assert b[j] in Members(a);
      var i :| 0 <= i < |a| && a[i] == b[j];
    }
  }

  lemma {:induction false} MapMeans(a: seq<Entry>, b: seq<Entry>)
    ensures Concat(Sort(EncEntries(a))) == Concat(Sort(EncEntries(b))) <==>
            multiset(MeanEntries(a)) == multiset(MeanEntries(b))
    decreases a
  {
    EntriesPairs(a);
    EntriesPairs(b);
    if Concat(Sort(EncEntries(a))) == Concat(Sort(EncEntries(b))) {
      PairsSplit(Sort(EncEntries(a)), Sort(EncEntries(b)));
    }
    SortForgetsOrder(EncEntries(a), EncEntries(b));
    EntriesMean(a, b);
  }

  lemma {:induction false} EntryMeans(e: Entry, f: Entry)
    ensures EncEntry(e) == EncEntry(f) <==> MeanEntry(e) == MeanEntry(f)
    decreases e
  {
    EncMeans(e.key, f.key);
    EncMeans(e.value, f.value);
    EncIsFrame(e.key);
    EncIsFrame(f.key);
    if EncEntry(e) == EncEntry(f) { HeadSplits(Enc(e.key), Enc(e.value), Enc(f.key), Enc(f.value)); }
  }

  lemma {:induction false} EntriesMean(a: seq<Entry>, b: seq<Entry>)
    ensures multiset(EncEntries(a)) == multiset(EncEntries(b)) <==> multiset(MeanEntries(a)) == multiset(MeanEntries(b))
    decreases a, 1
  {
    if a == [] {
      assert |EncEntries(b)| == |multiset(EncEntries(b))| && |MeanEntries(b)| == |multiset(MeanEntries(b))|;
    } else if j :| 0 <= j < |b| && EncEntry(b[j]) == EncEntry(a[0]) {
      EntryMeans(a[0], b[j]);
      RemoveBoth(a, b, j);
    } else {
      forall j | 0 <= j < |b| ensures EncEntries(b)[j] != EncEntries(a)[0] && MeanEntries(b)[j] != MeanEntries(a)[0] {
        EntriesAt(b, j);
        EntryMeans(a[0], b[j]);
      }
      NoMatch(EncEntries(a), EncEntries(b));
      NoMatch(MeanEntries(a), MeanEntries(b));
    }
  }

  lemma NoMatch<T>(x: seq<T>, y: seq<T>)
    requires x != [] && forall j :: 0 <= j < |y| ==> y[j] != x[0]
    ensures multiset(x) != multiset(y)
  {
    assert x[0] in multiset(x);
    assert x[0] !in multiset(y);
  }

  /** Taking a matching entry from both sides. */
  lemma {:induction false} RemoveBoth(a: seq<Entry>, b: seq<Entry>, j: nat)
    requires a != [] && j < |b| && EncEntry(a[0]) == EncEntry(b[j]) && MeanEntry(a[0]) == MeanEntry(b[j])
    ensures multiset(EncEntries(a)) == multiset(EncEntries(b)) <==> multiset(MeanEntries(a)) == multiset(MeanEntries(b))
    decreases a, 0
  {
    EntriesMean(a[1..], Without(b, j));
    WithoutEntries(b, j);
    EntriesAt(b, j);
    MatchedCounts(EncEntries(a), EncEntries(b), j);
    MatchedCounts(MeanEntries(a), MeanEntries(b), j);
  }

  lemma MatchedCounts<T>(x: seq<T>, y: seq<T>, j: nat)
    requires x != [] && j < |y| && x[0] == y[j]
    ensures multiset(x) == multiset(y) <==> multiset(x[1..]) == multiset(Without(y, j))
  {
    HeadCounts(x);
    WithoutCounts(y, j);
    assert multiset(x) == multiset(x[1..]) + multiset{x[0]};
    assert multiset(y) == multiset(Without(y, j)) + multiset{y[j]} by { assert y[j] in multiset(y); }
  }

  // ---------------------------------------------------------------- the encoder's loops

  lemma {:induction false} ConcatMore(ss: seq<Bytes>, s: Bytes)
    ensures Concat(ss + [s]) == Concat(ss) + s
    decreases |ss|
  {
    if ss == [] {
      assert [] + [s] == [s];
      assert Concat([s]) == s + Concat([s][1..]);
    } else {
      assert (ss + [s])[1..] == ss[1..] + [s];
      ConcatMore(ss[1..], s);
      assert ss[0] + (Concat(ss[1..]) + s) == (ss[0] + Concat(ss[1..])) + s;
    }
  }

  lemma EncAllMore(vs: seq<Value>, i: nat)
    requires i < |vs|
    ensures EncAll(vs[..i + 1]) == EncAll(vs[..i]) + [Enc(vs[i])]
  {
    var a, b := EncAll(vs[..i + 1]), EncAll(vs[..i]) + [Enc(vs[i])];
    forall k | 0 <= k <= i ensures a[k] == b[k] {
      EncAllAt(vs[..i + 1], k);
      if k < i { EncAllAt(vs[..i], k); }
    }
  }

  lemma EncEntriesMore(es: seq<Entry>, i: nat)
    requires i < |es|
    ensures EncEntries(es[..i + 1]) == EncEntries(es[..i]) + [EncEntry(es[i])]
  {
    var a, b := EncEntries(es[..i + 1]), EncEntries(es[..i]) + [EncEntry(es[i])];
    forall k | 0 <= k <= i ensures a[k] == b[k] {
      EntriesAt(es[..i + 1], k);
      if k < i { EntriesAt(es[..i], k); }
    }
  }

  lemma OnceMore(ss: seq<Bytes>, e: Bytes)
    ensures Once(ss + [e]) == if e in Members(Once(ss)) then Once(ss) else Once(ss) + [e]
    ensures Members(Once(ss) + [e]) == Members(Once(ss)) + {e}
  {
    assert (ss + [e])[..|ss|] == ss;
  }

  method Encode(v: Value) returns (bytes: Bytes)
    ensures bytes == Enc(v)
    decreases v, 1
  {
    match v
    case Nil => bytes := Frame(110, []);
    case Bool(b) => bytes := Frame(98, [if b then 49 else 48]);
    case Int(i) => bytes := Frame(105, Integer(i));
    case Str(s) => bytes := Frame(115, s);
    case Blob(y) => bytes := Frame(121, y);
    case List(vs) =>
      var body := EncodeSequence(vs);
      bytes := Frame(108, body);
    case Set(vs) =>
      var members := EncodeMembers(vs);
      bytes := Frame(116, Concat(Sort(members)));
    case Map(es) =>
      var entries := EncodeEntries(es);
      bytes := Frame(109, Concat(Sort(entries)));
  }

  method EncodeSequence(vs: seq<Value>) returns (body: Bytes)
    ensures body == Concat(EncAll(vs))
    decreases vs
  {
    body := [];
    for i := 0 to |vs|
      invariant body == Concat(EncAll(vs[..i]))
    {
      var e := Encode(vs[i]);
      EncAllMore(vs, i);
      ConcatMore(EncAll(vs[..i]), e);
      body := body + e;
    }
    assert vs[..|vs|] == vs;
  }

  method EncodeMembers(vs: seq<Value>) returns (members: seq<Bytes>)
    ensures members == Once(EncAll(vs))
    decreases vs
  {
    members := [];
    var seen: set<Bytes> := {};
    for i := 0 to |vs|
      invariant members == Once(EncAll(vs[..i])) && seen == Members(members)
    {
      var e := Encode(vs[i]);
      EncAllMore(vs, i);
      OnceMore(EncAll(vs[..i]), e);
      if e !in seen {
        seen := seen + {e};
        members := members + [e];
      }
    }
    assert vs[..|vs|] == vs;
  }

  method EncodeEntries(es: seq<Entry>) returns (entries: seq<Bytes>)
    ensures entries == EncEntries(es)
    decreases es
  {
    entries := [];
    for i := 0 to |es|
      invariant entries == EncEntries(es[..i])
    {
      var e := EncodeEntry(es[i]);
      EncEntriesMore(es, i);
      entries := entries + [e];
    }
    assert es[..|es|] == es;
  }

  method EncodeEntry(e: Entry) returns (bytes: Bytes)
    ensures bytes == EncEntry(e)
    decreases e
  {
    var k := Encode(e.key);
    var x := Encode(e.value);
    bytes := k + x;
  }
}
