/**
  The canonical byte encoding: tagged, length-prefixed frames, with the members of sets and the entries of maps ordered
  by their own bytes.
 */
module Canonical {
  import opened Basics
  import opened TreeKeys

  type Bytes = seq<int>

  /** A value as the encoder meets it: sets and maps in whatever order they are walked. */
  datatype Value =
    | Nil
    | Bool(b: bool)
    | Int(i: int)
    | Str(s: Bytes)
    | Blob(y: Bytes)
    | List(elems: seq<Value>)
    | Set(members: seq<Value>)
    | Map(entries: seq<Entry>)

  datatype Entry = Entry(key: Value, value: Value)

  /** What a value means: order and repetition in a set, and order in a map, are not part of it. */
  datatype Meaning =
    | MNil
    | MBool(b: bool)
    | MInt(i: int)
    | MStr(s: Bytes)
    | MBlob(y: Bytes)
    | MList(elems: seq<Meaning>)
    | MSet(members: set<Meaning>)
    | MMap(entries: multiset<(Meaning, Meaning)>)

  function Mean(v: Value): Meaning
    decreases v
  {
    match v
    case Nil => MNil
    case Bool(b) => MBool(b)
    case Int(i) => MInt(i)
    case Str(s) => MStr(s)
    case Blob(y) => MBlob(y)
    case List(vs) => MList(MeanAll(vs))
    case Set(vs) => MSet(Members(MeanAll(vs)))
    case Map(es) => MMap(multiset(MeanEntries(es)))
  }

  function MeanAll(vs: seq<Value>): (r: seq<Meaning>)
    ensures |r| == |vs|
    decreases vs
  {
    if vs == [] then [] else [Mean(vs[0])] + MeanAll(vs[1..])
  }

  function MeanEntries(es: seq<Entry>): (r: seq<(Meaning, Meaning)>)
    ensures |r| == |es|
    decreases es
  {
    if es == [] then [] else [MeanEntry(es[0])] + MeanEntries(es[1..])
  }

  function MeanEntry(e: Entry): (Meaning, Meaning)
    decreases e
  {
    (Mean(e.key), Mean(e.value))
  }

  // ---------------------------------------------------------------- frames

  const COLON := 58
  const MINUS := 45

  /** Decimal digits. */
  function Dec(n: nat): (r: Bytes)
    ensures r != [] && forall i :: 0 <= i < |r| ==> 48 <= r[i] <= 57
  {
    if n < 10 then [48 + n] else Dec(n / 10) + [48 + n % 10]
  }

  function Integer(i: int): Bytes {
    if i < 0 then [MINUS] + Dec(-i) else Dec(i)
  }

  /** appendReplayFrame. */
  function Frame(tag: int, body: Bytes): Bytes {
    [tag] + Dec(|body|) + [COLON] + body
  }

  function Concat(ss: seq<Bytes>): Bytes {
    if ss == [] then [] else ss[0] + Concat(ss[1..])
  }

  // ---------------------------------------------------------------- order

  function Insert(s: Bytes, ss: seq<Bytes>): seq<Bytes> {
    if ss == [] then [s] else if Before(ss[0], s) then [ss[0]] + Insert(s, ss[1..]) else [s] + ss
  }

  /** sort.Strings: byte strings in lexicographic order. */
  function Sort(ss: seq<Bytes>): seq<Bytes> {
    if ss == [] then [] else Insert(ss[0], Sort(ss[1..]))
  }

  /** Each string once, at its first occurrence. */
  function Once(ss: seq<Bytes>): seq<Bytes> {
    if ss == [] then []
    else
      var before := Once(ss[..|ss| - 1]);
      if ss[|ss| - 1] in before then before else before + [ss[|ss| - 1]]
  }

  // ---------------------------------------------------------------- the encoding

  function Enc(v: Value): Bytes
    decreases v
  {
    match v
    case Nil => Frame(110, [])
    case Bool(b) => Frame(98, [if b then 49 else 48])
    case Int(i) => Frame(105, Integer(i))
    case Str(s) => Frame(115, s)
    case Blob(y) => Frame(121, y)
    case List(vs) => Frame(108, Concat(EncAll(vs)))
    case Set(vs) => Frame(116, Concat(Sort(Once(EncAll(vs)))))
    case Map(es) => Frame(109, Concat(Sort(EncEntries(es))))
  }

  function EncAll(vs: seq<Value>): (r: seq<Bytes>)
    ensures |r| == |vs|
    decreases vs
  {
    if vs == [] then [] else [Enc(vs[0])] + EncAll(vs[1..])
  }

  function EncEntries(es: seq<Entry>): (r: seq<Bytes>)
    ensures |r| == |es|
    decreases es
  {
    if es == [] then [] else [EncEntry(es[0])] + EncEntries(es[1..])
  }

  function EncEntry(e: Entry): Bytes
    decreases e
  {
    Enc(e.key) + Enc(e.value)
  }

  // ---------------------------------------------------------------- frames come apart one way

  lemma {:induction false} DecInjective(m: nat, n: nat)
    requires Dec(m) == Dec(n)
    ensures m == n
    decreases m
  {
    var a, b := Dec(m), Dec(n);
    assert m >= 10 <==> |a| > 1;
    assert n >= 10 <==> |b| > 1;
    assert a[|a| - 1] == b[|b| - 1];
    if m >= 10 && n >= 10 {
      assert a[..|a| - 1] == Dec(m / 10) && b[..|b| - 1] == Dec(n / 10);
      DecInjective(m / 10, n / 10);
    }
  }

  lemma IntegerInjective(i: int, j: int)
    requires Integer(i) == Integer(j)
    ensures i == j
  {
    assert i < 0 <==> Integer(i)[0] == MINUS;
    assert j < 0 <==> Integer(j)[0] == MINUS;
    if i < 0 {
      assert Integer(i)[1..] == Dec(-i) && Integer(j)[1..] == Dec(-j);
      DecInjective(-i, -j);
    } else {
      DecInjective(i, j);
    }
  }

  /** Two strings without a colon, each followed by one, are equal if what follows from there is. */
  lemma {:induction false} ColonSplits(a: Bytes, b: Bytes, x: Bytes, y: Bytes)
    requires a + [COLON] + x == b + [COLON] + y && COLON !in a && COLON !in b
    ensures a == b && x == y
  {
    if a == [] || b == [] {
      assert (a + [COLON] + x)[0] == (b + [COLON] + y)[0];
      assert a == [] && b == [];
      assert (a + [COLON] + x)[1..] == x && (b + [COLON] + y)[1..] == y;
    } else {
      assert (a + [COLON] + x)[0] == a[0] && (b + [COLON] + y)[0] == b[0];
      assert (a + [COLON] + x)[1..] == a[1..] + [COLON] + x && (b + [COLON] + y)[1..] == b[1..] + [COLON] + y;
      ColonSplits(a[1..], b[1..], x, y);
      assert a == [a[0]] + a[1..] && b == [b[0]] + b[1..];
    }
  }

  /** A frame at the front of a string is determined by the string. */
  lemma FrameSplits(t: int, a: Bytes, x: Bytes, u: int, b: Bytes, y: Bytes)
    requires Frame(t, a) + x == Frame(u, b) + y
    ensures t == u && a == b && x == y
  {
    var s := Frame(t, a) + x;
    assert s[0] == t && s[0] == u;
    assert s[1..] == Dec(|a|) + [COLON] + (a + x);
    assert s[1..] == Dec(|b|) + [COLON] + (b + y);
    ColonSplits(Dec(|a|), Dec(|b|), a + x, b + y);
    DecInjective(|a|, |b|);
    assert (a + x)[..|a|] == a && (b + y)[..|b|] == b;
    assert (a + x)[|a|..] == x && (b + y)[|b|..] == y;
  }

  ghost predicate IsFrame(s: Bytes) {
    exists t, body :: s == Frame(t, body)
  }

  lemma EncIsFrame(v: Value)
    ensures IsFrame(Enc(v))
  {
    match v
    case Nil => assert Enc(v) == Frame(110, []);
    case Bool(b) => assert Enc(v) == Frame(98, [if b then 49 else 48]);
    case Int(i) => assert Enc(v) == Frame(105, Integer(i));
    case Str(s) => assert Enc(v) == Frame(115, s);
    case Blob(y) => assert Enc(v) == Frame(121, y);
    case List(vs) => assert Enc(v) == Frame(108, Concat(EncAll(vs)));
    case Set(vs) => assert Enc(v) == Frame(116, Concat(Sort(Once(EncAll(vs)))));
    case Map(es) => assert Enc(v) == Frame(109, Concat(Sort(EncEntries(es))));
  }

  lemma HeadSplits(a: Bytes, x: Bytes, b: Bytes, y: Bytes)
    requires IsFrame(a) && IsFrame(b) && a + x == b + y
    ensures a == b && x == y
  {
    var t, body :| a == Frame(t, body);
    var u, c :| b == Frame(u, c);
    FrameSplits(t, body, x, u, c, y);
  }

  ghost predicate AllFrames(ss: seq<Bytes>) {
    forall i :: 0 <= i < |ss| ==> IsFrame(ss[i])
  }

  /** A concatenation of frames comes apart one way. */
  lemma {:induction false} FramesSplit(a: seq<Bytes>, b: seq<Bytes>)
    requires AllFrames(a) && AllFrames(b) && Concat(a) == Concat(b)
    ensures a == b
    decreases |a|
  {
    ConcatNotEmpty(a);
    ConcatNotEmpty(b);
    if a != [] {
      HeadSplits(a[0], Concat(a[1..]), b[0], Concat(b[1..]));
      FramesSplit(a[1..], b[1..]);
      assert a == [a[0]] + a[1..] && b == [b[0]] + b[1..];
    }
  }

  lemma ConcatNotEmpty(ss: seq<Bytes>)
    requires AllFrames(ss)
    ensures Concat(ss) == [] <==> ss == []
  {
    if ss != [] {
      var t, body :| ss[0] == Frame(t, body);
      assert |Concat(ss)| >= |ss[0]| > 0;
    }
  }
}
