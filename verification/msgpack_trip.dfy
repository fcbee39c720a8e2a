/** Decoding undoes encoding, whatever follows. */
module MsgpackTrip {
  import opened Basics
  import opened Msgpack

  /** Integers of 64 bits and lengths of 32. */
  predicate Fits(v: Value)
    decreases v, 0
  {
    match v
    case Nil => true
    case Bool(_) => true
    case Num(n) => MIN_INT <= n <= MAX_UINT
    case Str(s) => |s| < LENGTHS
    case Arr(vs) => |vs| < LENGTHS && forall i :: 0 <= i < |vs| ==> Fits(vs[i])
    case Obj(m) => |m| < LENGTHS && forall k :: k in m ==> |k| < LENGTHS && Fits(m[k])
  }

  // ---------------------------------------------------------------- leaves

  lemma TakeBig(w: nat, n: nat, tail: seq<byte>)
    requires n < Pow(w)
    ensures TakeUint(Big(w, n) + tail, w) == Some((n, tail))
  {
    BigRoundTrip(w, n);
    assert (Big(w, n) + tail)[..w] == Big(w, n) && (Big(w, n) + tail)[w..] == tail;
  }

  lemma Tagged(bs: seq<byte>, tag: byte, body: seq<byte>)
    requires bs == [tag] + body
    ensures Parse(bs) == ParseBody(tag, body)
  {
    assert bs[1..] == body;
  }

  lemma ArrTurns(n: nat, bs: seq<byte>, out: seq<Value>, v: Value, rest: seq<byte>)
    requires n > 0 && Parse(bs) == Some((v, rest))
    ensures ParseArr(n, bs, out) == ParseArr(n - 1, rest, out + [v])
  {
  }

  lemma ObjTurns(n: nat, bs: seq<byte>, out: map<Text, Value>, k: Text, rest: seq<byte>, v: Value, rest1: seq<byte>)
    requires n > 0 && Parse(bs) == Some((Str(k), rest)) && k !in out && Parse(rest) == Some((v, rest1))
    ensures ParseObj(n, bs, out) == ParseObj(n - 1, rest1, out[k := v])
  {
  }

  function UintWidth(u: nat): nat {
    if u <= 0xff then 1 else if u <= 0xffff then 2 else if u <= 0xffff_ffff then 4 else 8
  }

  function UintTag(u: nat): byte {
    if u <= 0xff then 0xcc else if u <= 0xffff then 0xcd else if u <= 0xffff_ffff then 0xce else 0xcf
  }

  lemma UintFlat(u: nat, body: seq<byte>)
    ensures ParseBody(UintTag(u), body) == UintBody(body, UintWidth(u))
  {
    assert ParseBody(UintTag(u), body) == ParseFlat(UintTag(u), body);
  }

  lemma UintTrip(u: nat, tail: seq<byte>)
    requires u <= MAX_UINT
    ensures Parse(EncUint(u) + tail) == Some((Num(u), tail))
  {
    if u < 0x80 {
      Tagged(EncUint(u) + tail, u, tail);
    } else {
      Powers();
      assert EncUint(u) == [UintTag(u)] + Big(UintWidth(u), u);
      TakeBig(UintWidth(u), u, tail);
      Assoc([UintTag(u)], Big(UintWidth(u), u), tail);
      Tagged(EncUint(u) + tail, UintTag(u), Big(UintWidth(u), u) + tail);
      UintFlat(u, Big(UintWidth(u), u) + tail);
    }
  }

  lemma Assoc<T>(a: seq<T>, b: seq<T>, c: seq<T>)
    ensures a + b + c == a + (b + c)
  {
  }

  lemma NegativeTrip(i: int, tail: seq<byte>)
    requires MIN_INT <= i < 0
    ensures EncNum(i).Some? && Parse(EncNum(i).value + tail) == Some((Num(i), tail))
  {
    Powers();
    if i >= -32 {
      Tagged(EncNum(i).value + tail, 256 + i, tail);
    } else {
      var w := if i >= -0x80 then 1 else if i >= -0x8000 then 2 else if i >= -0x8000_0000 then 4 else 8;
      var tag := EncNum(i).value[0];
      assert EncNum(i).value == [tag] + Big(w, i + Pow(w));
      TakeBig(w, i + Pow(w), tail);
      Tagged(EncNum(i).value + tail, tag, Big(w, i + Pow(w)) + tail);
    }
  }

  lemma StrTrip(s: Text, tail: seq<byte>)
    requires |s| < LENGTHS
    ensures Parse(EncStr(s) + tail) == Some((Str(s), tail))
  {
    var n := |s|;
    assert (s + tail)[..n] == s && (s + tail)[n..] == tail;
    if n < 32 { Tagged(EncStr(s) + tail, 0xa0 + n, s + tail); } else { LongStrTrip(s, tail); }
  }

  lemma LongStrTrip(s: Text, tail: seq<byte>)
    requires 32 <= |s| < LENGTHS && (s + tail)[..|s|] == s && (s + tail)[|s|..] == tail
    ensures Parse(EncStr(s) + tail) == Some((Str(s), tail))
  {
    Powers();
    var n := |s|;
    var w := if n <= 0xff then 1 else if n <= 0xffff then 2 else 4;
    var tag := EncStr(s)[0];
    assert EncStr(s) + tail == [tag] + (Big(w, n) + (s + tail));
    TakeBig(w, n, s + tail);
    Tagged(EncStr(s) + tail, tag, Big(w, n) + (s + tail));
  }

  lemma LongArr(w: nat, body: seq<byte>)
    requires w == 2 || w == 4
    ensures ParseBody(if w == 2 then 0xdc else 0xdd, body) == ParseLongArr(body, w)
  {
  }

  lemma LongObj(w: nat, body: seq<byte>)
    requires w == 2 || w == 4
    ensures ParseBody(if w == 2 then 0xde else 0xdf, body) == ParseLongObj(body, w)
  {
  }

  function LongWidth(n: nat): nat {
    if n <= 0xffff then 2 else 4
  }

  lemma LongHead(bs: seq<byte>, tag: byte, n: nat, tail: seq<byte>)
    requires 16 <= n < LENGTHS && bs == [tag] + Big(LongWidth(n), n)
    ensures Parse(bs + tail) == ParseBody(tag, Big(LongWidth(n), n) + tail)
    ensures TakeUint(Big(LongWidth(n), n) + tail, LongWidth(n)) == Some((n, tail))
  {
    Powers();
    TakeBig(LongWidth(n), n, tail);
    Assoc([tag], Big(LongWidth(n), n), tail);
    Tagged(bs + tail, tag, Big(LongWidth(n), n) + tail);
  }

  lemma ArrHead(n: nat, tail: seq<byte>)
    requires n < LENGTHS
    ensures Parse(ArrHeader(n) + tail) == ParseArr(n, tail, [])
  {
    if n < 16 {
      Tagged(ArrHeader(n) + tail, 0x90 + n, tail);
    } else {
      LongHead(ArrHeader(n), if n <= 0xffff then 0xdc else 0xdd, n, tail);
      LongArr(LongWidth(n), Big(LongWidth(n), n) + tail);
    }
  }

  lemma ObjHead(n: nat, tail: seq<byte>)
    requires n < LENGTHS
    ensures Parse(ObjHeader(n) + tail) == ParseObj(n, tail, map[])
  {
    if n < 16 {
      Tagged(ObjHeader(n) + tail, 0x80 + n, tail);
    } else {
      LongHead(ObjHeader(n), if n <= 0xffff then 0xde else 0xdf, n, tail);
      LongObj(LongWidth(n), Big(LongWidth(n), n) + tail);
    }
  }

  // ---------------------------------------------------------------- trees

  /** For every tree that fits, decoding its encoding followed by anything yields the tree and leaves exactly that. */
  lemma {:induction false} RoundTrip(v: Value, tail: seq<byte>)
    requires Fits(v)
    ensures Enc(v).Some? && Parse(Enc(v).value + tail) == Some((v, tail))
    decreases v, 0
  {
    match v
    case Nil => Tagged([0xc0] + tail, 0xc0, tail);
    case Bool(b) => Tagged([if b then 0xc3 else 0xc2] + tail, if b then 0xc3 else 0xc2, tail);
    case Num(n) => if n >= 0 { UintTrip(n, tail); } else { NegativeTrip(n, tail); }
    case Str(s) => StrTrip(s, tail);
    case Arr(vs) =>
      ArrTrip(v, vs, tail);
    case Obj(m) =>
      ObjTrip(v, m, tail);
  }

  lemma {:induction false} ArrTrip(v: Value, vs: seq<Value>, tail: seq<byte>)
    requires v == Arr(vs) && Fits(v)
    ensures Enc(v).Some? && Parse(Enc(v).value + tail) == Some((v, tail))
    decreases v, 0, |vs| + 1
  {
    AllTrip(v, vs, tail, []);
    var body := EncAll(v, vs).value;
    assert ArrHeader(|vs|) + body + tail == ArrHeader(|vs|) + (body + tail);
    ArrHead(|vs|, body + tail);
    assert [] + vs == vs;
  }

  lemma {:induction false} ObjTrip(v: Value, m: map<Text, Value>, tail: seq<byte>)
    requires v == Obj(m) && Fits(v)
    ensures Enc(v).Some? && Parse(Enc(v).value + tail) == Some((v, tail))
    decreases v, 0, |m| + 1
  {
    var keys := SortedKeys(m.Keys);
    SortedKeysOnce(m.Keys);
    assert |m.Keys| == |m|;
    FieldsTrip(v, m, keys, tail, map[]);
    var body := EncFields(v, m, keys).value;
    assert ObjHeader(|m|) + body + tail == ObjHeader(|m|) + (body + tail);
    ObjHead(|m|, body + tail);
    AllPicked(m, keys);
  }

  lemma AllPicked(m: map<Text, Value>, keys: seq<Text>)
    requires Members(keys) == m.Keys
    ensures map[] + Picked(m, keys) == m
  {
    forall k | k in m ensures k in keys { assert k in Members(keys); }
  }

  lemma EncAllTurns(parent: Value, vs: seq<Value>)
    requires vs != [] && forall i :: 0 <= i < |vs| ==> vs[i] < parent
    ensures EncAll(parent, vs) == Join(Enc(vs[0]), EncAll(parent, vs[1..]))
  {
  }

  lemma EncFieldsTurns(parent: Value, m: map<Text, Value>, keys: seq<Text>)
    requires keys != [] && (forall k :: k in m ==> m[k] < parent) && Members(keys) <= m.Keys && keys[0] in m
             && Members(keys[1..]) <= m.Keys
    ensures EncFields(parent, m, keys) == Join(Join(Some(EncStr(keys[0])), Enc(m[keys[0]])),
            EncFields(parent, m, keys[1..]))
  {
  }

  /** `bytes` is the encoding of `vs`, and reads back after `out` with anything behind it. */
  ghost predicate ArrReads(bytes: Option<seq<byte>>, vs: seq<Value>, tail: seq<byte>, out: seq<Value>) {
    bytes.Some? && ParseArr(|vs|, bytes.value + tail, out) == Some((Arr(out + vs), tail))
  }

  lemma {:induction false} AllTrip(parent: Value, vs: seq<Value>, tail: seq<byte>, out: seq<Value>)
    requires forall i :: 0 <= i < |vs| ==> vs[i] < parent && Fits(vs[i])
    ensures ArrReads(EncAll(parent, vs), vs, tail, out)
    decreases parent, 0, |vs|
  {
    if vs == [] {
      assert out + vs == out;
      assert [] + tail == tail;
    } else {
      AllTrip(parent, vs[1..], tail, out + [vs[0]]);
      var more := EncAll(parent, vs[1..]);
      RoundTrip(vs[0], more.value + tail);
      EncAllTurns(parent, vs);
      ArrMore(Enc(vs[0]).value, more.value, vs, tail, out);
    }
  }

  lemma ArrMore(e: seq<byte>, more: seq<byte>, vs: seq<Value>, tail: seq<byte>, out: seq<Value>)
    requires vs != [] && Parse(e + (more + tail)) == Some((vs[0], more + tail))
             && ArrReads(Some(more), vs[1..], tail, out + [vs[0]])
    ensures ArrReads(Some(e + more), vs, tail, out)
  {
    Assoc(e, more, tail);
    ArrTurns(|vs|, e + more + tail, out, vs[0], more + tail);
    assert out + [vs[0]] + vs[1..] == out + vs;
  }

  /** The fields of `m` under some of its keys. */
  function Picked(m: map<Text, Value>, keys: seq<Text>): map<Text, Value> {
    map k | k in m && k in keys :: m[k]
  }

  ghost predicate ObjReads(bytes: Option<seq<byte>>, m: map<Text, Value>, keys: seq<Text>, tail: seq<byte>,
          out: map<Text, Value>) {
    bytes.Some? && ParseObj(|keys|, bytes.value + tail, out) == Some((Obj(out + Picked(m, keys)), tail))
  }

  lemma {:induction false} FieldsTrip(parent: Value, m: map<Text, Value>, keys: seq<Text>, tail: seq<byte>,
          out: map<Text, Value>)
    requires (forall k :: k in m ==> m[k] < parent && Fits(m[k]) && |k| < LENGTHS) && Members(keys) <= m.Keys
    requires Distinct(keys) && forall i :: 0 <= i < |keys| ==> keys[i] !in out
    ensures ObjReads(EncFields(parent, m, keys), m, keys, tail, out)
    decreases parent, 0, |keys|
  {
    if keys == [] {
      assert out + Picked(m, keys) == out;
      assert [] + tail == tail;
    } else {
      var k := keys[0];
      assert k in Members(keys);
      FieldsTrip(parent, m, keys[1..], tail, out[k := m[k]]);
      var more := EncFields(parent, m, keys[1..]);
      RoundTrip(m[k], more.value + tail);
      EncFieldsTurns(parent, m, keys);
      ObjMore(Enc(m[k]).value, more.value, m, keys, tail, out);
    }
  }

  lemma ObjMore(e: seq<byte>, more: seq<byte>, m: map<Text, Value>, keys: seq<Text>, tail: seq<byte>,
          out: map<Text, Value>)
    requires keys != [] && keys[0] in m && |keys[0]| < LENGTHS && Distinct(keys) && keys[0] !in out
    requires Parse(e + (more + tail)) == Some((m[keys[0]], more + tail))
             && ObjReads(Some(more), m, keys[1..], tail, out[keys[0] := m[keys[0]]])
    ensures ObjReads(Some(EncStr(keys[0]) + e + more), m, keys, tail, out)
  {
    FieldStep(|keys|, keys[0], e, more, tail, m[keys[0]], out);
    PickedStep(m, keys, out);
  }

  /** One key and its value. */
  lemma FieldStep(n: nat, k: Text, e: seq<byte>, more: seq<byte>, tail: seq<byte>, v: Value, out: map<Text, Value>)
    requires n > 0 && |k| < LENGTHS && k !in out && Parse(e + (more + tail)) == Some((v, more + tail))
    ensures ParseObj(n, EncStr(k) + e + more + tail, out) == ParseObj(n - 1, more + tail, out[k := v])
  {
    StrTrip(k, e + (more + tail));
    Assoc(EncStr(k) + e, more, tail);
    Assoc(EncStr(k), e, more + tail);
    ObjTurns(n, EncStr(k) + e + more + tail, out, k, e + (more + tail), v, more + tail);
  }

  lemma PickedStep(m: map<Text, Value>, keys: seq<Text>, out: map<Text, Value>)
    requires keys != [] && keys[0] in m && Distinct(keys)
    ensures out[keys[0] := m[keys[0]]] + Picked(m, keys[1..]) == out + Picked(m, keys)
  {
    assert keys == [keys[0]] + keys[1..];
    var a, b := out[keys[0] := m[keys[0]]] + Picked(m, keys[1..]), out + Picked(m, keys);
    assert a.Keys == b.Keys;
    forall k | k in a ensures a[k] == b[k] {}
  }

  /** A whole frame decodes to the value that was encoded. */
  lemma DecodeEncode(v: Value)
    requires Fits(v)
    ensures Enc(v).Some? && Decode(Enc(v).value) == Some(v)
  {
    RoundTrip(v, []);
    assert Enc(v).value + [] == Enc(v).value;
  }

  /** The encoder refuses exactly the trees that hold an integer past 64 bits. */
  predicate InRange(v: Value)
    decreases v, 0
  {
    match v
    case Num(n) => MIN_INT <= n <= MAX_UINT
    case Arr(vs) => forall i :: 0 <= i < |vs| ==> InRange(vs[i])
    case Obj(m) => forall k :: k in m ==> InRange(m[k])
    case _ => true
  }

  lemma {:induction false} EncDefined(v: Value)
    ensures Enc(v).Some? <==> InRange(v)
    decreases v, 0
  {
    match v
    case Arr(vs) => EncAllDefined(v, vs);
    case Obj(m) =>
      var keys := SortedKeys(m.Keys);
      EncFieldsDefined(v, m, keys);
      assert forall k :: k in m <==> k in Members(keys);
    case _ =>
  }

  lemma {:induction false} EncAllDefined(parent: Value, vs: seq<Value>)
    requires forall i :: 0 <= i < |vs| ==> vs[i] < parent
    ensures EncAll(parent, vs).Some? <==> forall i :: 0 <= i < |vs| ==> InRange(vs[i])
    decreases parent, 0, |vs|
  {
    if vs != [] {
      EncDefined(vs[0]);
      EncAllDefined(parent, vs[1..]);
      assert vs == [vs[0]] + vs[1..];
    }
  }

  lemma {:induction false} EncFieldsDefined(parent: Value, m: map<Text, Value>, keys: seq<Text>)
    requires (forall k :: k in m ==> m[k] < parent) && Members(keys) <= m.Keys
    ensures EncFields(parent, m, keys).Some? <==> forall k :: k in Members(keys) ==> InRange(m[k])
    decreases parent, 0, |keys|
  {
    if keys != [] {
      assert keys[0] in Members(keys);
      assert keys == [keys[0]] + keys[1..];
      assert Members(keys) == {keys[0]} + Members(keys[1..]);
      EncDefined(m[keys[0]]);
      EncFieldsDefined(parent, m, keys[1..]);
    }
  }
}
