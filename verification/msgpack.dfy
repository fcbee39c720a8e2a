/** The MessagePack subset of the wire: nil, booleans, integers, strings, arrays and string-keyed maps. */
module Msgpack {
  import opened Basics
  import opened TreeKeys

  type byte = x: int | 0 <= x < 256

  type Text = seq<byte>

  datatype Value = Nil | Bool(b: bool) | Num(n: int) | Str(s: Text) | Arr(elems: seq<Value>)
          | Obj(fields: map<Text, Value>)

  // ---------------------------------------------------------------- big-endian integers

  function Pow(w: nat): (p: nat)
    ensures p >= 1
  {
    if w == 0 then 1 else 256 * Pow(w - 1)
  }

  function Big(w: nat, n: nat): (r: seq<byte>)
    ensures |r| == w
  {
    if w == 0 then [] else Big(w - 1, n / 256) + [n % 256]
  }

  /** uintN. */
  function FromBig(bs: seq<byte>): nat {
    if bs == [] then 0 else FromBig(bs[..|bs| - 1]) * 256 + bs[|bs| - 1]
  }

  lemma {:induction false} BigRoundTrip(w: nat, n: nat)
    requires n < Pow(w)
    ensures FromBig(Big(w, n)) == n
  {
    if w > 0 {
      BigRoundTrip(w - 1, n / 256);
      assert Big(w, n)[..w - 1] == Big(w - 1, n / 256);
    }
  }

  lemma Powers()
    ensures Pow(1) == 0x100 && Pow(2) == 0x1_0000 && Pow(4) == 0x1_0000_0000 && Pow(8) == 0x1_0000_0000_0000_0000
  {
    assert Pow(0) == 1 && Pow(3) == 0x100_0000 && Pow(5) == 0x100_0000_0000 && Pow(6) == 0x1_0000_0000_0000
           && Pow(7) == 0x100_0000_0000_0000;
  }

  /** Two's complement at width `w` bytes. */
  function Signed(w: nat, u: nat): int {
    if 2 * u >= Pow(w) then u - Pow(w) else u
  }

  // ---------------------------------------------------------------- keys in order

  ghost function LeastKey(s: set<Text>): (m: Text)
    requires s != {}
    ensures m in s && forall x :: x in s ==> !Before(x, m)
    decreases |s|
  {
    var x :| x in s;
    BeforeTotal(x, x);
    if s == {x} then x
    else
      var k := LeastKey(s - {x});
      LeastOfTwo(s, x, k);
      if Before(x, k) then x else k
  }

  lemma LeastOfTwo(s: set<Text>, x: Text, k: Text)
    requires x in s && forall y :: y in s - {x} ==> !Before(y, k)
    ensures Before(x, k) ==> forall y :: y in s ==> !Before(y, x)
    ensures !Before(x, k) ==> forall y :: y in s ==> !Before(y, k)
  {
    if Before(x, k) {
      forall y | y in s ensures !Before(y, x) {
        BeforeTotal(x, x);
        if y != x && Before(y, x) {
          assert y in s - {x};
          BeforeTrans(y, x, k);
        }
      }
    }
  }

  function Least(s: set<Text>): (m: Text)
    requires s != {}
    ensures m in s && forall x :: x in s ==> !Before(x, m)
  {
    ghost var k := LeastKey(s);
    assert k in s && forall x :: x in s ==> !Before(x, k);
    assert forall a, b ::
           a in s && b in s && (forall x :: x in s ==> !Before(x, a)) && (forall x :: x in s ==> !Before(x, b)) ==>
           a == b by {
      forall a, b | a in s && b in s && (forall x :: x in s ==> !Before(x, a)) && (forall x :: x in s ==> !Before(x, b))
          ensures a == b {
        BeforeTotal(a, b);
      }
    }
    var m :| m in s && forall x :: x in s ==> !Before(x, m);
    m
  }

  /** sort.Strings over the keys of a map. */
  function SortedKeys(s: set<Text>): (r: seq<Text>)
    ensures Members(r) == s
    decreases |s|
  {
    if s == {} then []
    else
      var m := Least(s);
      var rest := SortedKeys(s - {m});
      assert Members([m] + rest) == {m} + Members(rest);
      [m] + rest
  }

  lemma {:induction false} SortedKeysOnce(s: set<Text>)
    ensures |SortedKeys(s)| == |s| && Distinct(SortedKeys(s))
    decreases |s|
  {
    if s != {} {
      var m := Least(s);
      SortedKeysOnce(s - {m});
      var rest := SortedKeys(s - {m});
      forall i | 0 <= i < |rest| ensures rest[i] != m { assert rest[i] in Members(rest); }
    }
  }

  // ---------------------------------------------------------------- encoding

  function EncUint(u: nat): seq<byte> {
    if u < 0x80 then [u]
    else if u <= 0xff then [0xcc] + Big(1, u)
    else if u <= 0xffff then [0xcd] + Big(2, u)
    else if u <= 0xffff_ffff then [0xce] + Big(4, u)
    else [0xcf] + Big(8, u)
  }

  const MIN_INT := -0x8000_0000_0000_0000
  const MAX_UINT := 0xffff_ffff_ffff_ffff

  /** msgpackAppendNumber, over integers: what neither int64 nor uint64 holds is refused. */
  function EncNum(i: int): Option<seq<byte>> {
    if i > MAX_UINT || i < MIN_INT then None
    else if i >= 0 then Some(EncUint(i))
    else if i >= -32 then Some([256 + i])
    else if i >= -0x80 then Some([0xd0] + Big(1, i + 0x100))
    else if i >= -0x8000 then Some([0xd1] + Big(2, i + 0x1_0000))
    else if i >= -0x8000_0000 then Some([0xd2] + Big(4, i + 0x1_0000_0000))
    else Some([0xd3] + Big(8, i + 0x1_0000_0000_0000_0000))
  }

  const LENGTHS := 0x1_0000_0000

  /** A length past 32 bits is cut down to them. */
  function EncStr(s: Text): seq<byte> {
    var n := |s|;
    (if n < 32 then [0xa0 + n]
     else if n <= 0xff then [0xd9] + Big(1, n)
     else if n <= 0xffff then [0xda] + Big(2, n)
     else [0xdb] + Big(4, n % LENGTHS)) + s
  }

  function ArrHeader(n: nat): seq<byte> {
    if n < 16 then [0x90 + n] else if n <= 0xffff then [0xdc] + Big(2, n) else [0xdd] + Big(4, n % LENGTHS)
  }

  function ObjHeader(n: nat): seq<byte> {
    if n < 16 then [0x80 + n] else if n <= 0xffff then [0xde] + Big(2, n) else [0xdf] + Big(4, n % LENGTHS)
  }

  function Join(a: Option<seq<byte>>, b: Option<seq<byte>>): Option<seq<byte>> {
    if a.Some? && b.Some? then Some(a.value + b.value) else None
  }

  /** msgpackAppend. */
  function Enc(v: Value): Option<seq<byte>>
    decreases v, 0
  {
    match v
    case Nil => Some([0xc0])
    case Bool(b) => Some([if b then 0xc3 else 0xc2])
    case Num(n) => EncNum(n)
    case Str(s) => Some(EncStr(s))
    case Arr(vs) => Join(Some(ArrHeader(|vs|)), EncAll(v, vs))
    case Obj(m) => Join(Some(ObjHeader(|m|)), EncFields(v, m, SortedKeys(m.Keys)))
  }

  function EncAll(parent: Value, vs: seq<Value>): Option<seq<byte>>
    requires forall i :: 0 <= i < |vs| ==> vs[i] < parent
    decreases parent, 0, |vs|
  {
    if vs == [] then Some([]) else Join(Enc(vs[0]), EncAll(parent, vs[1..]))
  }

  function EncFields(parent: Value, m: map<Text, Value>, keys: seq<Text>): Option<seq<byte>>
    requires forall k :: k in m ==> m[k] < parent
    requires Members(keys) <= m.Keys
    decreases parent, 0, |keys|
  {
    if keys == [] then Some([])
    else
      assert keys[0] in Members(keys);
      Join(Join(Some(EncStr(keys[0])), Enc(m[keys[0]])), EncFields(parent, m, keys[1..]))
  }

  // ---------------------------------------------------------------- decoding

  /** A value with the bytes after it, or nothing for a frame the reader rejects. */
  type Parsed = Option<(Value, seq<byte>)>

  /** uintN followed by the rest. */
  function TakeUint(bs: seq<byte>, w: nat): Option<(nat, seq<byte>)> {
    if |bs| < w then None else Some((FromBig(bs[..w]), bs[w..]))
  }

  function TakeStr(bs: seq<byte>, n: nat): Parsed {
    if |bs| < n then None else Some((Str(bs[..n]), bs[n..]))
  }

  function UintBody(bs: seq<byte>, w: nat): Parsed {
    match TakeUint(bs, w)
    case None => None
    case Some((u, rest)) => Some((Num(u), rest))
  }

  function IntBody(bs: seq<byte>, w: nat): Parsed {
    match TakeUint(bs, w)
    case None => None
    case Some((u, rest)) => Some((Num(Signed(w, u)), rest))
  }

  function StrBody(bs: seq<byte>, w: nat): Parsed {
    match TakeUint(bs, w)
    case None => None
    case Some((n, rest)) => TakeStr(rest, n)
  }

  /** msgpackReader.value. */
  function Parse(bs: seq<byte>): (r: Parsed)
    ensures r.Some? ==> |r.value.1| < |bs|
    decreases |bs|, 0
  {
    if bs == [] then None else ParseBody(bs[0], bs[1..])
  }

  /** The value after its first byte. */
  function ParseBody(tag: int, rest: seq<byte>): (r: Parsed)
    ensures r.Some? ==> |r.value.1| <= |rest|
    decreases |rest|, 3
  {
    if tag <= 0x7f then Some((Num(tag), rest))
    else if tag >= 0xe0 then Some((Num(tag - 0x100), rest))
    else if tag <= 0x8f then ParseObj(tag - 0x80, rest, map[])
    else if tag <= 0x9f then ParseArr(tag - 0x90, rest, [])
    else if tag <= 0xbf then TakeStr(rest, tag - 0xa0)
    else if tag == 0xdc || tag == 0xdd then ParseLongArr(rest, if tag == 0xdc then 2 else 4)
    else if tag == 0xde || tag == 0xdf then ParseLongObj(rest, if tag == 0xde then 2 else 4)
    else ParseFlat(tag, rest)
  }

  /** The formats that hold no other value. */
  function ParseFlat(tag: int, rest: seq<byte>): (r: Parsed)
    ensures r.Some? ==> |r.value.1| <= |rest|
  {
    if tag == 0xc0 then Some((Nil, rest))
    else if tag == 0xc2 then Some((Bool(false), rest))
    else if tag == 0xc3 then Some((Bool(true), rest))
    else if tag == 0xcc then UintBody(rest, 1)
    else if tag == 0xcd then UintBody(rest, 2)
    else if tag == 0xce then UintBody(rest, 4)
    else if tag == 0xcf then UintBody(rest, 8)
    else if tag == 0xd0 then IntBody(rest, 1)
    else if tag == 0xd1 then IntBody(rest, 2)
    else if tag == 0xd2 then IntBody(rest, 4)
    else if tag == 0xd3 then IntBody(rest, 8)
    else if tag == 0xd9 then StrBody(rest, 1)
    else if tag == 0xda then StrBody(rest, 2)
    else if tag == 0xdb then StrBody(rest, 4)
    else None
  }

  function ParseLongArr(rest: seq<byte>, w: nat): (r: Parsed)
    ensures r.Some? ==> |r.value.1| <= |rest|
    decreases |rest|, 2
  {
    match TakeUint(rest, w)
    case None => None
    case Some((n, rest1)) => ParseArr(n, rest1, [])
  }

  function ParseLongObj(rest: seq<byte>, w: nat): (r: Parsed)
    ensures r.Some? ==> |r.value.1| <= |rest|
    decreases |rest|, 2
  {
    match TakeUint(rest, w)
    case None => None
    case Some((n, rest1)) => ParseObj(n, rest1, map[])
  }

  /** arrayBody. */
  function ParseArr(n: nat, bs: seq<byte>, out: seq<Value>): (r: Parsed)
    ensures r.Some? ==> |r.value.1| <= |bs|
    decreases |bs|, 1
  {
    if n == 0 then Some((Arr(out), bs))
    else
      match Parse(bs)
      case None => None
      case Some((v, rest)) => ParseArr(n - 1, rest, out + [v])
  }

  /** mapBody: keys are strings, each once. */
  function ParseObj(n: nat, bs: seq<byte>, out: map<Text, Value>): (r: Parsed)
    ensures r.Some? ==> |r.value.1| <= |bs|
    decreases |bs|, 1
  {
    if n == 0 then Some((Obj(out), bs))
    else
      match Parse(bs)
      case None => None
      case Some((key, rest)) =>
        if !key.Str? || key.s in out then None
        else
          match Parse(rest)
          case None => None
          case Some((v, rest1)) => ParseObj(n - 1, rest1, out[key.s := v])
  }

  /** msgpackDecodeValue: nothing may follow the value. */
  function Decode(bs: seq<byte>): Option<Value> {
    match Parse(bs)
    case None => None
    case Some((v, rest)) => if rest == [] then Some(v) else None
  }
}
