/** The reader object: a cursor over the frame, with the loops of the source. */
module MsgpackReader {
  import opened Basics
  import opened Msgpack

  class Reader {
    const buf: seq<byte>
    var pos: nat

    constructor (buf: seq<byte>)
      ensures this.buf == buf && pos == 0
    {
      this.buf, pos := buf, 0;
    }

    ghost predicate Valid()
      reads this
    {
      pos <= |buf|
    }

    /** What is left to read. */
    ghost function Left(): seq<byte>
      requires Valid()
      reads this
    {
      buf[pos..]
    }

    method Take(n: nat) returns (r: Option<seq<byte>>)
      requires Valid()
      modifies this
      ensures Valid()
      ensures n <= |old(Left())| ==> r == Some(old(Left())[..n]) && Left() == old(Left())[n..]
      ensures n > |old(Left())| ==> r == None
    {
      if pos + n > |buf| { return None; }
      r := Some(buf[pos..pos + n]);
      assert buf[pos..][..n] == buf[pos..pos + n] && buf[pos..][n..] == buf[pos + n..];
      pos := pos + n;
    }

    /** uintN: the loop that shifts bytes in. */
    method Uint(w: nat) returns (r: Option<nat>)
      requires Valid()
      modifies this
      ensures Valid()
      ensures var t := TakeUint(old(Left()), w); if t.None? then r == None
                                                 else r == Some(t.value.0) && Left() == t.value.1
    {
      var b := Take(w);
      if b.None? { return None; }
      var bs := b.value;
      var u: nat := 0;
      for i := 0 to |bs|
        invariant u == FromBig(bs[..i])
      {
        assert bs[..i + 1][..i] == bs[..i];
        u := u * 256 + bs[i];
      }
      assert bs[..|bs|] == bs;
      r := Some(u);
    }

    /** The reader is where the parse left off. */
    ghost predicate Got(r: Option<Value>, p: Parsed)
      requires Valid()
      reads this
    {
      if p.None? then r == None else r == Some(p.value.0) && Left() == p.value.1
    }

    method Value() returns (r: Option<Value>)
      requires Valid()
      modifies this
      ensures Valid() && Got(r, Parse(old(Left())))
      decreases |buf| - pos, 0
    {
      ghost var before := Left();
      if pos + 1 > |buf| { return None; }
      var tag := buf[pos];
      pos := pos + 1;
      assert Left() == before[1..];
      r := Body(tag);
    }

    method Body(tag: int) returns (r: Option<Value>)
      requires Valid()
      modifies this
      ensures Valid() && Got(r, ParseBody(tag, old(Left())))
      decreases |buf| - pos, 3
    {
      if tag <= 0x7f { return Some(Num(tag)); }
      if tag >= 0xe0 { return Some(Num(tag - 0x100)); }
      if tag <= 0x8f {
        r := ObjBody(tag - 0x80);
      } else if tag <= 0x9f {
        r := ArrBody(tag - 0x90);
      } else if tag <= 0xbf {
        r := StrValue(tag - 0xa0);
      } else if tag == 0xdc || tag == 0xdd {
        r := LongArr(if tag == 0xdc then 2 else 4);
      } else if tag == 0xde || tag == 0xdf {
        r := LongObj(if tag == 0xde then 2 else 4);
      } else {
        r := Flat(tag);
      }
    }

    method LongArr(w: nat) returns (r: Option<Value>)
      requires Valid()
      modifies this
      ensures Valid() && Got(r, ParseLongArr(old(Left()), w))
      decreases |buf| - pos, 2
    {
      var n := Uint(w);
      if n.None? { return None; }
      r := ArrBody(n.value);
    }

    method LongObj(w: nat) returns (r: Option<Value>)
      requires Valid()
      modifies this
      ensures Valid() && Got(r, ParseLongObj(old(Left()), w))
      decreases |buf| - pos, 2
    {
      var n := Uint(w);
      if n.None? { return None; }
      r := ObjBody(n.value);
    }

    method StrValue(n: nat) returns (r: Option<Value>)
      requires Valid()
      modifies this
      ensures Valid() && Got(r, TakeStr(old(Left()), n))
    {
      var b := Take(n);
      r := if b.None? then None else Some(Str(b.value));
    }

    method Flat(tag: int) returns (r: Option<Value>)
      requires Valid()
      modifies this
      ensures Valid() && Got(r, ParseFlat(tag, old(Left())))
    {
      if tag == 0xc0 { return Some(Nil); }
      if tag == 0xc2 { return Some(Bool(false)); }
      if tag == 0xc3 { return Some(Bool(true)); }
      if 0xcc <= tag <= 0xcf {
        var u := Uint(if tag == 0xcc then 1 else if tag == 0xcd then 2 else if tag == 0xce then 4 else 8);
        return if u.None? then None else Some(Num(u.value));
      }
      if 0xd0 <= tag <= 0xd3 {
        var w := if tag == 0xd0 then 1 else if tag == 0xd1 then 2 else if tag == 0xd2 then 4 else 8;
        var u := Uint(w);
        return if u.None? then None else Some(Num(Signed(w, u.value)));
      }
      if 0xd9 <= tag <= 0xdb {
        var n := Uint(if tag == 0xd9 then 1 else if tag == 0xda then 2 else 4);
        if n.None? { return None; }
        r := StrValue(n.value);
        return;
      }
      return None;
    }

    method ArrBody(n: nat) returns (r: Option<Value>)
      requires Valid()
      modifies this
      ensures Valid() && Got(r, ParseArr(n, old(Left()), []))
      decreases |buf| - pos, 1
    {
      ghost var start := Left();
      var out: seq<Value> := [];
      for i := 0 to n
        invariant Valid() && |Left()| <= |start|
        invariant ParseArr(n - i, Left(), out) == ParseArr(n, start, [])
      {
        ghost var here := Left();
        var v := Value();
        if v.None? { return None; }
        out := out + [v.value];
      }
      r := Some(Arr(out));
    }

    method ObjBody(n: nat) returns (r: Option<Value>)
      requires Valid()
      modifies this
      ensures Valid() && Got(r, ParseObj(n, old(Left()), map[]))
      decreases |buf| - pos, 1
    {
      ghost var start := Left();
      var out: map<Text, Msgpack.Value> := map[];
      for i := 0 to n
        invariant Valid() && |Left()| <= |start|
        invariant ParseObj(n - i, Left(), out) == ParseObj(n, start, map[])
      {
        var key := Value();
        if key.None? || !key.value.Str? || key.value.s in out { return None; }
        var v := Value();
        if v.None? { return None; }
        out := out[key.value.s := v.value];
      }
      r := Some(Obj(out));
    }
  }

  /** msgpackDecodeValue. */
  method DecodeFrame(data: seq<byte>) returns (r: Option<Value>)
    ensures r == Decode(data)
  {
    var reader := new Reader(data);
    assert reader.Left() == data;
    r := reader.Value();
    if r.Some? && reader.pos != |reader.buf| { r := None; }
  }
}
