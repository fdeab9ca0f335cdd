/**
  The client's binary read cursor over an inbound packet: a byte sequence and
  an offset. Every read either yields its value and the bytes that remain after
  it, or fails because too few bytes remain. Multi-byte integers are
  big-endian; an IString is a one-byte length followed by that many bytes.

  The pure readers below take the bytes from the cursor's offset on; the
  cursor class steps its offset past what a reader consumed.
*/
module Cursor {
  import opened Util

  /** A successful read: the value and the bytes after it. */
  datatype Read<+T> = Read(value: T, rest: seq<byte>)

  function Pow256(w: nat): (r: nat)
    ensures r >= 1
  {
    if w == 0 then 1 else 256 * Pow256(w - 1)
  }

  /** The unsigned value of a big-endian byte string. */
  function BigEndian(s: seq<byte>): nat
  {
    if s == [] then 0 else BigEndian(s[..|s| - 1]) * 256 + s[|s| - 1]
  }

  /** A `w`-byte big-endian value is below 256 to the power `w`. */
  lemma {:induction false} BigEndianBound(s: seq<byte>)
    ensures BigEndian(s) < Pow256(|s|)
  {
    if s != [] {
      BigEndianBound(s[..|s| - 1]);
      assert Pow256(|s|) == 256 * Pow256(|s| - 1);
    }
  }

  /** The `w`-byte big-endian encoding of `v`, the writer's mirror of a read. */
  function EncodeUint(v: nat, w: nat): (r: seq<byte>)
    ensures |r| == w
  {
    if w == 0 then [] else EncodeUint(v / 256, w - 1) + [(v % 256)]
  }

  lemma DivPow256(v: nat, w: nat)
    requires 0 < w && v < Pow256(w)
    ensures v / 256 < Pow256(w - 1)
  {
    assert Pow256(w) == 256 * Pow256(w - 1);
  }

  lemma BigEndianSnoc(hi: seq<byte>, low: byte)
    ensures BigEndian(hi + [low]) == BigEndian(hi) * 256 + low
  {
    var s := hi + [low];
    assert s[..|s| - 1] == hi;
  }

  lemma {:induction false} BigEndianEncodeUint(v: nat, w: nat)
    requires v < Pow256(w)
    decreases w
    ensures BigEndian(EncodeUint(v, w)) == v
  {
    if w > 0 {
      DivPow256(v, w);
      BigEndianEncodeUint(v / 256, w - 1);
      BigEndianSnoc(EncodeUint(v / 256, w - 1), v % 256);
    }
  }

  /** `n` raw bytes. */
  function BytesOf(t: seq<byte>, n: nat): (r: Option<Read<seq<byte>>>)
    ensures r.Some? <==> n <= |t|
    ensures r.Some? ==> r.value.value == t[..n] && r.value.rest == t[n..]
  {
    if n <= |t| then Some(Read(t[..n], t[n..])) else None
  }

  /** A `w`-byte big-endian unsigned integer. */
  function UintOf(t: seq<byte>, w: nat): (r: Option<Read<nat>>)
    ensures r.Some? <==> w <= |t|
    ensures r.Some? ==> r.value.rest == t[w..]
  {
    match BytesOf(t, w)
    case None => None
    case Some(rd) => Some(Read(BigEndian(rd.value), rd.rest))
  }

  lemma UintOfBound(t: seq<byte>, w: nat)
    requires UintOf(t, w).Some?
    ensures UintOf(t, w).value.value < Pow256(w)
  {
    BigEndianBound(t[..w]);
  }

  /** One unsigned byte. */
  function Uint8Of(t: seq<byte>): (r: Option<Read<nat>>)
    ensures r.Some? <==> 1 <= |t|
    ensures r.Some? ==> r.value.rest == t[1..] && r.value.value < 256
  {
    match BytesOf(t, 1)
    case None => None
    case Some(rd) => Some(Read(rd.value[0], rd.rest))
  }

  function Uint64Of(t: seq<byte>): Option<Read<nat>>
  {
    UintOf(t, 8)
  }

  /** Two's-complement reading of one byte. */
  function SignedByte(b: nat): (r: int)
    requires b < 256
    ensures -128 <= r < 128
    ensures (r + 256) % 256 == b
  {
    if b >= 128 then b - 256 else b
  }

  function Int8Of(t: seq<byte>): (r: Option<Read<int>>)
    ensures r.Some? <==> 1 <= |t|
    ensures r.Some? ==> r.value.rest == t[1..] && -128 <= r.value.value < 128
  {
    match Uint8Of(t)
    case None => None
    case Some(rd) => Some(Read(SignedByte(rd.value), rd.rest))
  }

  /** A one-byte length, then that many bytes. */
  function IStringOf(t: seq<byte>): (r: Option<Read<seq<byte>>>)
    ensures r.Some? ==> 1 + |r.value.value| <= |t| && r.value.rest == t[1 + |r.value.value|..] && |r.value.value| < 256
  {
    match Uint8Of(t)
    case None => None
    case Some(len) => BytesOf(len.rest, len.value)
  }

  /** The two's-complement byte of a signed 8-bit value. */
  function EncodeInt8(x: int): (r: seq<byte>)
    requires -128 <= x < 128
    ensures |r| == 1
  {
    [if x < 0 then x + 256 else x]
  }

  function EncodeIString(name: seq<byte>): (r: seq<byte>)
    requires |name| < 256
    ensures |r| == 1 + |name|
  {
    [|name|] + name
  }

  /** Reading a `w`-byte integer from its encoding yields it and leaves what followed. */
  lemma UintOfEncoded(v: nat, w: nat, rest: seq<byte>)
    requires v < Pow256(w)
    ensures UintOf(EncodeUint(v, w) + rest, w) == Some(Read(v, rest))
  {
    var t := EncodeUint(v, w) + rest;
    assert t[..w] == EncodeUint(v, w);
    assert t[w..] == rest;
    BigEndianEncodeUint(v, w);
  }

  lemma Uint8OfEncoded(v: byte, rest: seq<byte>)
    ensures Uint8Of([v] + rest) == Some(Read(v, rest))
  {
    assert ([v] + rest)[1..] == rest;
  }

  lemma Int8OfEncoded(x: int, rest: seq<byte>)
    requires -128 <= x < 128
    ensures Int8Of(EncodeInt8(x) + rest) == Some(Read(x, rest))
  {
    Uint8OfEncoded(EncodeInt8(x)[0], rest);
  }

  lemma IStringOfEncoded(name: seq<byte>, rest: seq<byte>)
    requires |name| < 256
    ensures IStringOf(EncodeIString(name) + rest) == Some(Read(name, rest))
  {
    assert EncodeIString(name) + rest == [|name|] + (name + rest);
    Uint8OfEncoded(|name|, name + rest);
    assert (name + rest)[..|name|] == name;
    assert (name + rest)[|name|..] == rest;
  }

  /** The mutable cursor `buf` that the packet handlers read from. */
  class ByteCursor {
    const bytes: seq<byte>
    var offset: nat

    /** The bytes not yet read. */
    function Remaining(): seq<byte>
      reads this
      requires offset <= |bytes|
    {
      bytes[offset..]
    }

    constructor (bytes: seq<byte>)
      ensures this.bytes == bytes && offset == 0
    {
      this.bytes := bytes;
      offset := 0;
    }

    method ReadUint8() returns (r: Option<nat>)
      requires offset <= |bytes|
      modifies this
      ensures offset <= |bytes|
      ensures match Uint8Of(old(Remaining()))
              case None => r == None && offset == old(offset)
              case Some(rd) => r == Some(rd.value) && Remaining() == rd.rest
    {
      r := None;
      if offset + 1 <= |bytes| {
        var rd := Uint8Of(bytes[offset..]);
        assert bytes[offset..][1..] == bytes[offset + 1..];
        r, offset := Some(rd.value.value), offset + 1;
      }
    }

    method ReadUint64() returns (r: Option<nat>)
      requires offset <= |bytes|
      modifies this
      ensures offset <= |bytes|
      ensures match Uint64Of(old(Remaining()))
              case None => r == None && offset == old(offset)
              case Some(rd) => r == Some(rd.value) && Remaining() == rd.rest
    {
      r := None;
      if offset + 8 <= |bytes| {
        var rd := Uint64Of(bytes[offset..]);
        assert bytes[offset..][8..] == bytes[offset + 8..];
        r, offset := Some(rd.value.value), offset + 8;
      }
    }

    method ReadInt8() returns (r: Option<int>)
      requires offset <= |bytes|
      modifies this
      ensures offset <= |bytes|
      ensures match Int8Of(old(Remaining()))
              case None => r == None && offset == old(offset)
              case Some(rd) => r == Some(rd.value) && Remaining() == rd.rest
    {
      r := None;
      if offset + 1 <= |bytes| {
        var rd := Int8Of(bytes[offset..]);
        assert bytes[offset..][1..] == bytes[offset + 1..];
        r, offset := Some(rd.value.value), offset + 1;
      }
    }

    method ReadIString() returns (r: Option<seq<byte>>)
      requires offset <= |bytes|
      modifies this
      ensures offset <= |bytes|
      ensures match IStringOf(old(Remaining()))
              case None => r == None && offset == old(offset)
              case Some(rd) => r == Some(rd.value) && Remaining() == rd.rest
    {
      r := None;
      var rd := IStringOf(bytes[offset..]);
      if rd.Some? {
        var n := 1 + |rd.value.value|;
        assert bytes[offset..][n..] == bytes[offset + n..];
        r, offset := Some(rd.value.value), offset + n;
      }
    }
  }
}
