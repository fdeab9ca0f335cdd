/**
  The server's packet buffers, at the level of the values put into them.

  The byte layout of the server's `ByteBuffer` (how a string, a float or a
  boolean is laid out) is not part of this model. A buffer is the sequence
  of values written into it, each one a token tagged with the width its
  writer used; reading takes tokens from the front and fails on a token of
  another kind or on an exhausted buffer.
*/
module Wire {
  import opened Util

  type uint16 = x: nat | x < TWO_16
  type uint32 = x: nat | x < TWO_32
  type int32 = x: int | -0x8000_0000 <= x < 0x8000_0000

  datatype Token =
    | TString(s: string)
    | TU8(u8: byte)
    | TU16(u16: uint16)
    | TU32(u32: uint32)
    | TI32(i32: int32)
    | TFloat(f: real)
    | TBool(b: bool)

  /** A value taken from the front of a token sequence, and the tokens after it. */
  datatype Taken<+T> = Taken(value: T, rest: seq<Token>)

  function U8Of(ts: seq<Token>): Option<Taken<byte>>
  {
    if |ts| > 0 && ts[0].TU8? then Some(Taken(ts[0].u8, ts[1..])) else None
  }

  function U16Of(ts: seq<Token>): Option<Taken<uint16>>
  {
    if |ts| > 0 && ts[0].TU16? then Some(Taken(ts[0].u16, ts[1..])) else None
  }

  function U32Of(ts: seq<Token>): Option<Taken<uint32>>
  {
    if |ts| > 0 && ts[0].TU32? then Some(Taken(ts[0].u32, ts[1..])) else None
  }

  function I32Of(ts: seq<Token>): Option<Taken<int32>>
  {
    if |ts| > 0 && ts[0].TI32? then Some(Taken(ts[0].i32, ts[1..])) else None
  }

  function StringOf(ts: seq<Token>): Option<Taken<string>>
  {
    if |ts| > 0 && ts[0].TString? then Some(Taken(ts[0].s, ts[1..])) else None
  }

  /** An outbound buffer: what has been written so far, in order. */
  class ByteBuffer {
    var tokens: seq<Token>

    constructor ()
      ensures tokens == []
    {
      tokens := [];
    }

    method WriteString(s: string)
      modifies this
      ensures tokens == old(tokens) + [TString(s)]
    {
      tokens := tokens + [TString(s)];
    }

    method WriteUInt8(v: byte)
      modifies this
      ensures tokens == old(tokens) + [TU8(v)]
    {
      tokens := tokens + [TU8(v)];
    }

    method WriteUInt16(v: uint16)
      modifies this
      ensures tokens == old(tokens) + [TU16(v)]
    {
      tokens := tokens + [TU16(v)];
    }

    method WriteUInt32(v: uint32)
      modifies this
      ensures tokens == old(tokens) + [TU32(v)]
    {
      tokens := tokens + [TU32(v)];
    }

    method WriteFloat(f: real)
      modifies this
      ensures tokens == old(tokens) + [TFloat(f)]
    {
      tokens := tokens + [TFloat(f)];
    }

    method WriteBoolean(b: bool)
      modifies this
      ensures tokens == old(tokens) + [TBool(b)]
    {
      tokens := tokens + [TBool(b)];
    }
  }

  /** An inbound buffer: the packet's tokens and the position of the next read. */
  class ReadBuffer {
    const tokens: seq<Token>
    var pos: nat

    /** The tokens not yet read. */
    function Remaining(): seq<Token>
      reads this
      requires pos <= |tokens|
    {
      tokens[pos..]
    }

    constructor (tokens: seq<Token>)
      ensures this.tokens == tokens && pos == 0
    {
      this.tokens := tokens;
      pos := 0;
    }

    method ReadUInt8() returns (r: Option<byte>)
      requires pos <= |tokens|
      modifies this
      ensures pos <= |tokens|
      ensures match U8Of(old(Remaining()))
              case None => r == None && pos == old(pos)
              case Some(tk) => r == Some(tk.value) && Remaining() == tk.rest
    {
      r := None;
      if pos < |tokens| && tokens[pos].TU8? {
        assert tokens[pos..][1..] == tokens[pos + 1..];
        r, pos := Some(tokens[pos].u8), pos + 1;
      }
    }

    method ReadUInt32() returns (r: Option<uint32>)
      requires pos <= |tokens|
      modifies this
      ensures pos <= |tokens|
      ensures match U32Of(old(Remaining()))
              case None => r == None && pos == old(pos)
              case Some(tk) => r == Some(tk.value) && Remaining() == tk.rest
    {
      r := None;
      if pos < |tokens| && tokens[pos].TU32? {
        assert tokens[pos..][1..] == tokens[pos + 1..];
        r, pos := Some(tokens[pos].u32), pos + 1;
      }
    }

    method ReadInt32() returns (r: Option<int32>)
      requires pos <= |tokens|
      modifies this
      ensures pos <= |tokens|
      ensures match I32Of(old(Remaining()))
              case None => r == None && pos == old(pos)
              case Some(tk) => r == Some(tk.value) && Remaining() == tk.rest
    {
      r := None;
      if pos < |tokens| && tokens[pos].TI32? {
        assert tokens[pos..][1..] == tokens[pos + 1..];
        r, pos := Some(tokens[pos].i32), pos + 1;
      }
    }

    method ReadString() returns (r: Option<string>)
      requires pos <= |tokens|
      modifies this
      ensures pos <= |tokens|
      ensures match StringOf(old(Remaining()))
              case None => r == None && pos == old(pos)
              case Some(tk) => r == Some(tk.value) && Remaining() == tk.rest
    {
      r := None;
      if pos < |tokens| && tokens[pos].TString? {
        assert tokens[pos..][1..] == tokens[pos + 1..];
        r, pos := Some(tokens[pos].s), pos + 1;
      }
    }
  }
}
