/**
 * The binary stream the scan record is serialised to, modelled as a sequence of
 * typed tokens: one token per primitive value, one token per element of a
 * buffer (so a buffer of length zero puts nothing in the stream, as with bytes).
 * Every numeric token stands for a value written or read through the
 * endianness-normalising path (operator<<, operator>>, WriteBufferFixEndianness,
 * ReadBufferFixEndianness); `RawByte` stands for a byte copied as is by
 * WriteBuffer / ReadBuffer. The byte patterns themselves are not modelled.
 */
module Stream {
  import opened Wrappers
  import opened Geometry

  newtype byte = x: int | 0 <= x < 0x100
  newtype uint32 = x: int | 0 <= x < 0x1_0000_0000
  newtype uint64 = x: int | 0 <= x < 0x1_0000_0000_0000_0000

  /** A serialised CMatrix (the legacy sensor-pose covariance). */
  datatype Matrix = Matrix(rows: nat, cols: nat, entries: seq<real>)

  datatype Token =
    | Float32(f: real)       // float, normalised byte order
    | Float64(d: real)       // double, normalised byte order
    | Int32(i: int)          // int, normalised byte order
    | UInt32(u: uint32)      // uint32_t, normalised byte order
    | UInt64(l: uint64)      // uint64_t (a timestamp), normalised byte order
    | Bool(b: bool)          // bool
    | RawByte(c: byte)       // a char copied without byte-order normalisation
    | Pose(pose: Pose3D)     // a serialised CPose3D
    | Mat(m: Matrix)         // a serialised CMatrix
    | Text(s: string)        // a std::string

  // Token constructors and extractors, used as function values for buffers.
  function Float32Token(x: real): Token { Float32(x) }
  function Int32Token(x: int): Token { Int32(x) }
  function RawByteToken(x: byte): Token { RawByte(x) }

  function AsFloat32(t: Token): Option<real> { if t.Float32? then Some(t.f) else None }
  function AsFloat64(t: Token): Option<real> { if t.Float64? then Some(t.d) else None }
  function AsInt32(t: Token): Option<int> { if t.Int32? then Some(t.i) else None }
  function AsUInt32(t: Token): Option<uint32> { if t.UInt32? then Some(t.u) else None }
  function AsUInt64(t: Token): Option<uint64> { if t.UInt64? then Some(t.l) else None }
  function AsBool(t: Token): Option<bool> { if t.Bool? then Some(t.b) else None }
  function AsRawByte(t: Token): Option<byte> { if t.RawByte? then Some(t.c) else None }
  function AsPose(t: Token): Option<Pose3D> { if t.Pose? then Some(t.pose) else None }
  function AsMatrix(t: Token): Option<Matrix> { if t.Mat? then Some(t.m) else None }
  function AsText(t: Token): Option<string> { if t.Text? then Some(t.s) else None }

  /** A value read from the front of a stream, and what is left after it. */
  datatype Parsed<T> = Parsed(value: T, rest: seq<Token>)

  /** Reads one value of the kind `kind` accepts; a missing or different token is a stream error. */
  function Take<T>(ts: seq<Token>, kind: Token -> Option<T>): Result<Parsed<T>>
  {
    if |ts| > 0 && kind(ts[0]).Some? then Ok(Parsed(kind(ts[0]).value, ts[1..]))
    else Err(StreamError)
  }

  /** Reading a token of the expected kind yields its value and the tokens after it. */
  lemma TakeFirst<T>(t: Token, rest: seq<Token>, kind: Token -> Option<T>)
    requires kind(t).Some?
    ensures Take([t] + rest, kind) == Ok(Parsed(kind(t).value, rest))
  {
    assert ([t] + rest)[0] == t;
    assert ([t] + rest)[1..] == rest;
  }

  /** Reads a buffer of n values of one kind. */
  function TakeMany<T>(ts: seq<Token>, n: nat, kind: Token -> Option<T>): (r: Result<Parsed<seq<T>>>)
    ensures r.Ok? ==> |r.value.value| == n && n <= |ts| && r.value.rest == ts[n..]
    ensures r.Err? ==> r.error == StreamError
    decreases n
  {
    if n == 0 then Ok(Parsed([], ts))
    else
      var x :- Take(ts, kind);
      var xs :- TakeMany(x.rest, n - 1, kind);
      Ok(Parsed([x.value] + xs.value, xs.rest))
  }

  /** The tokens a buffer of values is written as. */
  function Tokens<T>(xs: seq<T>, emit: T -> Token): seq<Token>
  {
    seq(|xs|, i requires 0 <= i < |xs| => emit(xs[i]))
  }

  /** Reading back a written buffer gives the values, and leaves what followed it. */
  lemma {:induction false} TakeManyTokens<T>(xs: seq<T>, emit: T -> Token, kind: Token -> Option<T>, rest: seq<Token>)
    requires forall x :: kind(emit(x)) == Some(x)
    ensures TakeMany(Tokens(xs, emit) + rest, |xs|, kind) == Ok(Parsed(xs, rest))
  {
    if xs != [] {
      var ts := Tokens(xs, emit) + rest;
      assert Tokens(xs, emit) == [emit(xs[0])] + Tokens(xs[1..], emit);
      assert ts == [emit(xs[0])] + (Tokens(xs[1..], emit) + rest);
      TakeManyTokens(xs[1..], emit, kind, rest);
      assert [xs[0]] + xs[1..] == xs;
    }
  }

  /** An input stream (CStream opened for reading): the tokens not yet consumed. */
  class InStream {
    var remaining: seq<Token>

    constructor (ts: seq<Token>)
      ensures remaining == ts
    {
      remaining := ts;
    }

    /** operator>> for one value. */
    method Read<T>(kind: Token -> Option<T>) returns (r: Result<T>)
      modifies this
      ensures var p := Take(old(remaining), kind);
        && (r.Ok? <==> p.Ok?)
        && (p.Ok? ==> r.value == p.value.value && remaining == p.value.rest)
        && (p.Err? ==> r == Err(StreamError) && remaining == old(remaining))
    {
      var p := Take(remaining, kind);
      if p.Ok? {
        r := Ok(p.value.value);
        remaining := p.value.rest;
      } else {
        r := Err(StreamError);
      }
    }

    /** ReadBuffer / ReadBufferFixEndianness of n values. */
    method ReadBuffer<T>(n: nat, kind: Token -> Option<T>) returns (r: Result<seq<T>>)
      modifies this
      ensures var p := TakeMany(old(remaining), n, kind);
        && (r.Ok? <==> p.Ok?)
        && (p.Ok? ==> r.value == p.value.value && remaining == p.value.rest)
        && (p.Err? ==> r == Err(StreamError) && remaining == old(remaining))
    {
      var p := TakeMany(remaining, n, kind);
      if p.Ok? {
        r := Ok(p.value.value);
        remaining := p.value.rest;
      } else {
        r := Err(StreamError);
      }
    }
  }

  /** An output stream (CStream opened for writing): the tokens written so far. */
  class OutStream {
    var written: seq<Token>

    constructor ()
      ensures written == []
    {
      written := [];
    }

    /** operator<< for one value. */
    method Write(t: Token)
      modifies this
      ensures written == old(written) + [t]
    {
      written := written + [t];
    }

    /** WriteBuffer / WriteBufferFixEndianness of a buffer of values. */
    method WriteBuffer<T>(xs: seq<T>, emit: T -> Token)
      modifies this
      ensures written == old(written) + Tokens(xs, emit)
    {
      written := written + Tokens(xs, emit);
    }
  }
}
