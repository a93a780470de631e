/**
 * writeToStream and readFromStream as step-by-step stream operations: each
 * value is written or read in the order the source does, and each method is
 * proved to produce exactly what the Codec functions describe.
 */
module Serializer {
  import opened Wrappers
  import opened Stream
  import opened Codec

  /**
   * Writes a record as version 7. The flags must have one entry per range, or
   * the write fails right after the header and N (ASSERT_ in the source).
   */
  method WriteRecord(out: OutStream, f: ScanFields) returns (r: Result<()>)
    requires |f.validRange| == |f.scan| && f.intensity != [] ==> |f.intensity| >= WrittenCount(f)
    modifies out
    ensures |f.validRange| == |f.scan| ==> r == Ok(()) && out.written == old(out.written) + Encoding(f)
    ensures |f.validRange| != |f.scan| ==>
      r == Err(AssertionFailed) && out.written == old(out.written) + WrittenHeader(f)
  {
    ghost var before := out.written;
    var n := |f.scan| % 0x1_0000_0000;
    WriteHeader(out, f);
    if |f.validRange| != |f.scan| {
      return Err(AssertionFailed);
    }
    ghost var afterHeader := out.written;
    if n > 0 {
      out.WriteBuffer(f.scan[..n], Float32Token);
      out.WriteBuffer(f.validRange[..n], RawByteToken);
    }
    ghost var buffers := Tokens(f.scan[..n], Float32Token) + Tokens(f.validRange[..n], RawByteToken);
    assert out.written == afterHeader + buffers;
    ghost var afterBuffers := out.written;
    WriteFields(out, f);
    ghost var afterFields := out.written;
    if f.intensity != [] {
      out.WriteBuffer(f.intensity[..n], Int32Token);
    }
    ghost var values := if f.intensity != [] then Tokens(f.intensity[..n], Int32Token) else [];
    assert out.written == afterFields + values;
    EncodingChunks(f, before, WrittenHeader(f), buffers, FieldTokens(f), values);
    r := Ok(());
  }

  /** aperture, rightToLeft, maxRange, sensorPose and N, one value at a time. */
  method WriteHeader(out: OutStream, f: ScanFields)
    modifies out
    ensures out.written == old(out.written) + WrittenHeader(f)
  {
    ghost var before := out.written;
    out.Write(Float32(f.aperture));
    out.Write(Bool(f.rightToLeft));
    assert out.written == before + [Float32(f.aperture), Bool(f.rightToLeft)];
    out.Write(Float32(f.maxRange));
    out.Write(Pose(f.sensorPose));
    assert out.written == before + [Float32(f.aperture), Bool(f.rightToLeft), Float32(f.maxRange), Pose(f.sensorPose)];
    var n := |f.scan| % 0x1_0000_0000;
    out.Write(UInt32(n as uint32));
  }

  /** stdError, timestamp, beamAperture, sensorLabel, deltaPitch and the has-intensity flag. */
  method WriteFields(out: OutStream, f: ScanFields)
    modifies out
    ensures out.written == old(out.written) + FieldTokens(f)
  {
    ghost var before := out.written;
    out.Write(Float32(f.stdError));
    out.Write(UInt64(f.timestamp));
    out.Write(Float32(f.beamAperture));
    assert out.written == before + [Float32(f.stdError), UInt64(f.timestamp), Float32(f.beamAperture)];
    out.Write(Text(f.sensorLabel));
    out.Write(Float64(f.deltaPitch));
    assert out.written == before + [Float32(f.stdError), UInt64(f.timestamp), Float32(f.beamAperture),
                                    Text(f.sensorLabel), Float64(f.deltaPitch)];
    out.Write(Bool(f.intensity != []));
  }

  /** The four chunks writeToStream appends, one after the other, make up the encoding. */
  lemma EncodingChunks(f: ScanFields, before: seq<Token>, header: seq<Token>, buffers: seq<Token>,
                       fields: seq<Token>, values: seq<Token>)
    requires |f.validRange| == |f.scan| && f.intensity != [] ==> |f.intensity| >= WrittenCount(f)
    requires |f.validRange| == |f.scan|
    requires header == WrittenHeader(f)
    requires buffers == Tokens(f.scan[..WrittenCount(f)], Float32Token)
                        + Tokens(f.validRange[..WrittenCount(f)], RawByteToken)
    requires fields == FieldTokens(f)
    requires values == if f.intensity != [] then Tokens(f.intensity[..WrittenCount(f)], Int32Token) else []
    ensures before + header + buffers + fields + values == before + Encoding(f)
  {
    var n := WrittenCount(f);
    var S := Tokens(f.scan[..n], Float32Token);
    var V := Tokens(f.validRange[..n], RawByteToken);
    assert Encoding(f) == header + S + V + fields + values;
    assert header + buffers == header + S + V;
  }

  /** Reads aperture, rightToLeft, maxRange, sensorPose, the covariance matrix when present, and N. */
  method ReadHeader(inp: InStream, withCovariance: bool) returns (r: Result<Header>)
    modifies inp
    ensures var h := TakeHeader(old(inp.remaining), withCovariance);
      && (h.Ok? ==> r == Ok(h.value.value) && inp.remaining == h.value.rest)
      && (h.Err? ==> r == Err(StreamError))
  {
    var aperture :- inp.Read(AsFloat32);
    var rightToLeft :- inp.Read(AsBool);
    var maxRange :- inp.Read(AsFloat32);
    var sensorPose :- inp.Read(AsPose);
    if withCovariance {
      var covSensorPose :- inp.Read(AsMatrix);  // read and discarded
    }
    var n :- inp.Read(AsUInt32);
    r := Ok(Header(aperture, rightToLeft, maxRange, sensorPose, n as nat));
  }

  /** Version 0 has no flags: validRange[i] = (scan[i] < maxRange), one ray at a time. */
  method FillDefaultValidity(scan: seq<real>, maxRange: real) returns (validRange: seq<byte>)
    ensures validRange == DefaultValidity(scan, maxRange)
  {
    var n := |scan|;
    validRange := seq(n, _ => 0);  // resized to N; every entry is set below
    for i := 0 to n
      invariant |validRange| == n
      invariant forall k :: 0 <= k < i ==> validRange[k] == if scan[k] < maxRange then 1 else 0
    {
      validRange := validRange[i := if scan[i] < maxRange then 1 else 0];
    }
  }

  /** The flags, stdError and timestamp of versions 0..3, or their defaults. */
  method ReadLegacyTrailer(inp: InStream, version: int, scan: seq<real>, maxRange: real, prior: ScanFields)
    returns (r: Result<LegacyTrailer>)
    requires 0 <= version <= 3
    modifies inp
    ensures var t := TakeLegacyTrailer(version, old(inp.remaining), scan, maxRange, prior);
      && (t.Ok? ==> r == Ok(t.value.value) && inp.remaining == t.value.rest)
      && (t.Err? ==> r == Err(StreamError))
  {
    var validRange;
    if version >= 1 {
      validRange :- inp.ReadBuffer(|scan|, AsRawByte);
    } else {
      validRange := FillDefaultValidity(scan, maxRange);
    }
    var stdError;
    if version >= 2 {
      stdError :- inp.Read(AsFloat32);
    } else {
      stdError := 0.01;
    }
    var timestamp := prior.timestamp;
    if version >= 3 {
      timestamp :- inp.Read(AsUInt64);
    }
    r := Ok(LegacyTrailer(validRange, stdError, timestamp));
  }

  /** readFromStream, versions 0..3. */
  method ReadLegacy(inp: InStream, version: int, prior: ScanFields) returns (r: Result<ScanFields>)
    requires 0 <= version <= 3
    modifies inp
    ensures var d := DecodeLegacy(version, old(inp.remaining), prior);
      && (d.Ok? ==> r == Ok(d.value.fields) && inp.remaining == d.value.rest)
      && (d.Err? ==> r == Err(StreamError))
  {
    var h :- ReadHeader(inp, true);
    var scan :- inp.ReadBuffer(h.n, AsFloat32);
    var t :- ReadLegacyTrailer(inp, version, scan, h.maxRange, prior);
    r := Ok(ScanFields(scan, t.validRange, prior.intensity, h.aperture, h.rightToLeft, h.maxRange, h.sensorPose,
                       t.stdError, DefaultBeamAperture(), 0.0, t.timestamp, ""));
  }

  /** stdError, timestamp, beamAperture, then sensorLabel and deltaPitch (version 5 on), then intensity (version 7). */
  method ReadTrailer(inp: InStream, version: int, n: nat, prior: ScanFields) returns (r: Result<Trailer>)
    requires 4 <= version <= 7
    modifies inp
    ensures var t := TakeTrailer(version, old(inp.remaining), n, prior);
      && (t.Ok? ==> r == Ok(t.value.value) && inp.remaining == t.value.rest)
      && (t.Err? ==> r == Err(StreamError))
  {
    var stdError :- inp.Read(AsFloat32);
    var timestamp :- inp.Read(AsUInt64);
    var beamAperture :- inp.Read(AsFloat32);
    var sensorLabel, deltaPitch := "", 0.0;
    if version >= 5 {
      sensorLabel :- inp.Read(AsText);
      deltaPitch :- inp.Read(AsFloat64);
    }
    var intensity := prior.intensity;
    if version >= 7 {
      intensity :- ReadIntensity(inp, n, prior);
    }
    r := Ok(Trailer(stdError, timestamp, beamAperture, sensorLabel, deltaPitch, intensity));
  }

  /** The has-intensity flag, then N intensity values when it is set and N > 0; otherwise the old values stay. */
  method ReadIntensity(inp: InStream, n: nat, prior: ScanFields) returns (r: Result<seq<int>>)
    modifies inp
    ensures var t := TakeIntensity(old(inp.remaining), n, prior);
      && (t.Ok? ==> r == Ok(t.value.value) && inp.remaining == t.value.rest)
      && (t.Err? ==> r == Err(StreamError))
  {
    var hasIntensity :- inp.Read(AsBool);
    if hasIntensity && n > 0 {
      r := inp.ReadBuffer(n, AsInt32);
    } else {
      r := Ok(prior.intensity);
    }
  }

  /** readFromStream, versions 4..7. */
  method ReadCurrent(inp: InStream, version: int, prior: ScanFields) returns (r: Result<ScanFields>)
    requires 4 <= version <= 7
    modifies inp
    ensures var d := DecodeCurrent(version, old(inp.remaining), prior);
      && (d.Ok? ==> r == Ok(d.value.fields) && inp.remaining == d.value.rest)
      && (d.Err? ==> r == Err(StreamError))
  {
    var h :- ReadHeader(inp, version < 6);
    var scan :- inp.ReadBuffer(h.n, AsFloat32);
    var validRange :- inp.ReadBuffer(h.n, AsRawByte);
    var t :- ReadTrailer(inp, version, h.n, prior);
    r := Ok(ScanFields(scan, validRange, t.intensity, h.aperture, h.rightToLeft, h.maxRange, h.sensorPose,
                       t.stdError, t.beamAperture, t.deltaPitch, t.timestamp, t.sensorLabel));
  }

  /**
   * readFromStream: dispatches on the version. Decoding into a record whose
   * fields are `prior` gives what Decode gives; an unknown version fails
   * without reading anything.
   */
  method ReadRecord(inp: InStream, version: int, prior: ScanFields) returns (r: Result<ScanFields>)
    modifies inp
    ensures var d := Decode(version, old(inp.remaining), prior);
      && (d.Ok? ==> r == Ok(d.value.fields) && inp.remaining == d.value.rest)
      && (d.Err? ==> r == Err(d.error))
    ensures !(0 <= version <= 7) ==> inp.remaining == old(inp.remaining)
  {
    if 0 <= version <= 3 {
      r := ReadLegacy(inp, version, prior);
    } else if 4 <= version <= 7 {
      r := ReadCurrent(inp, version, prior);
    } else {
      r := Err(UnknownSerializationVersion(version));
    }
  }
}
