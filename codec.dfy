/**
 * The versioned serialisation of a 2D range scan: what writeToStream emits
 * (always version 7), what readFromStream accepts for each of the versions
 * 0..7, the defaults it fills in for fields an old version lacks, and the round
 * trip between the two.
 */
module Codec {
  import opened Wrappers
  import opened Geometry
  import opened Stream

  /** The serialised state of a scan record (every field but the cached map). */
  datatype ScanFields = ScanFields(
    scan: seq<real>,          // one range per ray
    validRange: seq<byte>,    // per ray: 0 = invalid, anything else = valid
    intensity: seq<int>,      // empty, or one value per ray
    aperture: real,
    rightToLeft: bool,
    maxRange: real,
    sensorPose: Pose3D,
    stdError: real,
    beamAperture: real,
    deltaPitch: real,
    timestamp: uint64,
    sensorLabel: string)

  /** The version writeToStream reports and writes. */
  const SerializationVersion: int := 7

  /** The result of a successful decode: the new fields and the unread stream. */
  datatype Decoded = Decoded(fields: ScanFields, rest: seq<Token>)

  /** Version 0 streams carry no validity: a ray is valid iff its range is below maxRange. */
  function DefaultValidity(scan: seq<real>, maxRange: real): seq<byte>
  {
    seq(|scan|, i requires 0 <= i < |scan| => if scan[i] < maxRange then 1 else 0)
  }

  /** beamAperture assumed for streams older than version 4: 0.25 degrees. */
  function DefaultBeamAperture(): real { Deg2Rad(0.25) }

  /** The ray count as written: scan.size() converted to uint32_t. */
  function WrittenCount(f: ScanFields): nat
  {
    |f.scan| % 0x1_0000_0000
  }

  /** What writeToStream emits before checking that the flags match the ranges. */
  function WrittenHeader(f: ScanFields): seq<Token>
  {
    [Float32(f.aperture), Bool(f.rightToLeft), Float32(f.maxRange), Pose(f.sensorPose),
     UInt32(WrittenCount(f) as uint32)]
  }

  /** What writeToStream emits between the validity bytes and the intensity values. */
  function FieldTokens(f: ScanFields): seq<Token>
  {
    [Float32(f.stdError), UInt64(f.timestamp), Float32(f.beamAperture), Text(f.sensorLabel),
     Float64(f.deltaPitch), Bool(f.intensity != [])]
  }

  /**
   * The tokens writeToStream emits: aperture, rightToLeft, maxRange, sensorPose,
   * N, the N ranges, the N validity bytes (raw), stdError, timestamp,
   * beamAperture, sensorLabel, deltaPitch, the has-intensity flag, then the N
   * intensity values when there are any.
   */
  function Encoding(f: ScanFields): (ts: seq<Token>)
    requires |f.validRange| == |f.scan|
    requires f.intensity != [] ==> |f.intensity| >= WrittenCount(f)
    ensures |ts| == 11 + 2 * WrittenCount(f) + (if f.intensity != [] then WrittenCount(f) else 0)
    ensures ts[..5] == WrittenHeader(f)
  {
    var n := WrittenCount(f);
    WrittenHeader(f)
    + Tokens(f.scan[..n], Float32Token) + Tokens(f.validRange[..n], RawByteToken)
    + FieldTokens(f)
    + (if f.intensity != [] then Tokens(f.intensity[..n], Int32Token) else [])
  }

  /** The tokens every version starts with, up to and including the ray count N. */
  function HeaderTokens(f: ScanFields, cov: Matrix, withCovariance: bool): seq<Token>
    requires |f.scan| < 0x1_0000_0000
  {
    [Float32(f.aperture), Bool(f.rightToLeft), Float32(f.maxRange), Pose(f.sensorPose)]
    + (if withCovariance then [Mat(cov)] else []) + [UInt32(|f.scan| as uint32)]
  }

  /** What versions 0..3 carry after the ranges. */
  function LegacyTrailerTokens(version: int, f: ScanFields): seq<Token>
  {
    (if version >= 1 then Tokens(f.validRange, RawByteToken) else [])
    + (if version >= 2 then [Float32(f.stdError)] else [])
    + (if version >= 3 then [UInt64(f.timestamp)] else [])
  }

  /** Version 7's intensity block: the has-intensity flag, then the values when it is set and N > 0. */
  function IntensityTokens(f: ScanFields, hasIntensity: bool): seq<Token>
  {
    [Bool(hasIntensity)] + (if hasIntensity && |f.scan| > 0 then Tokens(f.intensity, Int32Token) else [])
  }

  /** What versions 4..7 carry after the validity bytes. */
  function TrailerTokens(version: int, f: ScanFields, hasIntensity: bool): seq<Token>
  {
    [Float32(f.stdError), UInt64(f.timestamp), Float32(f.beamAperture)]
    + (if version >= 5 then [Text(f.sensorLabel), Float64(f.deltaPitch)] else [])
    + (if version >= 7 then IntensityTokens(f, hasIntensity) else [])
  }

  /**
   * Reference layout of a version-`version` stream holding the fields of `f`
   * (and, before version 6, the legacy covariance matrix `cov`): the field
   * order each historical writer used.
   */
  function Layout(version: int, f: ScanFields, cov: Matrix, hasIntensity: bool): seq<Token>
    requires 0 <= version <= 7
    requires |f.validRange| == |f.scan| < 0x1_0000_0000
  {
    if version <= 3 then
      HeaderTokens(f, cov, true) + Tokens(f.scan, Float32Token) + LegacyTrailerTokens(version, f)
    else
      HeaderTokens(f, cov, version < 6) + Tokens(f.scan, Float32Token) + Tokens(f.validRange, RawByteToken)
      + TrailerTokens(version, f, hasIntensity)
  }

  /**
   * What decoding Layout(version, f, _, hasIntensity) must give when decoding
   * into a record whose fields were `prior`: the fields of `f` that the version
   * carries, the documented defaults for the ones it lacks, and the prior
   * timestamp (versions 0..2) and intensity (no intensity block) untouched.
   */
  function Expected(version: int, f: ScanFields, hasIntensity: bool, prior: ScanFields): ScanFields
  {
    f.(validRange := if version == 0 then DefaultValidity(f.scan, f.maxRange) else f.validRange,
       stdError := if version < 2 then 0.01 else f.stdError,
       timestamp := if version < 3 then prior.timestamp else f.timestamp,
       beamAperture := if version < 4 then DefaultBeamAperture() else f.beamAperture,
       sensorLabel := if version < 5 then "" else f.sensorLabel,
       deltaPitch := if version < 5 then 0.0 else f.deltaPitch,
       intensity := if version == 7 && hasIntensity && |f.scan| > 0 then f.intensity else prior.intensity)
  }

  /** The fields every version starts with, up to and including the ray count N. */
  datatype Header = Header(aperture: real, rightToLeft: bool, maxRange: real, sensorPose: Pose3D, n: nat)

  /**
   * Reads aperture, rightToLeft, maxRange, sensorPose, then (when
   * `withCovariance`) the legacy covariance matrix, which is discarded, then N.
   */
  function TakeHeader(ts: seq<Token>, withCovariance: bool): (r: Result<Parsed<Header>>)
    ensures r.Err? ==> r.error == StreamError
    ensures r.Ok? ==> (|ts| >= (if withCovariance then 6 else 5)
                       && r.value.rest == ts[(if withCovariance then 6 else 5)..])
  {
    var aperture :- Take(ts, AsFloat32);
    var rightToLeft :- Take(aperture.rest, AsBool);
    var maxRange :- Take(rightToLeft.rest, AsFloat32);
    var pose :- Take(maxRange.rest, AsPose);
    var cov :- if withCovariance then Take(pose.rest, AsMatrix) else Ok(Parsed(Matrix(0, 0, []), pose.rest));
    var n :- Take(cov.rest, AsUInt32);
    Ok(Parsed(Header(aperture.value, rightToLeft.value, maxRange.value, pose.value, n.value as nat), n.rest))
  }

  /** The fields versions 4..7 carry after the validity bytes. */
  datatype Trailer = Trailer(stdError: real, timestamp: uint64, beamAperture: real, sensorLabel: string,
                             deltaPitch: real, intensity: seq<int>)

  /**
   * Reads the has-intensity flag and, when it is set and n > 0, n intensity
   * values; otherwise the prior intensity stays.
   */
  function TakeIntensity(ts: seq<Token>, n: nat, prior: ScanFields): (r: Result<Parsed<seq<int>>>)
    ensures r.Err? ==> r.error == StreamError
    ensures r.Ok? ==> |ts| > 0 && AsBool(ts[0]).Some?
    ensures r.Ok? && AsBool(ts[0]).value && n > 0 ==> |r.value.value| == n && |r.value.rest| == |ts| - 1 - n
    ensures r.Ok? && !(AsBool(ts[0]).value && n > 0) ==> r.value.value == prior.intensity && r.value.rest == ts[1..]
  {
    var flag :- Take(ts, AsBool);
    if flag.value && n > 0 then TakeMany(flag.rest, n, AsInt32) else Ok(Parsed(prior.intensity, flag.rest))
  }

  /**
   * Reads stdError, timestamp, beamAperture, then sensorLabel and deltaPitch
   * (version 5 on), then the intensity block (version 7).
   */
  function TakeTrailer(version: int, ts: seq<Token>, n: nat, prior: ScanFields): (r: Result<Parsed<Trailer>>)
    requires 4 <= version <= 7
    ensures r.Err? ==> r.error == StreamError
    ensures r.Ok? && version == 4 ==> r.value.value.sensorLabel == "" && r.value.value.deltaPitch == 0.0
    ensures r.Ok? && version < 7 ==> r.value.value.intensity == prior.intensity
    ensures r.Ok? ==> |r.value.rest| <= |ts| - (if version >= 5 then 5 else 3)
  {
    var stdError :- Take(ts, AsFloat32);
    var stamp :- Take(stdError.rest, AsUInt64);
    var beam :- Take(stamp.rest, AsFloat32);
    var sensorLabel :- if version >= 5 then Take(beam.rest, AsText) else Ok(Parsed("", beam.rest));
    var pitch :- if version >= 5 then Take(sensorLabel.rest, AsFloat64) else Ok(Parsed(0.0, sensorLabel.rest));
    var intensity :- if version >= 7 then TakeIntensity(pitch.rest, n, prior) else Ok(Parsed(prior.intensity, pitch.rest));
    Ok(Parsed(Trailer(stdError.value, stamp.value, beam.value, sensorLabel.value, pitch.value, intensity.value),
              intensity.rest))
  }

  /** The fields versions 0..3 carry after the ranges (or their defaults). */
  datatype LegacyTrailer = LegacyTrailer(validRange: seq<byte>, stdError: real, timestamp: uint64)

  /**
   * Reads the validity bytes (version 1 on; version 0 derives them from the
   * ranges), stdError (version 2 on; 0.01 before) and the timestamp (version 3
   * on; the prior one stays before).
   */
  function TakeLegacyTrailer(version: int, ts: seq<Token>, scan: seq<real>, maxRange: real, prior: ScanFields)
    : (r: Result<Parsed<LegacyTrailer>>)
    requires 0 <= version <= 3
    ensures r.Ok? ==> |r.value.value.validRange| == |scan|
    ensures r.Err? ==> r.error == StreamError
  {
    var valid :- if version >= 1 then TakeMany(ts, |scan|, AsRawByte)
                 else Ok(Parsed(DefaultValidity(scan, maxRange), ts));
    var stdError :- if version >= 2 then Take(valid.rest, AsFloat32) else Ok(Parsed(0.01, valid.rest));
    var stamp :- if version >= 3 then Take(stdError.rest, AsUInt64) else Ok(Parsed(prior.timestamp, stdError.rest));
    Ok(Parsed(LegacyTrailer(valid.value, stdError.value, stamp.value), stamp.rest))
  }

  /** readFromStream, versions 0..3: the covariance matrix is always read and discarded. */
  function DecodeLegacy(version: int, ts: seq<Token>, prior: ScanFields): (r: Result<Decoded>)
    requires 0 <= version <= 3
    ensures r.Ok? ==> |r.value.fields.validRange| == |r.value.fields.scan|
    ensures r.Err? ==> r.error == StreamError
  {
    var h :- TakeHeader(ts, true);
    var scan :- TakeMany(h.rest, h.value.n, AsFloat32);
    var t :- TakeLegacyTrailer(version, scan.rest, scan.value, h.value.maxRange, prior);
    Ok(Decoded(
      ScanFields(scan.value, t.value.validRange, prior.intensity, h.value.aperture, h.value.rightToLeft,
                 h.value.maxRange, h.value.sensorPose, t.value.stdError, DefaultBeamAperture(), 0.0,
                 t.value.timestamp, ""),
      t.rest))
  }

  /** readFromStream, versions 4..7: the covariance matrix is present only before version 6. */
  function DecodeCurrent(version: int, ts: seq<Token>, prior: ScanFields): (r: Result<Decoded>)
    requires 4 <= version <= 7
    ensures r.Ok? ==> |r.value.fields.validRange| == |r.value.fields.scan|
    ensures r.Err? ==> r.error == StreamError
  {
    var h :- TakeHeader(ts, version < 6);
    var scan :- TakeMany(h.rest, h.value.n, AsFloat32);
    var valid :- TakeMany(scan.rest, h.value.n, AsRawByte);
    var t :- TakeTrailer(version, valid.rest, h.value.n, prior);
    Ok(Decoded(
      ScanFields(scan.value, valid.value, t.value.intensity, h.value.aperture, h.value.rightToLeft, h.value.maxRange,
                 h.value.sensorPose, t.value.stdError, t.value.beamAperture, t.value.deltaPitch,
                 t.value.timestamp, t.value.sensorLabel),
      t.rest))
  }

  /** readFromStream: dispatch on the version; any other version is refused. */
  function Decode(version: int, ts: seq<Token>, prior: ScanFields): (r: Result<Decoded>)
    ensures !(0 <= version <= 7) <==> r == Err(UnknownSerializationVersion(version))
    ensures r.Ok? ==> |r.value.fields.validRange| == |r.value.fields.scan|
  {
    if 0 <= version <= 3 then DecodeLegacy(version, ts, prior)
    else if 4 <= version <= 7 then DecodeCurrent(version, ts, prior)
    else Err(UnknownSerializationVersion(version))
  }

  lemma TakeHeaderTokens(f: ScanFields, cov: Matrix, withCovariance: bool, rest: seq<Token>)
    requires |f.scan| < 0x1_0000_0000
    ensures TakeHeader(HeaderTokens(f, cov, withCovariance) + rest, withCovariance)
         == Ok(Parsed(Header(f.aperture, f.rightToLeft, f.maxRange, f.sensorPose, |f.scan|), rest))
  {
    var tail := [UInt32(|f.scan| as uint32)] + rest;
    var afterPose := (if withCovariance then [Mat(cov)] else []) + tail;
    var afterMaxRange := [Pose(f.sensorPose)] + afterPose;
    var afterRightToLeft := [Float32(f.maxRange)] + afterMaxRange;
    var afterAperture := [Bool(f.rightToLeft)] + afterRightToLeft;
    assert HeaderTokens(f, cov, withCovariance) + rest == [Float32(f.aperture)] + afterAperture;
    TakeFirst(Float32(f.aperture), afterAperture, AsFloat32);
    TakeFirst(Bool(f.rightToLeft), afterRightToLeft, AsBool);
    TakeFirst(Float32(f.maxRange), afterMaxRange, AsFloat32);
    TakeFirst(Pose(f.sensorPose), afterPose, AsPose);
    if withCovariance {
      TakeFirst(Mat(cov), tail, AsMatrix);
    } else {
      assert afterPose == tail;
    }
    TakeFirst(UInt32(|f.scan| as uint32), rest, AsUInt32);
  }

  /**
   * Every historical layout decodes to the expected fields: each version reads
   * exactly the fields of its layout, in that order, and fills the documented
   * defaults for the rest (versions 0..3).
   */
  lemma {:induction false} DecodeLegacyLayout(version: int, f: ScanFields, cov: Matrix, hasIntensity: bool,
                                              prior: ScanFields, rest: seq<Token>)
    requires 0 <= version <= 3
    requires |f.validRange| == |f.scan| < 0x1_0000_0000
    ensures Decode(version, Layout(version, f, cov, hasIntensity) + rest, prior)
         == Ok(Decoded(Expected(version, f, hasIntensity, prior), rest))
  {
    var S := Tokens(f.scan, Float32Token);
    var R := LegacyTrailerTokens(version, f);
    assert Layout(version, f, cov, hasIntensity) + rest == HeaderTokens(f, cov, true) + (S + (R + rest));
    TakeHeaderTokens(f, cov, true, S + (R + rest));
    TakeManyTokens(f.scan, Float32Token, AsFloat32, R + rest);
    TakeLegacyTrailerTokens(version, f, prior, rest);
  }

  lemma TakeLegacyTrailerTokens(version: int, f: ScanFields, prior: ScanFields, rest: seq<Token>)
    requires 0 <= version <= 3
    requires |f.validRange| == |f.scan|
    ensures var e := Expected(version, f, false, prior);
      TakeLegacyTrailer(version, LegacyTrailerTokens(version, f) + rest, f.scan, f.maxRange, prior)
      == Ok(Parsed(LegacyTrailer(e.validRange, e.stdError, e.timestamp), rest))
  {
    var V := Tokens(f.validRange, RawByteToken);
    if version == 0 {
      assert LegacyTrailerTokens(version, f) + rest == rest;
    } else if version == 1 {
      assert LegacyTrailerTokens(version, f) + rest == V + rest;
      TakeManyTokens(f.validRange, RawByteToken, AsRawByte, rest);
    } else if version == 2 {
      assert LegacyTrailerTokens(version, f) + rest == V + ([Float32(f.stdError)] + rest);
      TakeManyTokens(f.validRange, RawByteToken, AsRawByte, [Float32(f.stdError)] + rest);
    } else {
      assert LegacyTrailerTokens(version, f) + rest == V + ([Float32(f.stdError)] + ([UInt64(f.timestamp)] + rest));
      TakeManyTokens(f.validRange, RawByteToken, AsRawByte, [Float32(f.stdError)] + ([UInt64(f.timestamp)] + rest));
    }
  }

  lemma TakeIntensityTokens(f: ScanFields, hasIntensity: bool, prior: ScanFields, rest: seq<Token>)
    requires hasIntensity ==> |f.intensity| == |f.scan|
    ensures TakeIntensity(IntensityTokens(f, hasIntensity) + rest, |f.scan|, prior)
         == Ok(Parsed(Expected(7, f, hasIntensity, prior).intensity, rest))
  {
    var I := if hasIntensity && |f.scan| > 0 then Tokens(f.intensity, Int32Token) else [];
    assert IntensityTokens(f, hasIntensity) + rest == [Bool(hasIntensity)] + (I + rest);
    if hasIntensity && |f.scan| > 0 {
      TakeManyTokens(f.intensity, Int32Token, AsInt32, rest);
    }
  }

  lemma TakeTrailerTokens(version: int, f: ScanFields, hasIntensity: bool, prior: ScanFields, rest: seq<Token>)
    requires 4 <= version <= 7
    requires version == 7 && hasIntensity ==> |f.intensity| == |f.scan|
    ensures var e := Expected(version, f, hasIntensity, prior);
      TakeTrailer(version, TrailerTokens(version, f, hasIntensity) + rest, |f.scan|, prior)
      == Ok(Parsed(Trailer(e.stdError, e.timestamp, e.beamAperture, e.sensorLabel, e.deltaPitch, e.intensity), rest))
  {
    if version == 4 {
      TakeTrailerTokens4(f, hasIntensity, prior, rest);
    } else if version < 7 {
      TakeTrailerTokens56(version, f, hasIntensity, prior, rest);
    } else {
      TakeTrailerTokens7(f, hasIntensity, prior, rest);
    }
  }

  lemma TakeTrailerTokens4(f: ScanFields, hasIntensity: bool, prior: ScanFields, rest: seq<Token>)
    ensures TakeTrailer(4, TrailerTokens(4, f, hasIntensity) + rest, |f.scan|, prior)
      == Ok(Parsed(Trailer(f.stdError, f.timestamp, f.beamAperture, "", 0.0, prior.intensity), rest))
  {
    var afterStamp := [Float32(f.beamAperture)] + rest;
    var afterStdError := [UInt64(f.timestamp)] + afterStamp;
    assert TrailerTokens(4, f, hasIntensity) + rest == [Float32(f.stdError)] + afterStdError;
    TakeFirst(Float32(f.stdError), afterStdError, AsFloat32);
    TakeFirst(UInt64(f.timestamp), afterStamp, AsUInt64);
    TakeFirst(Float32(f.beamAperture), rest, AsFloat32);
  }

  /** Reading stdError, timestamp, beamAperture, sensorLabel and deltaPitch off their tokens. */
  lemma TakeTrailerPrefix(f: ScanFields, tail: seq<Token>)
    ensures var ts := [Float32(f.stdError)] + ([UInt64(f.timestamp)] + ([Float32(f.beamAperture)]
                      + ([Text(f.sensorLabel)] + ([Float64(f.deltaPitch)] + tail))));
      && Take(ts, AsFloat32) == Ok(Parsed(f.stdError, ts[1..]))
      && Take(ts[1..], AsUInt64) == Ok(Parsed(f.timestamp, ts[2..]))
      && Take(ts[2..], AsFloat32) == Ok(Parsed(f.beamAperture, ts[3..]))
      && Take(ts[3..], AsText) == Ok(Parsed(f.sensorLabel, ts[4..]))
      && Take(ts[4..], AsFloat64) == Ok(Parsed(f.deltaPitch, tail))
  {
    var afterLabel := [Float64(f.deltaPitch)] + tail;
    var afterBeam := [Text(f.sensorLabel)] + afterLabel;
    var afterStamp := [Float32(f.beamAperture)] + afterBeam;
    var afterStdError := [UInt64(f.timestamp)] + afterStamp;
    var ts := [Float32(f.stdError)] + afterStdError;
    assert ts[1..] == afterStdError;
    assert ts[2..] == afterStamp;
    assert ts[3..] == afterBeam;
    assert ts[4..] == afterLabel;
    TakeFirst(Float32(f.stdError), afterStdError, AsFloat32);
    TakeFirst(UInt64(f.timestamp), afterStamp, AsUInt64);
    TakeFirst(Float32(f.beamAperture), afterBeam, AsFloat32);
    TakeFirst(Text(f.sensorLabel), afterLabel, AsText);
    TakeFirst(Float64(f.deltaPitch), tail, AsFloat64);
  }

  /** The tokens of versions 5..7 after the validity bytes, one field at a time. */
  lemma TrailerTokensSplit(version: int, f: ScanFields, hasIntensity: bool, rest: seq<Token>)
    requires 5 <= version <= 7
    ensures TrailerTokens(version, f, hasIntensity) + rest
         == [Float32(f.stdError)] + ([UInt64(f.timestamp)] + ([Float32(f.beamAperture)]
            + ([Text(f.sensorLabel)] + ([Float64(f.deltaPitch)]
            + ((if version >= 7 then IntensityTokens(f, hasIntensity) else []) + rest)))))
  {
  }

  lemma TakeTrailerTokens56(version: int, f: ScanFields, hasIntensity: bool, prior: ScanFields, rest: seq<Token>)
    requires version == 5 || version == 6
    ensures TakeTrailer(version, TrailerTokens(version, f, hasIntensity) + rest, |f.scan|, prior)
      == Ok(Parsed(Trailer(f.stdError, f.timestamp, f.beamAperture, f.sensorLabel, f.deltaPitch, prior.intensity), rest))
  {
    TrailerTokensSplit(version, f, hasIntensity, rest);
    TakeTrailerPrefix(f, rest);
  }

  lemma TakeTrailerTokens7(f: ScanFields, hasIntensity: bool, prior: ScanFields, rest: seq<Token>)
    requires hasIntensity ==> |f.intensity| == |f.scan|
    ensures TakeTrailer(7, TrailerTokens(7, f, hasIntensity) + rest, |f.scan|, prior)
      == Ok(Parsed(Trailer(f.stdError, f.timestamp, f.beamAperture, f.sensorLabel, f.deltaPitch,
                           Expected(7, f, hasIntensity, prior).intensity), rest))
  {
    var tail := IntensityTokens(f, hasIntensity) + rest;
    TrailerTokensSplit(7, f, hasIntensity, rest);
    TakeTrailerPrefix(f, tail);
    TakeIntensityTokens(f, hasIntensity, prior, rest);
  }

  /** As DecodeLegacyLayout, for versions 4..7. */
  lemma {:induction false} DecodeCurrentLayout(version: int, f: ScanFields, cov: Matrix, hasIntensity: bool,
                                               prior: ScanFields, rest: seq<Token>)
    requires 4 <= version <= 7
    requires |f.validRange| == |f.scan| < 0x1_0000_0000
    requires version == 7 && hasIntensity ==> |f.intensity| == |f.scan|
    ensures Decode(version, Layout(version, f, cov, hasIntensity) + rest, prior)
         == Ok(Decoded(Expected(version, f, hasIntensity, prior), rest))
  {
    var S := Tokens(f.scan, Float32Token);
    var V := Tokens(f.validRange, RawByteToken);
    var R := TrailerTokens(version, f, hasIntensity);
    assert Layout(version, f, cov, hasIntensity) + rest == HeaderTokens(f, cov, version < 6) + (S + (V + (R + rest)));
    TakeHeaderTokens(f, cov, version < 6, S + (V + (R + rest)));
    TakeManyTokens(f.scan, Float32Token, AsFloat32, V + (R + rest));
    TakeManyTokens(f.validRange, RawByteToken, AsRawByte, R + rest);
    TakeTrailerTokens(version, f, hasIntensity, prior, rest);
  }

  /** Every version 0..7 decodes its own layout to the expected fields. */
  lemma DecodeLayout(version: int, f: ScanFields, cov: Matrix, hasIntensity: bool, prior: ScanFields, rest: seq<Token>)
    requires 0 <= version <= 7
    requires |f.validRange| == |f.scan| < 0x1_0000_0000
    requires version == 7 && hasIntensity ==> |f.intensity| == |f.scan|
    ensures Decode(version, Layout(version, f, cov, hasIntensity) + rest, prior)
         == Ok(Decoded(Expected(version, f, hasIntensity, prior), rest))
  {
    if version <= 3 {
      DecodeLegacyLayout(version, f, cov, hasIntensity, prior, rest);
    } else {
      DecodeCurrentLayout(version, f, cov, hasIntensity, prior, rest);
    }
  }

  /**
   * What writeToStream emits is the version-7 layout (with the intensity flag
   * set iff the record has intensity), as long as N fits in 32 bits and the
   * intensity is empty or one value per ray.
   */
  lemma EncodingIsLayout(f: ScanFields, cov: Matrix)
    requires |f.validRange| == |f.scan| < 0x1_0000_0000
    requires f.intensity == [] || |f.intensity| == |f.scan|
    ensures Encoding(f) == Layout(SerializationVersion, f, cov, f.intensity != [])
  {
    var n := |f.scan|;
    assert WrittenCount(f) == n;
    assert f.scan[..n] == f.scan;
    assert f.validRange[..n] == f.validRange;
    var I := if f.intensity != [] then Tokens(f.intensity[..n], Int32Token) else [];
    if f.intensity != [] {
      assert f.intensity[..n] == f.intensity;
    }
    assert IntensityTokens(f, f.intensity != []) == [Bool(f.intensity != [])] + I;
    var S := Tokens(f.scan, Float32Token);
    var V := Tokens(f.validRange, RawByteToken);
    var H := WrittenHeader(f);
    var B := FieldTokens(f);
    assert HeaderTokens(f, cov, false) == H;
    assert TrailerTokens(7, f, f.intensity != []) == B + I;
    assert Encoding(f) == H + S + V + B + I;
    assert Layout(7, f, cov, f.intensity != []) == H + S + V + (B + I);
  }

  /**
   * Round trip: decoding what writeToStream wrote, as version 7, restores
   * every field, and the rest of the stream is left unread. When the written
   * record has no intensity, the record decoded into must not hold any either,
   * because the reader never clears it (see DecodeKeepsStaleIntensity).
   */
  lemma RoundTrip(f: ScanFields, prior: ScanFields, rest: seq<Token>)
    requires |f.validRange| == |f.scan| < 0x1_0000_0000
    requires f.intensity == [] || |f.intensity| == |f.scan|
    requires f.intensity == [] ==> prior.intensity == []
    ensures Decode(SerializationVersion, Encoding(f) + rest, prior) == Ok(Decoded(f, rest))
  {
    var cov := Matrix(0, 0, []);
    EncodingIsLayout(f, cov);
    DecodeLayout(7, f, cov, f.intensity != [], prior, rest);
    assert Expected(7, f, f.intensity != [], prior) == f;
  }

  /**
   * A record written without intensity and decoded into a record that had
   * some keeps that stale intensity: readFromStream never clears it.
   */
  lemma DecodeKeepsStaleIntensity(f: ScanFields, prior: ScanFields, rest: seq<Token>)
    requires |f.validRange| == |f.scan| < 0x1_0000_0000
    requires f.intensity == []
    ensures Decode(SerializationVersion, Encoding(f) + rest, prior) == Ok(Decoded(f.(intensity := prior.intensity), rest))
  {
    var cov := Matrix(0, 0, []);
    EncodingIsLayout(f, cov);
    DecodeLayout(7, f, cov, false, prior, rest);
  }

  /**
   * The covariance matrix of versions 0..5 is read and discarded: what it
   * holds does not change the result.
   */
  lemma CovarianceIgnored(version: int, f: ScanFields, cov1: Matrix, cov2: Matrix, hasIntensity: bool,
                          prior: ScanFields, rest: seq<Token>)
    requires 0 <= version <= 5
    requires |f.validRange| == |f.scan| < 0x1_0000_0000
    ensures Decode(version, Layout(version, f, cov1, hasIntensity) + rest, prior)
         == Decode(version, Layout(version, f, cov2, hasIntensity) + rest, prior)
  {
    DecodeLayout(version, f, cov1, hasIntensity, prior, rest);
    DecodeLayout(version, f, cov2, hasIntensity, prior, rest);
  }

  /**
   * Version 6 dropped the covariance matrix and changed nothing else: a
   * version-5 stream and the same record as a version-6 stream decode alike.
   */
  lemma Version6DropsOnlyCovariance(f: ScanFields, cov: Matrix, hasIntensity: bool, prior: ScanFields, rest: seq<Token>)
    requires |f.validRange| == |f.scan| < 0x1_0000_0000
    ensures Decode(5, Layout(5, f, cov, hasIntensity) + rest, prior)
         == Decode(6, Layout(6, f, cov, hasIntensity) + rest, prior)
  {
    DecodeLayout(5, f, cov, hasIntensity, prior, rest);
    DecodeLayout(6, f, cov, hasIntensity, prior, rest);
  }
}
