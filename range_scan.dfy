/**
 * CObservation2DRangeScan: a planar laser scan record. Its fields are updated
 * in place by readFromStream and by the three validity filters; the methods
 * here are proved against the functions of Codec and Filters.
 */
module RangeScan {
  import opened Wrappers
  import opened Geometry
  import opened Stream
  import opened Codec
  import opened Filters
  import opened Properties
  import opened Serializer

  /** The auxiliary points map built from a scan by the points-map library. */
  datatype PointsMap = PointsMap(points: seq<Point3>)

  /**
   * The fields of a newly constructed record. The timestamp is whatever the
   * base observation's constructor stamps (the clock), passed in as `now`.
   */
  function Defaults(now: uint64): (f: ScanFields)
    ensures f.scan == [] && f.validRange == [] && f.intensity == []
    ensures f.timestamp == now
  {
    ScanFields([], [], [], PI, true, 80.0, Pose3D(0.0, 0.0, 0.0, 0.0, 0.0, 0.0), 0.01, 0.0, 0.0, now, "")
  }

  /** A newly constructed record survives writing and reading back as version 7. */
  lemma DefaultsRoundTrip(now: uint64, prior: ScanFields, rest: seq<Token>)
    requires prior.intensity == []
    ensures Decode(SerializationVersion, Encoding(Defaults(now)) + rest, prior) == Ok(Decoded(Defaults(now), rest))
  {
    RoundTrip(Defaults(now), prior, rest);
  }

  class Observation2DRangeScan {
    var scan: seq<real>
    var validRange: seq<byte>
    var intensity: seq<int>
    var aperture: real
    var rightToLeft: bool
    var maxRange: real
    var sensorPose: Pose3D
    var stdError: real
    var beamAperture: real
    var deltaPitch: real
    var timestamp: uint64
    var sensorLabel: string
    var cachedMap: Option<PointsMap>

    /** The serialised state: every field but the cached map. */
    function Fields(): ScanFields
      reads this
    {
      ScanFields(scan, validRange, intensity, aperture, rightToLeft, maxRange, sensorPose, stdError,
                 beamAperture, deltaPitch, timestamp, sensorLabel)
    }

    /** What the filters promise beyond the new flags: nothing else changes, the cached map included. */
    twostate predicate OnlyValidRangeChanged()
      reads this
    {
      Fields() == old(Fields()).(validRange := validRange) && cachedMap == old(cachedMap)
    }

    /**
     * An empty scan over pi radians sweeping right to left, 80 m maximum range,
     * sigma 0.01, no beam aperture or pitch change, no label, and no cached
     * map. The timestamp is the time `now` of construction.
     */
    constructor (now: uint64)
      ensures Fields() == Defaults(now) && cachedMap == None
    {
      scan := [];
      validRange := [];
      intensity := [];
      aperture := PI;
      rightToLeft := true;
      maxRange := 80.0;
      sensorPose := Pose3D(0.0, 0.0, 0.0, 0.0, 0.0, 0.0);
      stdError := 0.01;
      beamAperture := 0.0;
      deltaPitch := 0.0;
      timestamp := now;
      sensorLabel := "";
      cachedMap := None;
    }

    /**
     * writeToStream. Asked for its version it reports 7 and writes nothing.
     * Otherwise it writes the version-7 encoding of the record; if the flags
     * and the ranges differ in length it fails after writing the header and
     * N. The intensity buffer it writes is N values long, so a non-empty
     * intensity must hold at least N values.
     */
    method WriteToStream(out: OutStream, queryVersion: bool) returns (r: Result<Option<int>>)
      requires !queryVersion && |validRange| == |scan| && intensity != [] ==> |intensity| >= WrittenCount(Fields())
      modifies out
      ensures queryVersion ==> r == Ok(Some(SerializationVersion)) && out.written == old(out.written)
      ensures !queryVersion && |validRange| == |scan| ==>
        r == Ok(None) && out.written == old(out.written) + Encoding(Fields())
      ensures !queryVersion && |validRange| != |scan| ==>
        r == Err(AssertionFailed) && out.written == old(out.written) + WrittenHeader(Fields())
    {
      if queryVersion {
        return Ok(Some(SerializationVersion));
      }
      var written := WriteRecord(out, Fields());
      r := if written.Ok? then Ok(None) else Err(written.error);
    }

    /**
     * readFromStream: decodes a version-`version` stream into this record. On
     * success the fields are those Decode gives from the old fields, the
     * stream is left after the record, and the cached map is dropped. An
     * unknown version fails before anything is read or changed.
     */
    method ReadFromStream(inp: InStream, version: int) returns (r: Result<()>)
      modifies this, inp
      ensures var d := Decode(version, old(inp.remaining), old(Fields()));
        && (d.Ok? ==> r == Ok(()) && Fields() == d.value.fields && inp.remaining == d.value.rest && cachedMap == None)
        && (d.Err? ==> r == Err(d.error))
      ensures !(0 <= version <= 7) ==>
        Fields() == old(Fields()) && cachedMap == old(cachedMap) && inp.remaining == old(inp.remaining)
    {
      var f :- ReadRecord(inp, version, Fields());
      Assign(f);
      r := Ok(());
    }

    /** Takes every serialised field from `f` and drops the cached map. */
    method Assign(f: ScanFields)
      modifies this
      ensures Fields() == f && cachedMap == None
    {
      scan, validRange, intensity, aperture, rightToLeft, maxRange, sensorPose, stdError, beamAperture,
        deltaPitch, timestamp, sensorLabel, cachedMap :=
        f.scan, f.validRange, f.intensity, f.aperture, f.rightToLeft, f.maxRange, f.sensorPose, f.stdError,
        f.beamAperture, f.deltaPitch, f.timestamp, f.sensorLabel, None;
    }

    /**
     * truncateByDistanceAndAngle: clears the flag of every discarded ray (see
     * Filters.Truncate); a height band with maxHeight <= minHeight fails on
     * the first ray, before any flag changes.
     */
    method TruncateByDistanceAndAngle(lim: TruncationLimits, cos: real -> real) returns (r: Result<()>)
      requires |validRange| >= |scan|
      modifies this
      ensures var t := Truncate(old(scan), old(validRange), old(aperture), lim, cos);
        && (t.Ok? ==> r == Ok(()) && validRange == t.value)
        && (t.Err? ==> r == Err(t.error) && validRange == old(validRange))
      ensures OnlyValidRangeChanged()
    {
      var flags :- ApplyTruncation(scan, validRange, aperture, lim, cos);
      validRange := flags;
      r := Ok(());
    }

    /** filterByExclusionAreas with height bands (see Filters.ExcludeAreas). */
    method FilterByExclusionAreasWithRanges(ext: Externals, areas: seq<ExclusionArea>) returns (r: Result<()>)
      modifies this
      ensures var e := ExcludeAreas(ext, old(scan), old(validRange), old(aperture), old(rightToLeft),
                                    old(sensorPose), areas);
        && (e.Ok? ==> r == Ok(()) && validRange == e.value)
        && (e.Err? ==> r == Err(e.error) && validRange == old(validRange))
      ensures OnlyValidRangeChanged()
    {
      var flags :- ApplyExclusionAreas(ext, scan, validRange, aperture, rightToLeft, sensorPose, areas);
      validRange := flags;
      r := Ok(());
    }

    /**
     * filterByExclusionAreas with bare polygons: each polygon becomes an area
     * with the band [-DBL_MAX, DBL_MAX], and the ranged filter runs on them.
     */
    method FilterByExclusionAreas(ext: Externals, polygons: seq<Polygon>) returns (r: Result<()>)
      modifies this
      ensures var e := ExcludeAreas(ext, old(scan), old(validRange), old(aperture), old(rightToLeft),
                                    old(sensorPose), UnboundedAreas(polygons));
        && (e.Ok? ==> r == Ok(()) && validRange == e.value)
        && (e.Err? ==> r == Err(e.error) && validRange == old(validRange))
      ensures OnlyValidRangeChanged()
    {
      if polygons == [] {
        return Ok(());
      }
      var areas: seq<ExclusionArea> := [];
      for i := 0 to |polygons|
        invariant |areas| == i
        invariant forall j :: 0 <= j < i ==> areas[j] == ExclusionArea(polygons[j], -DoubleMax, DoubleMax)
      {
        areas := areas + [ExclusionArea(polygons[i], -DoubleMax, DoubleMax)];
      }
      assert areas == UnboundedAreas(polygons);
      r := FilterByExclusionAreasWithRanges(ext, areas);
    }

    /** filterByExclusionAngles, with the upper clamp the source intends (see Filters.ExcludeAngles). */
    method FilterByExclusionAngles(ranges: seq<(real, real)>, wrapTo2Pi: real -> real) returns (r: Result<()>)
      requires ranges != [] && scan != [] && |scan| == |validRange| ==> aperture != 0.0
      modifies this
      ensures var e := ExcludeAngles(old(scan), old(validRange), old(aperture), old(rightToLeft), ranges, wrapTo2Pi);
        && (e.Ok? ==> r == Ok(()) && validRange == e.value)
        && (e.Err? ==> r == Err(e.error) && validRange == old(validRange))
      ensures OnlyValidRangeChanged()
    {
      var flags :- ApplyExclusionAngles(scan, validRange, aperture, rightToLeft, ranges, wrapTo2Pi);
      validRange := flags;
      r := Ok(());
    }

    /**
     * internal_buildAuxPointsMap: without a registered points-map builder it
     * fails and changes nothing; with one, the cached map becomes what the
     * builder makes of this scan.
     */
    method InternalBuildAuxPointsMap(builder: Option<ScanFields -> PointsMap>) returns (r: Result<()>)
      modifies this
      ensures builder.None? ==> r == Err(UnlinkedDependency) && cachedMap == old(cachedMap)
      ensures builder.Some? ==> r == Ok(()) && cachedMap == Some(builder.value(Fields()))
      ensures Fields() == old(Fields())
    {
      if builder.None? {
        return Err(UnlinkedDependency);
      }
      cachedMap := Some(builder.value(Fields()));
      r := Ok(());
    }

    /** getScanProperties: the ray count, aperture and sweep direction of this scan. */
    method GetScanProperties() returns (p: ScanProperties)
      ensures p.nRays == |scan| && p.aperture == aperture && p.rightToLeft == rightToLeft
    {
      p := ScanProperties(|scan|, aperture, rightToLeft);
    }
  }
}
