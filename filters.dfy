/**
 * The three validity filters of a 2D range scan, as functions from the old
 * validity flags to the new ones: truncation by distance, angle and height,
 * exclusion areas (polygons with a height band), and exclusion angle ranges.
 * Each filter only ever clears flags; the lemmas here say which ones.
 */
module Filters {
  import opened Wrappers
  import opened Geometry
  import opened Stream

  // ---------------------------------------------------------------------------
  // truncateByDistanceAndAngle
  // ---------------------------------------------------------------------------

  /** The arguments of truncateByDistanceAndAngle. */
  datatype TruncationLimits = TruncationLimits(minDistance: real, maxAngle: real, minHeight: real,
                                               maxHeight: real, h: real)

  /** A height band is in force unless both of its bounds are zero. */
  predicate HasHeightBand(lim: TruncationLimits)
  {
    lim.minHeight != 0.0 || lim.maxHeight != 0.0
  }

  /**
   * The angle truncation measures for ray k of n: |k*aperture/n - aperture/2|.
   * It divides by n, not by n - 1, so it is not the ray's sweep angle.
   */
  function TruncationAngle(k: nat, n: nat, aperture: real): (ang: real)
    requires n > 0
    ensures ang >= 0.0
    ensures k == 0 ==> ang == Abs(aperture) * 0.5
  {
    Abs(k as real * aperture / n as real - aperture * 0.5)
  }

  /**
   * The test truncation applies to a ray of range r at angle ang, whose
   * forward distance is x: too close, too far off-axis or, with a height
   * band, x outside [h - maxHeight, h - minHeight].
   */
  predicate DiscardsAt(r: real, ang: real, x: real, lim: TruncationLimits)
  {
    if HasHeightBand(lim) then
      r < lim.minDistance || ang > lim.maxAngle || x > lim.h - lim.minHeight || x < lim.h - lim.maxHeight
    else
      r < lim.minDistance || ang > lim.maxAngle
  }

  /** The forward distance of a return of range r at angle ang. */
  function ForwardDistance(r: real, ang: real, cos: real -> real): real
  {
    r * cos(ang)
  }

  /** Whether ray k of n (range r) is discarded, at its truncation angle. */
  predicate TruncationDiscards(r: real, k: nat, n: nat, aperture: real, lim: TruncationLimits, cos: real -> real)
    requires n > 0
  {
    var ang := TruncationAngle(k, n, aperture);
    DiscardsAt(r, ang, ForwardDistance(r, ang, cos), lim)
  }

  /**
   * truncateByDistanceAndAngle: every discarded ray is marked invalid; flags
   * past the end of the ranges are left alone. With a height band and at
   * least one ray, the band must satisfy maxHeight > minHeight, or the call
   * fails before changing anything.
   */
  function Truncate(scan: seq<real>, valid: seq<byte>, aperture: real, lim: TruncationLimits,
                    cos: real -> real): (r: Result<seq<byte>>)
    requires |valid| >= |scan|
    ensures r.Ok? ==> |r.value| == |valid|
    ensures r.Err? <==> |scan| > 0 && HasHeightBand(lim) && !(lim.maxHeight > lim.minHeight)
    ensures r.Err? ==> r.error == AssertionFailed
  {
    if |scan| > 0 && HasHeightBand(lim) && !(lim.maxHeight > lim.minHeight) then Err(AssertionFailed)
    else Ok(seq(|valid|, i requires 0 <= i < |valid| =>
                  if i < |scan| && TruncationDiscards(scan[i], i, |scan|, aperture, lim, cos) then 0 else valid[i]))
  }

  /** Truncation never marks a ray valid, and it clears exactly the discarded rays. */
  lemma TruncateClearsExactlyDiscarded(scan: seq<real>, valid: seq<byte>, aperture: real, lim: TruncationLimits,
                                       cos: real -> real, i: nat)
    requires |valid| >= |scan|
    requires Truncate(scan, valid, aperture, lim, cos).Ok?
    requires i < |valid|
    ensures var v := Truncate(scan, valid, aperture, lim, cos).value;
      && (v[i] != 0 ==> valid[i] != 0)
      && (v[i] == 0 <==> valid[i] == 0 || (i < |scan| && TruncationDiscards(scan[i], i, |scan|, aperture, lim, cos)))
      && (v[i] != 0 ==> v[i] == valid[i])
  {
  }

  /** Truncating twice with the same limits is the same as truncating once. */
  lemma TruncateIdempotent(scan: seq<real>, valid: seq<byte>, aperture: real, lim: TruncationLimits,
                           cos: real -> real)
    requires |valid| >= |scan|
    requires Truncate(scan, valid, aperture, lim, cos).Ok?
    ensures Truncate(scan, Truncate(scan, valid, aperture, lim, cos).value, aperture, lim, cos)
         == Truncate(scan, valid, aperture, lim, cos)
  {
    var once := Truncate(scan, valid, aperture, lim, cos).value;
    var twice := Truncate(scan, once, aperture, lim, cos).value;
    assert forall i | 0 <= i < |once| :: twice[i] == once[i];
    assert twice == once;
  }

  /**
   * Three rays over an aperture of pi, at ranges 1.0, 1.0 and 0.2, with a
   * minimum distance of 0.5 and a maximum angle of 1.0: the first ray is
   * cleared by the angle test (pi/2 off-axis), the last by the distance test,
   * and the middle one (pi/6 off-axis) is kept.
   */
  lemma TruncateExample(cos: real -> real)
    ensures Truncate([1.0, 1.0, 0.2], [1, 1, 1], PI, TruncationLimits(0.5, 1.0, 0.0, 0.0, 0.0), cos)
         == Ok([0, 1, 0])
  {
    var lim := TruncationLimits(0.5, 1.0, 0.0, 0.0, 0.0);
    var v := Truncate([1.0, 1.0, 0.2], [1, 1, 1], PI, lim, cos).value;
    assert TruncationAngle(0, 3, PI) > lim.maxAngle;
    assert TruncationDiscards(1.0, 0, 3, PI, lim, cos);
    assert !TruncationDiscards(1.0, 1, 3, PI, lim, cos);
    assert TruncationDiscards(0.2, 2, 3, PI, lim, cos);
    assert v == [0, 1, 0];
  }

  // ---------------------------------------------------------------------------
  // filterByExclusionAreas
  // ---------------------------------------------------------------------------

  /** An exclusion area: a polygon in the global XY plane and a height band [zMin, zMax]. */
  datatype ExclusionArea = ExclusionArea(polygon: Polygon, zMin: real, zMax: real)

  /** The global point of ray k: the local point (r cos a, r sin a, 0) composed with the sensor pose. */
  function RayPoint(ext: Externals, sensorPose: Pose3D, r: real, angle: real): Point3
  {
    ext.composePoint(sensorPose, Point3(r * ext.cos(angle), r * ext.sin(angle), 0.0))
  }

  /** The area holds the point: inside the polygon and within the band, both bounds included. */
  predicate AreaContains(ext: Externals, area: ExclusionArea, g: Point3)
  {
    ext.pointIntoPolygon(area.polygon, g.x, g.y) && area.zMin <= g.z <= area.zMax
  }

  predicate AnyAreaContains(ext: Externals, areas: seq<ExclusionArea>, g: Point3)
  {
    exists j :: 0 <= j < |areas| && AreaContains(ext, areas[j], g)
  }

  /**
   * Whether valid ray k is excluded: the global point of its range, at the
   * ray's sweep angle, falls in some area.
   */
  predicate RayExcluded(ext: Externals, scan: seq<real>, aperture: real, rightToLeft: bool, sensorPose: Pose3D,
                        areas: seq<ExclusionArea>, k: nat)
    requires k < |scan|
  {
    AnyAreaContains(ext, areas, RayPoint(ext, sensorPose, scan[k], RayAngle(|scan|, aperture, rightToLeft, k)))
  }

  /**
   * filterByExclusionAreas with height bands: an empty area list changes
   * nothing; otherwise the ranges and flags must have the same length or the
   * call fails; then every valid ray whose point falls in an area is marked
   * invalid. Already-invalid rays keep their flag as it is.
   */
  function ExcludeAreas(ext: Externals, scan: seq<real>, valid: seq<byte>, aperture: real, rightToLeft: bool,
                        sensorPose: Pose3D, areas: seq<ExclusionArea>): (r: Result<seq<byte>>)
    ensures areas == [] ==> r == Ok(valid)
    ensures scan == [] && valid == [] ==> r == Ok(valid)
    ensures r.Ok? ==> |r.value| == |valid|
    ensures r.Err? <==> areas != [] && |scan| != |valid|
    ensures r.Err? ==> r.error == AssertionFailed
  {
    if areas == [] then Ok(valid)
    else if |scan| != |valid| then Err(AssertionFailed)
    else if scan == [] then Ok(valid)
    else Ok(seq(|valid|, k requires 0 <= k < |valid| =>
                  if valid[k] != 0 && RayExcluded(ext, scan, aperture, rightToLeft, sensorPose, areas, k) then 0
                  else valid[k]))
  }

  /** Flags only go from valid to invalid, and exactly the valid rays in some area are cleared. */
  lemma ExcludeAreasClearsExactlyContained(ext: Externals, scan: seq<real>, valid: seq<byte>, aperture: real,
                                           rightToLeft: bool, sensorPose: Pose3D, areas: seq<ExclusionArea>, k: nat)
    requires |scan| == |valid|
    requires k < |valid|
    ensures var v := ExcludeAreas(ext, scan, valid, aperture, rightToLeft, sensorPose, areas).value;
      && (valid[k] == 0 ==> v[k] == valid[k])
      && (v[k] != 0 ==> v[k] == valid[k])
      && (v[k] == 0 <==> valid[k] == 0 || RayExcluded(ext, scan, aperture, rightToLeft, sensorPose, areas, k))
  {
  }

  /** Excluding the same areas twice is the same as once. */
  lemma ExcludeAreasIdempotent(ext: Externals, scan: seq<real>, valid: seq<byte>, aperture: real,
                               rightToLeft: bool, sensorPose: Pose3D, areas: seq<ExclusionArea>)
    requires |scan| == |valid|
    ensures var once := ExcludeAreas(ext, scan, valid, aperture, rightToLeft, sensorPose, areas).value;
      ExcludeAreas(ext, scan, once, aperture, rightToLeft, sensorPose, areas) == Ok(once)
  {
    var once := ExcludeAreas(ext, scan, valid, aperture, rightToLeft, sensorPose, areas).value;
    var twice := ExcludeAreas(ext, scan, once, aperture, rightToLeft, sensorPose, areas).value;
    assert forall k | 0 <= k < |once| :: twice[k] == once[k];
    assert twice == once;
  }

  /**
   * The polygon overload's area list: each polygon, in order, with the band
   * [-DBL_MAX, DBL_MAX].
   */
  function UnboundedAreas(polygons: seq<Polygon>): (areas: seq<ExclusionArea>)
    ensures |areas| == |polygons|
    ensures forall j :: 0 <= j < |areas| ==> areas[j] == ExclusionArea(polygons[j], -DoubleMax, DoubleMax)
  {
    seq(|polygons|, j requires 0 <= j < |polygons| => ExclusionArea(polygons[j], -DoubleMax, DoubleMax))
  }

  /**
   * With unbounded bands only the polygons matter: a point of finite double
   * height is excluded iff some polygon holds its XY position.
   */
  lemma UnboundedBandsIgnoreHeight(ext: Externals, polygons: seq<Polygon>, g: Point3)
    requires -DoubleMax <= g.z <= DoubleMax
    ensures AnyAreaContains(ext, UnboundedAreas(polygons), g)
        <==> exists j :: 0 <= j < |polygons| && ext.pointIntoPolygon(polygons[j], g.x, g.y)
  {
    var areas := UnboundedAreas(polygons);
    if exists j :: 0 <= j < |polygons| && ext.pointIntoPolygon(polygons[j], g.x, g.y) {
      var j :| 0 <= j < |polygons| && ext.pointIntoPolygon(polygons[j], g.x, g.y);
      assert AreaContains(ext, areas[j], g);
    }
  }

  // ---------------------------------------------------------------------------
  // filterByExclusionAngles
  // ---------------------------------------------------------------------------

  /**
   * The clamp as written in the source: negative indices become 0 and indices
   * greater than n become n - 1. An index equal to n passes through.
   */
  function ClampAsWritten(raw: int, n: nat): (r: int)
    requires n > 0
    ensures 0 <= r <= n
    ensures r == n <==> raw == n
    ensures 0 <= raw < n ==> r == raw
  {
    var nonNegative := if raw < 0 then 0 else raw;
    if nonNegative > n then n - 1 else nonNegative
  }

  /** The clamp the source intends: every index ends up in [0, n). */
  function ClampIndex(raw: int, n: nat): (r: nat)
    requires n > 0
    ensures r < n
    ensures 0 <= raw < n ==> r == raw
    ensures raw < 0 ==> r == 0
    ensures raw >= n ==> r == n - 1
  {
    var nonNegative := if raw < 0 then 0 else raw;
    if nonNegative >= n then n - 1 else nonNegative
  }

  /**
   * The rays one angle range clears, given its clamped start and end indices:
   * [ini, end] when end >= ini; otherwise the range wraps around and clears
   * [0, end) and [ini, n).
   */
  predicate RunCovers(ini: int, end: int, i: int, n: nat)
  {
    if end >= ini then ini <= i <= end else 0 <= i < end || ini <= i < n
  }

  /** Clamped start and end index of one exclusion range. */
  function RangeIndices(range: (real, real), n: nat, aperture: real, rightToLeft: bool,
                        wrapTo2Pi: real -> real): (r: (nat, nat))
    requires n > 0 && aperture != 0.0
    ensures r.0 < n && r.1 < n
  {
    (ClampIndex(RawIndex(range.0, n, aperture, rightToLeft, wrapTo2Pi), n),
     ClampIndex(RawIndex(range.1, n, aperture, rightToLeft, wrapTo2Pi), n))
  }

  /** Ray i falls in the run of some exclusion range. */
  predicate CoveredByAny(ranges: seq<(real, real)>, i: nat, n: nat, aperture: real, rightToLeft: bool,
                         wrapTo2Pi: real -> real)
    requires n > 0 && aperture != 0.0
  {
    exists j :: 0 <= j < |ranges| &&
      var idx := RangeIndices(ranges[j], n, aperture, rightToLeft, wrapTo2Pi); RunCovers(idx.0, idx.1, i, n)
  }

  /** Adding one more range to the list adds the rays of its run. */
  lemma CoveredByAnyExtend(ranges: seq<(real, real)>, j: nat, i: nat, n: nat, aperture: real, rightToLeft: bool,
                           wrapTo2Pi: real -> real)
    requires n > 0 && aperture != 0.0
    requires j < |ranges|
    ensures CoveredByAny(ranges[..j + 1], i, n, aperture, rightToLeft, wrapTo2Pi)
        <==> CoveredByAny(ranges[..j], i, n, aperture, rightToLeft, wrapTo2Pi)
             || var idx := RangeIndices(ranges[j], n, aperture, rightToLeft, wrapTo2Pi); RunCovers(idx.0, idx.1, i, n)
  {
    var longer := ranges[..j + 1];
    var shorter := ranges[..j];
    assert longer[j] == ranges[j];
    if CoveredByAny(longer, i, n, aperture, rightToLeft, wrapTo2Pi) {
      var jj :| 0 <= jj < |longer| &&
        var idx := RangeIndices(longer[jj], n, aperture, rightToLeft, wrapTo2Pi); RunCovers(idx.0, idx.1, i, n);
      if jj < j {
        assert shorter[jj] == longer[jj];
      }
    }
    if CoveredByAny(shorter, i, n, aperture, rightToLeft, wrapTo2Pi) {
      var jj :| 0 <= jj < |shorter| &&
        var idx := RangeIndices(shorter[jj], n, aperture, rightToLeft, wrapTo2Pi); RunCovers(idx.0, idx.1, i, n);
      assert longer[jj] == shorter[jj];
    }
  }

  /**
   * filterByExclusionAngles: an empty range list changes nothing; otherwise the
   * ranges and flags must have the same length or the call fails; an empty scan
   * changes nothing; otherwise every ray in the run of some range is marked
   * invalid and all other flags stay as they are.
   */
  function ExcludeAngles(scan: seq<real>, valid: seq<byte>, aperture: real, rightToLeft: bool,
                         ranges: seq<(real, real)>, wrapTo2Pi: real -> real): (r: Result<seq<byte>>)
    requires ranges != [] && scan != [] && |scan| == |valid| ==> aperture != 0.0
    ensures ranges == [] ==> r == Ok(valid)
    ensures scan == [] && valid == [] ==> r == Ok(valid)
    ensures r.Ok? ==> |r.value| == |valid|
    ensures r.Err? <==> ranges != [] && |scan| != |valid|
    ensures r.Err? ==> r.error == AssertionFailed
  {
    if ranges == [] then Ok(valid)
    else if |scan| != |valid| then Err(AssertionFailed)
    else if scan == [] then Ok(valid)
    else Ok(seq(|valid|, i requires 0 <= i < |valid| =>
                  if CoveredByAny(ranges, i, |scan|, aperture, rightToLeft, wrapTo2Pi) then 0 else valid[i]))
  }

  /**
   * A ray is cleared exactly when the run of some range covers it: every
   * other flag, valid or not, keeps its value.
   */
  lemma ExcludeAnglesClearsExactlyCovered(scan: seq<real>, valid: seq<byte>, aperture: real, rightToLeft: bool,
                                          ranges: seq<(real, real)>, wrapTo2Pi: real -> real, i: nat)
    requires ranges != [] && scan != []
    requires aperture != 0.0
    requires |scan| == |valid| && i < |valid|
    ensures var v := ExcludeAngles(scan, valid, aperture, rightToLeft, ranges, wrapTo2Pi).value;
      && (v[i] != 0 ==> v[i] == valid[i])
      && (v[i] == 0 <==> valid[i] == 0 || CoveredByAny(ranges, i, |scan|, aperture, rightToLeft, wrapTo2Pi))
  {
  }

  /** Excluding the same angle ranges twice is the same as once. */
  lemma ExcludeAnglesIdempotent(scan: seq<real>, valid: seq<byte>, aperture: real, rightToLeft: bool,
                                ranges: seq<(real, real)>, wrapTo2Pi: real -> real)
    requires ranges != [] && scan != [] && |scan| == |valid| ==> aperture != 0.0
    requires |scan| == |valid|
    ensures var once := ExcludeAngles(scan, valid, aperture, rightToLeft, ranges, wrapTo2Pi).value;
      ExcludeAngles(scan, once, aperture, rightToLeft, ranges, wrapTo2Pi) == Ok(once)
  {
    var once := ExcludeAngles(scan, valid, aperture, rightToLeft, ranges, wrapTo2Pi).value;
    var twice := ExcludeAngles(scan, once, aperture, rightToLeft, ranges, wrapTo2Pi).value;
    assert forall i | 0 <= i < |once| :: twice[i] == once[i];
    assert twice == once;
  }

  /**
   * Sweeping left to right the step is negative while wrapTo2Pi is never
   * negative, so every index truncates to at most 0 and clamps to 0: whatever
   * the ranges, only ray 0 is cleared.
   */
  lemma LeftToRightClearsOnlyFirstRay(scan: seq<real>, valid: seq<byte>, aperture: real,
                                      ranges: seq<(real, real)>, wrapTo2Pi: real -> real)
    requires forall x :: wrapTo2Pi(x) >= 0.0
    requires aperture > 0.0
    requires ranges != []
    requires |scan| == |valid| > 0
    ensures ExcludeAngles(scan, valid, aperture, false, ranges, wrapTo2Pi) == Ok(valid[0 := 0])
  {
    var n := |scan|;
    forall j | 0 <= j < |ranges|
      ensures RangeIndices(ranges[j], n, aperture, false, wrapTo2Pi) == (0, 0)
    {
      LeftToRightIndexIsZero(ranges[j].0, n, aperture, wrapTo2Pi);
      LeftToRightIndexIsZero(ranges[j].1, n, aperture, wrapTo2Pi);
    }
    var v := ExcludeAngles(scan, valid, aperture, false, ranges, wrapTo2Pi).value;
    assert RangeIndices(ranges[0], n, aperture, false, wrapTo2Pi) == (0, 0);
    assert CoveredByAny(ranges, 0, n, aperture, false, wrapTo2Pi);
    forall i | 0 < i < n
      ensures !CoveredByAny(ranges, i, n, aperture, false, wrapTo2Pi)
    {
    }
    assert v == valid[0 := 0];
  }

  lemma LeftToRightIndexIsZero(angle: real, n: nat, aperture: real, wrapTo2Pi: real -> real)
    requires forall x :: wrapTo2Pi(x) >= 0.0
    requires aperture > 0.0 && n > 0
    ensures ClampIndex(RawIndex(angle, n, aperture, false, wrapTo2Pi), n) == 0
  {
    if n > 1 {
      var w := wrapTo2Pi(angle - StartAngle(aperture, false));
      var dA := AngleStep(n, aperture, false);
      assert dA < 0.0;
      assert w / dA <= 0.0 by {
        assert w >= 0.0;
        assert w / dA == -(w / -dA);
      }
    }
  }

  /**
   * A wrapped range: five rays over pi radians sweeping right to left (rays at
   * -pi/2, -pi/4, 0, pi/4, pi/2) and the range from 1.0 to -1.0 rad. Its start
   * index is 3 and its end index 0, so the wrap branch clears [0, 0) and
   * [3, 5): rays 3 and 4, and not ray 0, which lies inside the range too.
   */
  lemma WrappedRangeExample(wrapTo2Pi: real -> real)
    requires wrapTo2Pi(1.0 + PI / 2.0) == 1.0 + PI / 2.0
    requires wrapTo2Pi(-1.0 + PI / 2.0) == -1.0 + PI / 2.0
    ensures ExcludeAngles([1.0, 1.0, 1.0, 1.0, 1.0], [1, 1, 1, 1, 1], PI, true, [(1.0, -1.0)], wrapTo2Pi)
         == Ok([1, 1, 1, 0, 0])
  {
    var n := 5;
    assert StartAngle(PI, true) == -PI / 2.0;
    assert AngleStep(n, PI, true) == PI / 4.0;
    assert RawIndex(1.0, n, PI, true, wrapTo2Pi) == 3 by {
      assert (1.0 + PI / 2.0) / (PI / 4.0) == 4.0 / PI + 2.0;
      assert 3.0 <= 4.0 / PI + 2.0 < 4.0;
    }
    assert RawIndex(-1.0, n, PI, true, wrapTo2Pi) == 0 by {
      assert (-1.0 + PI / 2.0) / (PI / 4.0) == 2.0 - 4.0 / PI;
      assert 0.0 <= 2.0 - 4.0 / PI < 1.0;
    }
    var ranges := [(1.0, -1.0)];
    assert RangeIndices(ranges[0], n, PI, true, wrapTo2Pi) == (3, 0);
    var v := ExcludeAngles([1.0, 1.0, 1.0, 1.0, 1.0], [1, 1, 1, 1, 1], PI, true, ranges, wrapTo2Pi).value;
    assert v == [1, 1, 1, 0, 0];
  }

  /**
   * The source's clamp lets an end index of n through: five rays over pi
   * radians sweeping right to left, and the range from 2.0 to 2.5 rad. The raw
   * indices are 4 and 5; as written the run is [4, 5] and ray 5, one past the
   * last flag, is written. The intended clamp gives the run [4, 4].
   */
  lemma ClampAsWrittenOverruns(wrapTo2Pi: real -> real)
    requires wrapTo2Pi(2.0 + PI / 2.0) == 2.0 + PI / 2.0
    requires wrapTo2Pi(2.5 + PI / 2.0) == 2.5 + PI / 2.0
    ensures var ini := ClampAsWritten(RawIndex(2.0, 5, PI, true, wrapTo2Pi), 5);
            var end := ClampAsWritten(RawIndex(2.5, 5, PI, true, wrapTo2Pi), 5);
      ini == 4 && end == 5 && RunCovers(ini, end, 5, 5)
    ensures ExcludeAnglesAsWritten([1.0, 1.0, 1.0, 1.0, 1.0], [1, 1, 1, 1, 1], PI, true, [(2.0, 2.5)], wrapTo2Pi)
         == Err(OutOfBoundsWrite)
    ensures RangeIndices((2.0, 2.5), 5, PI, true, wrapTo2Pi) == (4, 4)
    ensures ExcludeAngles([1.0, 1.0, 1.0, 1.0, 1.0], [1, 1, 1, 1, 1], PI, true, [(2.0, 2.5)], wrapTo2Pi)
         == Ok([1, 1, 1, 1, 0])
  {
    var n := 5;
    assert StartAngle(PI, true) == -PI / 2.0;
    assert AngleStep(n, PI, true) == PI / 4.0;
    assert RawIndex(2.0, n, PI, true, wrapTo2Pi) == 4 by {
      assert (2.0 + PI / 2.0) / (PI / 4.0) == 8.0 / PI + 2.0;
      assert 4.0 <= 8.0 / PI + 2.0 < 5.0;
    }
    assert RawIndex(2.5, n, PI, true, wrapTo2Pi) == 5 by {
      assert (2.5 + PI / 2.0) / (PI / 4.0) == 10.0 / PI + 2.0;
      assert 5.0 <= 10.0 / PI + 2.0 < 6.0;
    }
    var ranges := [(2.0, 2.5)];
    assert RangeIndicesAsWritten(ranges[0], n, PI, true, wrapTo2Pi).1 == n;
    assert SomeRunOverruns(ranges, n, PI, true, wrapTo2Pi);
    assert RangeIndices(ranges[0], n, PI, true, wrapTo2Pi) == (4, 4);
    var c := ExcludeAngles([1.0, 1.0, 1.0, 1.0, 1.0], [1, 1, 1, 1, 1], PI, true, ranges, wrapTo2Pi).value;
    assert c == [1, 1, 1, 1, 0];
  }

  /** With the intended clamp every run stays inside the flags. */
  lemma RunsStayInRange(range: (real, real), n: nat, aperture: real, rightToLeft: bool, wrapTo2Pi: real -> real,
                        i: int)
    requires n > 0 && aperture != 0.0
    requires var idx := RangeIndices(range, n, aperture, rightToLeft, wrapTo2Pi); RunCovers(idx.0, idx.1, i, n)
    ensures 0 <= i < n
  {
  }

  /** Start and end index of one exclusion range, clamped as the source does. */
  function RangeIndicesAsWritten(range: (real, real), n: nat, aperture: real, rightToLeft: bool,
                                 wrapTo2Pi: real -> real): (r: (nat, nat))
    requires n > 0 && aperture != 0.0
    ensures r.0 <= n && r.1 <= n
  {
    (ClampAsWritten(RawIndex(range.0, n, aperture, rightToLeft, wrapTo2Pi), n),
     ClampAsWritten(RawIndex(range.1, n, aperture, rightToLeft, wrapTo2Pi), n))
  }

  /** Ray i falls in the run of some exclusion range, with the clamp as written. */
  predicate CoveredAsWritten(ranges: seq<(real, real)>, i: nat, n: nat, aperture: real, rightToLeft: bool,
                             wrapTo2Pi: real -> real)
    requires n > 0 && aperture != 0.0
  {
    exists j :: 0 <= j < |ranges| &&
      var idx := RangeIndicesAsWritten(ranges[j], n, aperture, rightToLeft, wrapTo2Pi); RunCovers(idx.0, idx.1, i, n)
  }

  /**
   * Some range's end index survives the clamp as n. Its run is then [ini, n]
   * (an end of n is never below the start), and the loop writes validRange[n].
   */
  predicate SomeRunOverruns(ranges: seq<(real, real)>, n: nat, aperture: real, rightToLeft: bool,
                            wrapTo2Pi: real -> real)
    requires n > 0 && aperture != 0.0
  {
    exists j :: 0 <= j < |ranges| && RangeIndicesAsWritten(ranges[j], n, aperture, rightToLeft, wrapTo2Pi).1 == n
  }

  /**
   * filterByExclusionAngles exactly as written, with the clamp that lets an
   * index of n through. A run that reaches index n is a write past the end of
   * the flags, reported as OutOfBoundsWrite; otherwise the flags covered by
   * some run are cleared.
   */
  function ExcludeAnglesAsWritten(scan: seq<real>, valid: seq<byte>, aperture: real, rightToLeft: bool,
                                  ranges: seq<(real, real)>, wrapTo2Pi: real -> real): (r: Result<seq<byte>>)
    requires ranges != [] && scan != [] && |scan| == |valid| ==> aperture != 0.0
    ensures ranges == [] ==> r == Ok(valid)
    ensures scan == [] && valid == [] ==> r == Ok(valid)
    ensures r.Ok? ==> |r.value| == |valid|
    ensures r.Err? ==> r.error == AssertionFailed || r.error == OutOfBoundsWrite
    ensures r == Err(AssertionFailed) <==> ranges != [] && |scan| != |valid|
    ensures r == Err(OutOfBoundsWrite) <==>
      ranges != [] && |scan| == |valid| && scan != [] && SomeRunOverruns(ranges, |scan|, aperture, rightToLeft, wrapTo2Pi)
  {
    if ranges == [] then Ok(valid)
    else if |scan| != |valid| then Err(AssertionFailed)
    else if scan == [] then Ok(valid)
    else if SomeRunOverruns(ranges, |scan|, aperture, rightToLeft, wrapTo2Pi) then Err(OutOfBoundsWrite)
    else Ok(seq(|valid|, i requires 0 <= i < |valid| =>
                  if CoveredAsWritten(ranges, i, |scan|, aperture, rightToLeft, wrapTo2Pi) then 0 else valid[i]))
  }

  /**
   * The two clamps differ only on a raw index of exactly n: when no range has
   * one, the filter as written and the corrected filter clear the same flags.
   */
  lemma {:induction false} AsWrittenAgreesWithoutIndexN(scan: seq<real>, valid: seq<byte>, aperture: real,
                                                        rightToLeft: bool, ranges: seq<(real, real)>,
                                                        wrapTo2Pi: real -> real)
    requires ranges != [] && scan != [] && |scan| == |valid| ==> aperture != 0.0
    requires scan != [] && |scan| == |valid| ==> forall j :: 0 <= j < |ranges| ==>
      && RawIndex(ranges[j].0, |scan|, aperture, rightToLeft, wrapTo2Pi) != |scan|
      && RawIndex(ranges[j].1, |scan|, aperture, rightToLeft, wrapTo2Pi) != |scan|
    ensures ExcludeAnglesAsWritten(scan, valid, aperture, rightToLeft, ranges, wrapTo2Pi)
         == ExcludeAngles(scan, valid, aperture, rightToLeft, ranges, wrapTo2Pi)
  {
    if ranges == [] || |scan| != |valid| || scan == [] {
      return;
    }
    var n := |scan|;
    forall j | 0 <= j < |ranges|
      ensures RangeIndicesAsWritten(ranges[j], n, aperture, rightToLeft, wrapTo2Pi)
           == RangeIndices(ranges[j], n, aperture, rightToLeft, wrapTo2Pi)
    {
      ClampsAgreeOffN(RawIndex(ranges[j].0, n, aperture, rightToLeft, wrapTo2Pi), n);
      ClampsAgreeOffN(RawIndex(ranges[j].1, n, aperture, rightToLeft, wrapTo2Pi), n);
    }
    assert !SomeRunOverruns(ranges, n, aperture, rightToLeft, wrapTo2Pi);
    var w := ExcludeAnglesAsWritten(scan, valid, aperture, rightToLeft, ranges, wrapTo2Pi).value;
    var c := ExcludeAngles(scan, valid, aperture, rightToLeft, ranges, wrapTo2Pi).value;
    forall i | 0 <= i < n
      ensures w[i] == c[i]
    {
      assert CoveredAsWritten(ranges, i, n, aperture, rightToLeft, wrapTo2Pi)
         <==> CoveredByAny(ranges, i, n, aperture, rightToLeft, wrapTo2Pi);
    }
    assert w == c;
  }

  /** Off an index of exactly n, the clamp as written is the intended one. */
  lemma ClampsAgreeOffN(raw: int, n: nat)
    requires n > 0 && raw != n
    ensures ClampAsWritten(raw, n) == ClampIndex(raw, n)
  {
  }

  /**
   * A start index of n also misleads the clamp as written: five rays over pi
   * radians sweeping right to left, and the range from 2.5 to 3.2 rad, which
   * lies past the last ray. The raw indices are 5 and 6, clamped as written to
   * 5 and 4, so the end is below the start and the wrap branch clears [0, 4)
   * and [5, 5): rays 0 to 3, every write in bounds. The intended clamp gives
   * [4, 4] and clears the last ray only.
   */
  lemma ClampAsWrittenWrapsWrongly(wrapTo2Pi: real -> real)
    requires wrapTo2Pi(2.5 + PI / 2.0) == 2.5 + PI / 2.0
    requires wrapTo2Pi(3.2 + PI / 2.0) == 3.2 + PI / 2.0
    ensures ExcludeAnglesAsWritten([1.0, 1.0, 1.0, 1.0, 1.0], [1, 1, 1, 1, 1], PI, true, [(2.5, 3.2)], wrapTo2Pi)
         == Ok([0, 0, 0, 0, 1])
    ensures ExcludeAngles([1.0, 1.0, 1.0, 1.0, 1.0], [1, 1, 1, 1, 1], PI, true, [(2.5, 3.2)], wrapTo2Pi)
         == Ok([1, 1, 1, 1, 0])
  {
    var n := 5;
    assert StartAngle(PI, true) == -PI / 2.0;
    assert AngleStep(n, PI, true) == PI / 4.0;
    assert RawIndex(2.5, n, PI, true, wrapTo2Pi) == 5 by {
      assert (2.5 + PI / 2.0) / (PI / 4.0) == 10.0 / PI + 2.0;
      assert 5.0 <= 10.0 / PI + 2.0 < 6.0;
    }
    assert RawIndex(3.2, n, PI, true, wrapTo2Pi) == 6 by {
      assert (3.2 + PI / 2.0) / (PI / 4.0) == 12.8 / PI + 2.0;
      assert 6.0 <= 12.8 / PI + 2.0 < 7.0;
    }
    var ranges := [(2.5, 3.2)];
    assert RangeIndicesAsWritten(ranges[0], n, PI, true, wrapTo2Pi) == (5, 4);
    assert RangeIndices(ranges[0], n, PI, true, wrapTo2Pi) == (4, 4);
    assert !SomeRunOverruns(ranges, n, PI, true, wrapTo2Pi);
    var w := ExcludeAnglesAsWritten([1.0, 1.0, 1.0, 1.0, 1.0], [1, 1, 1, 1, 1], PI, true, ranges, wrapTo2Pi).value;
    assert w == [0, 0, 0, 0, 1];
    var c := ExcludeAngles([1.0, 1.0, 1.0, 1.0, 1.0], [1, 1, 1, 1, 1], PI, true, ranges, wrapTo2Pi).value;
    assert c == [1, 1, 1, 1, 0];
  }

  /**
   * The third in-bounds divergence: five rays over pi radians sweeping right
   * to left, and the range from 2.5 to -1.0 rad. The raw indices are 5 and 0.
   * As written the start stays 5, so the wrap branch runs over [0, 0) and
   * [5, 5) and clears nothing; the intended clamp makes the start 4 and clears
   * the last ray.
   */
  lemma ClampAsWrittenSkipsWrappedRun(wrapTo2Pi: real -> real)
    requires wrapTo2Pi(2.5 + PI / 2.0) == 2.5 + PI / 2.0
    requires wrapTo2Pi(-1.0 + PI / 2.0) == -1.0 + PI / 2.0
    ensures ExcludeAnglesAsWritten([1.0, 1.0, 1.0, 1.0, 1.0], [1, 1, 1, 1, 1], PI, true, [(2.5, -1.0)], wrapTo2Pi)
         == Ok([1, 1, 1, 1, 1])
    ensures ExcludeAngles([1.0, 1.0, 1.0, 1.0, 1.0], [1, 1, 1, 1, 1], PI, true, [(2.5, -1.0)], wrapTo2Pi)
         == Ok([1, 1, 1, 1, 0])
  {
    var n := 5;
    assert StartAngle(PI, true) == -PI / 2.0;
    assert AngleStep(n, PI, true) == PI / 4.0;
    assert RawIndex(2.5, n, PI, true, wrapTo2Pi) == 5 by {
      assert (2.5 + PI / 2.0) / (PI / 4.0) == 10.0 / PI + 2.0;
      assert 5.0 <= 10.0 / PI + 2.0 < 6.0;
    }
    assert RawIndex(-1.0, n, PI, true, wrapTo2Pi) == 0 by {
      assert (-1.0 + PI / 2.0) / (PI / 4.0) == 2.0 - 4.0 / PI;
      assert 0.0 <= 2.0 - 4.0 / PI < 1.0;
    }
    var ranges := [(2.5, -1.0)];
    assert RangeIndicesAsWritten(ranges[0], n, PI, true, wrapTo2Pi) == (5, 0);
    assert RangeIndices(ranges[0], n, PI, true, wrapTo2Pi) == (4, 0);
    assert !SomeRunOverruns(ranges, n, PI, true, wrapTo2Pi);
    var w := ExcludeAnglesAsWritten([1.0, 1.0, 1.0, 1.0, 1.0], [1, 1, 1, 1, 1], PI, true, ranges, wrapTo2Pi).value;
    assert w == [1, 1, 1, 1, 1];
    var c := ExcludeAngles([1.0, 1.0, 1.0, 1.0, 1.0], [1, 1, 1, 1, 1], PI, true, ranges, wrapTo2Pi).value;
    assert c == [1, 1, 1, 1, 0];
  }

  /**
   * The filter as written is idempotent too: whether a run overruns depends
   * only on the ranges and N, and the flags it clears stay cleared.
   */
  lemma ExcludeAnglesAsWrittenIdempotent(scan: seq<real>, valid: seq<byte>, aperture: real, rightToLeft: bool,
                                         ranges: seq<(real, real)>, wrapTo2Pi: real -> real)
    requires ranges != [] && scan != [] && |scan| == |valid| ==> aperture != 0.0
    requires ExcludeAnglesAsWritten(scan, valid, aperture, rightToLeft, ranges, wrapTo2Pi).Ok?
    ensures var once := ExcludeAnglesAsWritten(scan, valid, aperture, rightToLeft, ranges, wrapTo2Pi).value;
      ExcludeAnglesAsWritten(scan, once, aperture, rightToLeft, ranges, wrapTo2Pi) == Ok(once)
  {
    var once := ExcludeAnglesAsWritten(scan, valid, aperture, rightToLeft, ranges, wrapTo2Pi).value;
    var twice := ExcludeAnglesAsWritten(scan, once, aperture, rightToLeft, ranges, wrapTo2Pi).value;
    assert forall i | 0 <= i < |once| :: twice[i] == once[i];
    assert twice == once;
  }

  // ---------------------------------------------------------------------------
  // The filter loops, over the range and flag vectors
  // ---------------------------------------------------------------------------

  /**
   * The loop of truncateByDistanceAndAngle: one pass over the rays, clearing
   * the flag of each discarded ray, and failing on the first ray when the
   * height band is empty.
   */
  method ApplyTruncation(scan: seq<real>, valid: seq<byte>, aperture: real, lim: TruncationLimits,
                         cos: real -> real) returns (r: Result<seq<byte>>)
    requires |valid| >= |scan|
    ensures r == Truncate(scan, valid, aperture, lim, cos)
  {
    var flags := valid;
    var nPts := |scan|;
    for k := 0 to nPts
      invariant |flags| == |valid|
      invariant k > 0 && HasHeightBand(lim) ==> lim.maxHeight > lim.minHeight
      invariant forall i :: 0 <= i < |flags| ==>
        flags[i] == if i < k && TruncationDiscards(scan[i], i, nPts, aperture, lim, cos) then 0 else valid[i]
    {
      var ang := TruncationAngle(k, nPts, aperture);
      var x := ForwardDistance(scan[k], ang, cos);
      var discard;
      if lim.minHeight != 0.0 || lim.maxHeight != 0.0 {
        if !(lim.maxHeight > lim.minHeight) {
          return Err(AssertionFailed);
        }
        discard := scan[k] < lim.minDistance || ang > lim.maxAngle || x > lim.h - lim.minHeight || x < lim.h - lim.maxHeight;
      } else {
        discard := scan[k] < lim.minDistance || ang > lim.maxAngle;
      }
      assert discard == DiscardsAt(scan[k], ang, x, lim);
      if discard {
        flags := flags[k := 0];
      }
    }
    ghost var t := Truncate(scan, valid, aperture, lim, cos);
    assert t.Ok? && flags == t.value;
    r := Ok(flags);
  }

  /**
   * The running angle of the area filter before ray k: the ray's angle, or
   * after the last ray, the angle one step further.
   */
  function RayAngleOrEnd(n: nat, aperture: real, rightToLeft: bool, k: nat): real
    requires 0 < n && k <= n
  {
    if k < n then RayAngle(n, aperture, rightToLeft, k)
    else if n == 1 then StartAngle(aperture, rightToLeft)
    else StartAngle(aperture, rightToLeft) + n as real * AngleStep(n, aperture, rightToLeft)
  }

  /**
   * The two clearing loops of filterByExclusionAngles: [ini, end] when
   * end >= ini, and otherwise [0, end) and [ini, N).
   */
  method ClearRun(flags: seq<byte>, ini: nat, end: nat) returns (cleared: seq<byte>)
    requires ini < |flags| && end < |flags|
    ensures |cleared| == |flags|
    ensures forall i :: 0 <= i < |flags| ==> cleared[i] == if RunCovers(ini, end, i, |flags|) then 0 else flags[i]
  {
    var n := |flags|;
    cleared := flags;
    if end >= ini {
      for i := ini to end + 1
        invariant |cleared| == n
        invariant forall k :: 0 <= k < n ==> cleared[k] == if ini <= k < i then 0 else flags[k]
      {
        cleared := cleared[i := 0];
      }
    } else {
      for i := 0 to end
        invariant |cleared| == n
        invariant forall k :: 0 <= k < n ==> cleared[k] == if k < i then 0 else flags[k]
      {
        cleared := cleared[i := 0];
      }
      for i := ini to n
        invariant |cleared| == n
        invariant forall k :: 0 <= k < n ==> cleared[k] == if k < end || ini <= k < i then 0 else flags[k]
      {
        cleared := cleared[i := 0];
      }
    }
  }

  /** Adding the step to the angle of ray k gives the angle of ray k + 1 (or the end angle). */
  lemma RayAngleAdvance(n: nat, aperture: real, rightToLeft: bool, k: nat, dA: real)
    requires 0 < n && k < n
    requires dA == if n > 1 then AngleStep(n, aperture, rightToLeft) else 0.0
    ensures RayAngleOrEnd(n, aperture, rightToLeft, k) + dA == RayAngleOrEnd(n, aperture, rightToLeft, k + 1)
  {
    if n > 1 {
      assert (k + 1) as real * dA == k as real * dA + dA;
    }
  }

  /**
   * The inner loop of filterByExclusionAreas: tries the areas in order and
   * stops at the first that holds the point.
   */
  method FindContainingArea(ext: Externals, areas: seq<ExclusionArea>, g: Point3) returns (hit: bool)
    ensures hit == AnyAreaContains(ext, areas, g)
  {
    for j := 0 to |areas|
      invariant forall jj :: 0 <= jj < j ==> !AreaContains(ext, areas[jj], g)
    {
      if ext.pointIntoPolygon(areas[j].polygon, g.x, g.y) && areas[j].zMin <= g.z <= areas[j].zMax {
        return true;
      }
    }
    hit := false;
  }

  /**
   * The loop of filterByExclusionAreas: walks the rays with the running angle
   * Ang (start angle, plus one step per ray), skips invalid rays, and clears a
   * valid ray as soon as one area holds its global point.
   */
  method ApplyExclusionAreas(ext: Externals, scan: seq<real>, valid: seq<byte>, aperture: real, rightToLeft: bool,
                             sensorPose: Pose3D, areas: seq<ExclusionArea>) returns (r: Result<seq<byte>>)
    ensures r == ExcludeAreas(ext, scan, valid, aperture, rightToLeft, sensorPose, areas)
  {
    if areas == [] {
      return Ok(valid);
    }
    if |scan| != |valid| {
      return Err(AssertionFailed);
    }
    var n := |scan|;
    if n == 0 {
      return Ok(valid);
    }
    var flags := valid;
    var ang := StartAngle(aperture, rightToLeft);
    // With one ray the step (aperture/0) is only added after the last ray.
    var dA := if n > 1 then AngleStep(n, aperture, rightToLeft) else 0.0;
    for k := 0 to n
      invariant |flags| == n
      invariant ang == RayAngleOrEnd(n, aperture, rightToLeft, k)
      invariant forall i :: 0 <= i < n ==>
        flags[i] == if i < k && valid[i] != 0 && RayExcluded(ext, scan, aperture, rightToLeft, sensorPose, areas, i)
                    then 0 else valid[i]
    {
      if flags[k] != 0 {
        var g := RayPoint(ext, sensorPose, scan[k], ang);
        var hit := FindContainingArea(ext, areas, g);
        if hit {
          flags := flags[k := 0];
        }
      }
      RayAngleAdvance(n, aperture, rightToLeft, k, dA);
      ang := ang + dA;
    }
    ghost var e := ExcludeAreas(ext, scan, valid, aperture, rightToLeft, sensorPose, areas);
    assert e.Ok? && flags == e.value;
    r := Ok(flags);
  }

  /**
   * One pass of filterByExclusionAngles: the indices of the range, clamped
   * into [0, N) (the intended clamp), and the run between them cleared.
   */
  method ExcludeRange(flags: seq<byte>, range: (real, real), aperture: real, rightToLeft: bool,
                      wrapTo2Pi: real -> real) returns (cleared: seq<byte>)
    requires |flags| > 0 && aperture != 0.0
    ensures |cleared| == |flags|
    ensures var idx := RangeIndices(range, |flags|, aperture, rightToLeft, wrapTo2Pi);
      forall i :: 0 <= i < |flags| ==> cleared[i] == if RunCovers(idx.0, idx.1, i, |flags|) then 0 else flags[i]
  {
    var n := |flags|;
    var ini := RawIndex(range.0, n, aperture, rightToLeft, wrapTo2Pi);
    var end := RawIndex(range.1, n, aperture, rightToLeft, wrapTo2Pi);
    if ini < 0 { ini := 0; }
    if end < 0 { end := 0; }
    if ini >= n { ini := n - 1; }
    if end >= n { end := n - 1; }
    assert (ini, end) == RangeIndices(range, n, aperture, rightToLeft, wrapTo2Pi);
    cleared := ClearRun(flags, ini, end);
  }

  /**
   * The loop of filterByExclusionAngles, with the intended clamp: for each
   * range, the raw indices are clamped into [0, N) and their run is cleared.
   */
  method ApplyExclusionAngles(scan: seq<real>, valid: seq<byte>, aperture: real, rightToLeft: bool,
                              ranges: seq<(real, real)>, wrapTo2Pi: real -> real) returns (r: Result<seq<byte>>)
    requires ranges != [] && scan != [] && |scan| == |valid| ==> aperture != 0.0
    ensures r == ExcludeAngles(scan, valid, aperture, rightToLeft, ranges, wrapTo2Pi)
  {
    if ranges == [] {
      return Ok(valid);
    }
    if |scan| != |valid| {
      return Err(AssertionFailed);
    }
    var n := |scan|;
    if n == 0 {
      return Ok(valid);
    }
    var flags := valid;
    for j := 0 to |ranges|
      invariant |flags| == n
      invariant forall i :: 0 <= i < n ==>
        flags[i] == if CoveredByAny(ranges[..j], i, n, aperture, rightToLeft, wrapTo2Pi) then 0 else valid[i]
    {
      flags := ExcludeRange(flags, ranges[j], aperture, rightToLeft, wrapTo2Pi);
      forall i | 0 <= i < n
        ensures flags[i] == if CoveredByAny(ranges[..j + 1], i, n, aperture, rightToLeft, wrapTo2Pi) then 0 else valid[i]
      {
        CoveredByAnyExtend(ranges, j, i, n, aperture, rightToLeft, wrapTo2Pi);
      }
    }
    assert ranges[..|ranges|] == ranges;
    ghost var e := ExcludeAngles(scan, valid, aperture, rightToLeft, ranges, wrapTo2Pi);
    assert e.Ok? && flags == e.value;
    r := Ok(flags);
  }
}
