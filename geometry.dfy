/**
 * Sweep geometry of a 2D range scan, and the external numeric and geometric
 * collaborators the scan code calls (trigonometry, angle wrapping, pose
 * composition, point-in-polygon). Floating-point values are modelled as reals;
 * the collaborators are opaque function values supplied by the caller.
 */
module Geometry {

  /** M_PI, the double closest to pi. */
  const PI: real := 3.141592653589793

  /** std::numeric_limits<double>::max(). */
  const DoubleMax: real := 1.7976931348623157e308

  /** DEG2RAD: degrees to radians. */
  function Deg2Rad(deg: real): real
  {
    deg * PI / 180.0
  }

  /** fabs */
  function Abs(x: real): (r: real)
    ensures r >= 0.0 && (r == x || r == -x)
  {
    if x < 0.0 then -x else x
  }

  /** A 3D pose (CPose3D): translation and yaw/pitch/roll. */
  datatype Pose3D = Pose3D(x: real, y: real, z: real, yaw: real, pitch: real, roll: real)

  datatype Point2 = Point2(x: real, y: real)
  datatype Point3 = Point3(x: real, y: real, z: real)

  /** A 2D polygon (CPolygon) given by its vertices. */
  datatype Polygon = Polygon(vertices: seq<Point2>)

  /**
   * The external functions the scan code relies on. Their bodies live outside
   * this component, so the model treats them as arbitrary functions.
   */
  datatype Externals = Externals(
    cos: real -> real,
    sin: real -> real,
    wrapTo2Pi: real -> real,
    composePoint: (Pose3D, Point3) -> Point3,
    pointIntoPolygon: (Polygon, real, real) -> bool)

  /** Angle of the first ray: -aperture/2 sweeping right to left, +aperture/2 otherwise. */
  function StartAngle(aperture: real, rightToLeft: bool): real
  {
    if rightToLeft then -0.5 * aperture else 0.5 * aperture
  }

  /** Angular increment between consecutive rays of an n-ray sweep. */
  function AngleStep(n: nat, aperture: real, rightToLeft: bool): (dA: real)
    requires n > 1
    ensures aperture > 0.0 ==> (rightToLeft <==> dA > 0.0)
  {
    if rightToLeft then aperture / (n - 1) as real else -aperture / (n - 1) as real
  }

  /**
   * Angle of ray k. With a single ray the step would be aperture/0, which is
   * never used for that ray: its angle is the start angle.
   */
  function RayAngle(n: nat, aperture: real, rightToLeft: bool, k: nat): real
    requires k < n
  {
    if n == 1 then StartAngle(aperture, rightToLeft)
    else StartAngle(aperture, rightToLeft) + k as real * AngleStep(n, aperture, rightToLeft)
  }

  /** Conversion of a double to int in C++: truncation toward zero (not rounding). */
  function TruncToInt(x: real): (r: int)
    ensures x >= 0.0 ==> 0 <= r && r as real <= x < r as real + 1.0
    ensures x < 0.0 ==> r <= 0 && r as real - 1.0 < x <= r as real
  {
    if x >= 0.0 then x.Floor else -((-x).Floor)
  }

  /**
   * Index of the ray nearest to `angle` before clamping:
   * (int)(wrapTo2Pi(angle - start) / step). With one ray the step is
   * +-aperture/0, an infinity in IEEE arithmetic, and any finite quotient by it
   * is zero.
   */
  function RawIndex(angle: real, n: nat, aperture: real, rightToLeft: bool, wrapTo2Pi: real -> real): (i: int)
    requires n > 0
    requires n > 1 ==> aperture != 0.0
    ensures n == 1 ==> i == 0
    ensures n > 1 ==> var q := wrapTo2Pi(angle - StartAngle(aperture, rightToLeft)) / AngleStep(n, aperture, rightToLeft);
      && (q >= 0.0 ==> 0 <= i && i as real <= q < i as real + 1.0)
      && (q < 0.0 ==> i <= 0 && i as real - 1.0 < q <= i as real)
  {
    if n == 1 then 0
    else TruncToInt(wrapTo2Pi(angle - StartAngle(aperture, rightToLeft)) / AngleStep(n, aperture, rightToLeft))
  }
}
