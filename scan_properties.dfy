/**
 * T2DScanProperties: the sweep parameters of a scan (ray count, aperture,
 * direction), and the ordering the record defines on them.
 */
module Properties {

  datatype ScanProperties = ScanProperties(nRays: nat, aperture: real, rightToLeft: bool)

  /**
   * operator< on scan properties: a is below b if it has fewer rays, or a
   * smaller aperture, or sweeps right to left while b does not. The three
   * tests are joined by "or", not compared field after field.
   */
  function Less(a: ScanProperties, b: ScanProperties): (lt: bool)
    ensures lt ==> a != b
    ensures a.nRays < b.nRays || a.aperture < b.aperture ==> lt
  {
    a.nRays < b.nRays || a.aperture < b.aperture || (a.rightToLeft && !b.rightToLeft)
  }

  /** No properties are below themselves. */
  lemma LessIrreflexive(a: ScanProperties)
    ensures !Less(a, a)
  {
  }

  /**
   * The ordering is not asymmetric, so it is not a strict weak ordering: one
   * ray with aperture 2 and two rays with aperture 1 are each below the other.
   */
  lemma LessNotAsymmetric()
    ensures exists a: ScanProperties, b: ScanProperties :: Less(a, b) && Less(b, a)
  {
    var a := ScanProperties(1, 2.0, true);
    var b := ScanProperties(2, 1.0, true);
    assert Less(a, b) && Less(b, a);
  }

  /**
   * Two properties that differ in one field only are ordered as that field
   * is: the ordering restricted to any single field is the usual one.
   */
  lemma LessOnOneField(a: ScanProperties, b: ScanProperties)
    ensures a.aperture == b.aperture && a.rightToLeft == b.rightToLeft ==> (Less(a, b) <==> a.nRays < b.nRays)
    ensures a.nRays == b.nRays && a.rightToLeft == b.rightToLeft ==> (Less(a, b) <==> a.aperture < b.aperture)
    ensures a.nRays == b.nRays && a.aperture == b.aperture ==> (Less(a, b) <==> a.rightToLeft && !b.rightToLeft)
  {
  }
}
