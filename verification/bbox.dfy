/** Axis-aligned latitude/longitude rectangles and the strict (open)
    rectangle-overlap test the quadtree search prunes with.

    Coordinates are `real`: the Rust `geohash` crate stores `f64` bounds and
    only takes midpoints of them (a sum, then a halving) and compares them,
    so rounding is abstracted away. */
module BBox {

  /** A rectangle given by its four bounds. Nothing forces min <= max. */
  datatype BoundingBox = BoundingBox(minLat: real, minLng: real, maxLat: real, maxLng: real)

  /** The ordering the search expects of its inputs (but never checks). */
  predicate WellFormed(b: BoundingBox) {
    b.minLat <= b.maxLat && b.minLng <= b.maxLng
  }

  /** A box with a non-empty interior. */
  predicate Proper(b: BoundingBox) {
    b.minLat < b.maxLat && b.minLng < b.maxLng
  }

  /** The point (lat, lng) lies in the open interior of `b`. */
  predicate StrictlyInside(lat: real, lng: real, b: BoundingBox) {
    b.minLat < lat < b.maxLat && b.minLng < lng < b.maxLng
  }

  /** The point (lat, lng) lies in `b`, boundary included. */
  predicate InClosed(lat: real, lng: real, b: BoundingBox) {
    b.minLat <= lat <= b.maxLat && b.minLng <= lng <= b.maxLng
  }

  /** Every bound of `inner` lies within the matching bounds of `outer`. */
  predicate Contains(outer: BoundingBox, inner: BoundingBox) {
    outer.minLat <= inner.minLat && inner.maxLat <= outer.maxLat &&
    outer.minLng <= inner.minLng && inner.maxLng <= outer.maxLng
  }

  /** The overlap test: the boxes are reported disjoint as soon as one of
      four separating conditions holds, so a shared edge or corner (an equal
      bound) is not an overlap. */
  function Intersects(a: BoundingBox, b: BoundingBox): (r: bool)
    ensures r <==> a.minLat < b.maxLat && b.minLat < a.maxLat &&
                   a.minLng < b.maxLng && b.minLng < a.maxLng
  {
    if a.minLat >= b.maxLat
       || a.maxLat <= b.minLat
       || a.minLng >= b.maxLng
       || a.maxLng <= b.minLng
    then false
    else true
  }

  /** The test does not depend on the order of its arguments. */
  lemma IntersectsSymmetric(a: BoundingBox, b: BoundingBox)
    ensures Intersects(a, b) <==> Intersects(b, a)
  {
  }

  /** Boxes that meet only along an edge or at a corner (a bound of one
      equals the opposite bound of the other) do not intersect. */
  lemma TouchingBoxesDoNotIntersect(a: BoundingBox, b: BoundingBox)
    requires a.maxLat == b.minLat || a.minLat == b.maxLat ||
             a.maxLng == b.minLng || a.minLng == b.maxLng
    ensures !Intersects(a, b) && !Intersects(b, a)
  {
  }

  /** Reference meaning of the test: two boxes with non-empty interiors
      intersect exactly when some point lies strictly inside both. */
  lemma IntersectsIffSharedInteriorPoint(a: BoundingBox, b: BoundingBox)
    requires Proper(a) && Proper(b)
    ensures Intersects(a, b) <==>
            exists lat: real, lng: real :: StrictlyInside(lat, lng, a) && StrictlyInside(lat, lng, b)
  {
    if Intersects(a, b) {
      var loLat := if a.minLat < b.minLat then b.minLat else a.minLat;
      var hiLat := if a.maxLat < b.maxLat then a.maxLat else b.maxLat;
      var loLng := if a.minLng < b.minLng then b.minLng else a.minLng;
      var hiLng := if a.maxLng < b.maxLng then a.maxLng else b.maxLng;
      var lat := (loLat + hiLat) / 2.0;
      var lng := (loLng + hiLng) / 2.0;
      assert StrictlyInside(lat, lng, a) && StrictlyInside(lat, lng, b);
    }
    if exists lat: real, lng: real :: StrictlyInside(lat, lng, a) && StrictlyInside(lat, lng, b) {
      var lat: real, lng: real :| StrictlyInside(lat, lng, a) && StrictlyInside(lat, lng, b);
      assert Intersects(a, b);
    }
  }

  /** Growing a box never loses an intersection. */
  lemma IntersectsMonotone(inner: BoundingBox, outer: BoundingBox, q: BoundingBox)
    requires Contains(outer, inner)
    requires Intersects(inner, q)
    ensures Intersects(outer, q)
  {
  }
}
