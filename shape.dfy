/**
 * The point lists of the basic shapes in petrify/shape.py: the axis-aligned
 * `Rectangle`, the `Circle` approximated by equally spaced points, and the
 * `arc` sampled with `frange`. The trigonometric functions and the constant
 * tau are parameters.
 */
module Shape {
  import opened Wrappers
  import PlanePoint
  import PlanePolygon
  import Frange

  type V2 = PlanePoint.V2

  /** A rectangle keeps its origin, its size and its extent besides its points. */
  datatype Rectangle = Rectangle(origin: V2, size: PlanePoint.Operand, extent: V2, polygon: PlanePolygon.Polygon)

  /** The four corners, from the origin up, across and down again. */
  function Corners(o: V2, e: V2): seq<V2> {
    [PlanePoint.Point(o.x, o.y), PlanePoint.Point(o.x, e.y), PlanePoint.Point(e.x, e.y), PlanePoint.Point(e.x, o.y)]
  }

  /**
   * `Rectangle(origin, size)`: the extent is `origin + size`, and a size
   * that cannot be added (NotImplemented, a TypeError) is None.
   */
  function NewRectangle(origin: V2, size: PlanePoint.Operand): (r: Option<Rectangle>)
    ensures r.Some? <==> PlanePoint.Add(origin, size).Some?
    ensures r.Some? ==> r.value.origin == origin && r.value.size == size
    ensures r.Some? ==> r.value.extent == PlanePoint.Add(origin, size).value
  {
    match PlanePoint.Add(origin, size)
    case None => None
    case Some(extent) => Some(Rectangle(origin, size, extent, PlanePolygon.Polygon(Corners(origin, extent))))
  }

  /** `tau * float(a) / segments`. */
  function Angle(tau: real, a: nat, segments: int): real
    requires segments != 0
  {
    tau * (a as real) / (segments as real)
  }

  /** `Point(math.cos(theta) * radius, math.sin(theta) * radius)`. */
  function RingPoint(radius: real, theta: real, cos: real -> real, sin: real -> real): V2 {
    PlanePoint.V2(PlanePoint.PointKind, cos(theta) * radius, sin(theta) * radius)
  }

  /** A circle keeps its origin and radius besides its points. */
  datatype Circle = Circle(origin: V2, radius: real, polygon: PlanePolygon.Polygon)

  /**
   * `Circle(origin, radius, segments)`: one point per index below
   * `segments`, at the angle's cosine and sine scaled by the radius. The
   * origin is stored but not added to the points. No segments (or a negative
   * count) gives no points, and then nothing is divided.
   */
  function NewCircle(origin: V2, radius: real, segments: int, tau: real, cos: real -> real, sin: real -> real): (r: Circle)
    ensures |r.polygon.points| == if segments > 0 then segments else 0
    ensures r.origin == origin && r.radius == radius
  {
    var n := if segments > 0 then segments else 0;
    Circle(origin, radius, PlanePolygon.Polygon(seq(n, a requires 0 <= a < n =>
      RingPoint(radius, Angle(tau, a, segments), cos, sin))))
  }

  /** `(end - start) / (segments - 1)`; one segment divides by zero (None). */
  function ArcStep(start: real, end: real, segments: int): Option<real> {
    if segments == 1 then None else Some((end - start) / ((segments - 1) as real))
  }

  /** The angles `arc` samples, or None for the division by zero. */
  function ArcAngles(start: real, end: real, segments: int): (r: Option<seq<real>>)
    ensures r.Some? <==> segments != 1
  {
    match ArcStep(start, end, segments)
    case None => None
    case Some(step) =>
      QuotientNonzero(end - start, (segments - 1) as real);
      Some(Frange.Frange(start, end, step, true))
  }

  /** `Point(cos(theta), sin(theta)) * radius + Vector(*center.xy)`: a point, since a point plus a vector is one. */
  function ArcPoint(center: V2, radius: real, theta: real, cos: real -> real, sin: real -> real): V2 {
    PlanePoint.V2(PlanePoint.PointKind, cos(theta) * radius + center.x, sin(theta) * radius + center.y)
  }

  /** `arc(center, radius, start, end, segments)`. */
  function Arc(center: V2, radius: real, start: real, end: real, segments: int, cos: real -> real, sin: real -> real): (r: Option<seq<V2>>)
    ensures r.Some? <==> segments != 1
    ensures r.Some? ==> |r.value| == |ArcAngles(start, end, segments).value|
  {
    match ArcAngles(start, end, segments)
    case None => None
    case Some(angles) => Some(seq(|angles|, i requires 0 <= i < |angles| => ArcPoint(center, radius, angles[i], cos, sin)))
  }

  // ---------------------------------------------------------------------
  // Helpers

  lemma QuotientNonzero(d: real, k: real)
    requires k != 0.0
    ensures d == 0.0 || d / k != 0.0
  {
    PlanePoint.QuotientTimesDivisor(d, k);
  }

  /** (c r)^2 + (s r)^2 = r^2 when c^2 + s^2 = 1. */
  lemma ScaledUnit(c: real, s: real, r: real)
    requires c * c + s * s == 1.0
    ensures (c * r) * (c * r) + (s * r) * (s * r) == r * r
  {
    assert (c * r) * (c * r) == (c * c) * (r * r);
    assert (s * r) * (s * r) == (s * s) * (r * r);
    assert (c * c) * (r * r) + (s * s) * (r * r) == (c * c + s * s) * (r * r);
  }

  /** The squared distance between two points. */
  function DistanceSquared(p: V2, q: V2): real {
    (p.x - q.x) * (p.x - q.x) + (p.y - q.y) * (p.y - q.y)
  }

  // ---------------------------------------------------------------------
  // Properties

  /**
   * The rectangle's corners are its origin and extent combined; its shoelace
   * sum is twice the product of the extent's offsets from the origin, so it
   * is clockwise exactly when both offsets have the same sign.
   */
  lemma RectangleOrientation(origin: V2, size: PlanePoint.Operand, rect: Rectangle)
    requires NewRectangle(origin, size) == Some(rect)
    ensures |rect.polygon.points| == 4
    ensures rect.polygon.points[0] == PlanePoint.Point(origin.x, origin.y)
    ensures rect.polygon.points[2] == PlanePoint.Point(rect.extent.x, rect.extent.y)
    ensures PlanePolygon.SignedArea(rect.polygon.points)
      == 2.0 * (rect.extent.x - origin.x) * (rect.extent.y - origin.y)
    ensures PlanePolygon.Clockwise(rect.polygon)
      <==> (rect.extent.x - origin.x) * (rect.extent.y - origin.y) > 0.0
  {
    var o, e := origin, rect.extent;
    var s := rect.polygon.points;
    assert s == Corners(o, e);
    PlanePolygon.QuadArea(s[0], s[1], s[2], s[3]);
    PlanePolygon.EdgeTermVertical(s[0], s[1]);
    PlanePolygon.EdgeTermVertical(s[2], s[3]);
    RectangleShoelace(e.x - o.x, e.y, o.y);
  }

  /** The two horizontal edges of a rectangle: d (2 ey) + (-d) (2 oy) is 2 d (ey - oy). */
  lemma RectangleShoelace(d: real, ey: real, oy: real)
    ensures d * (ey + ey) + (-d) * (oy + oy) == 2.0 * d * (ey - oy)
  {
  }

  /** A vector size: the extent is the origin moved by the size. */
  lemma RectangleSize(origin: V2, size: V2, rect: Rectangle)
    requires NewRectangle(origin, PlanePoint.Planar(size)) == Some(rect)
    ensures rect.extent.x - origin.x == size.x && rect.extent.y - origin.y == size.y
    ensures PlanePolygon.Clockwise(rect.polygon) <==> size.x * size.y > 0.0
  {
    RectangleOrientation(origin, PlanePoint.Planar(size), rect);
  }

  /**
   * Every point of a circle lies at the radius from (0, 0), wherever its
   * origin is.
   */
  lemma CircleAroundZero(origin: V2, radius: real, segments: int, tau: real, cos: real -> real, sin: real -> real, i: int)
    requires forall t :: cos(t) * cos(t) + sin(t) * sin(t) == 1.0
    requires 0 <= i < |NewCircle(origin, radius, segments, tau, cos, sin).polygon.points|
    ensures DistanceSquared(NewCircle(origin, radius, segments, tau, cos, sin).polygon.points[i], PlanePoint.Point(0.0, 0.0))
      == radius * radius
  {
    var t := Angle(tau, i, segments);
    ScaledUnit(cos(t), sin(t), radius);
  }

  /**
   * The points do not depend on the origin: a circle at Point(5, 0) with
   * radius 1 and one segment has its point at (1, 0), at distance 4 from its
   * origin.
   */
  lemma CircleMissesOrigin(cos: real -> real, sin: real -> real, tau: real)
    requires cos(0.0) == 1.0 && sin(0.0) == 0.0
    ensures var c := NewCircle(PlanePoint.Point(5.0, 0.0), 1.0, 1, tau, cos, sin);
      c.polygon.points == [PlanePoint.Point(1.0, 0.0)]
      && DistanceSquared(c.polygon.points[0], c.origin) == 16.0
  {
    assert Angle(tau, 0, 1) == 0.0;
  }

  /** The circle the stored origin promises: each ring point moved by the origin. */
  function NewCircleCorrected(origin: V2, radius: real, segments: int, tau: real, cos: real -> real, sin: real -> real): (r: Circle)
    ensures |r.polygon.points| == if segments > 0 then segments else 0
    ensures r.origin == origin && r.radius == radius
  {
    var n := if segments > 0 then segments else 0;
    Circle(origin, radius, PlanePolygon.Polygon(seq(n, a requires 0 <= a < n =>
      var q := RingPoint(radius, Angle(tau, a, segments), cos, sin);
      PlanePoint.V2(PlanePoint.PointKind, origin.x + q.x, origin.y + q.y))))
  }

  /**
   * Every point of the corrected circle lies at the radius from its origin,
   * and at origin (0, 0) it has the points the source computes.
   */
  lemma CircleCorrectedAroundOrigin(origin: V2, radius: real, segments: int, tau: real, cos: real -> real, sin: real -> real, i: int)
    requires forall t :: cos(t) * cos(t) + sin(t) * sin(t) == 1.0
    requires 0 <= i < |NewCircleCorrected(origin, radius, segments, tau, cos, sin).polygon.points|
    ensures DistanceSquared(NewCircleCorrected(origin, radius, segments, tau, cos, sin).polygon.points[i], origin)
      == radius * radius
    ensures origin.x == 0.0 && origin.y == 0.0 ==>
      NewCircleCorrected(origin, radius, segments, tau, cos, sin).polygon.points[i] ==
      NewCircle(origin, radius, segments, tau, cos, sin).polygon.points[i]
  {
    var t := Angle(tau, i, segments);
    var q := RingPoint(radius, t, cos, sin);
    var c := NewCircleCorrected(origin, radius, segments, tau, cos, sin).polygon.points[i];
    assert c == PlanePoint.V2(PlanePoint.PointKind, origin.x + q.x, origin.y + q.y);
    assert c.x - origin.x == q.x && c.y - origin.y == q.y;
    ScaledUnit(cos(t), sin(t), radius);
  }

  /** Every point of an arc lies at the radius from its center. */
  lemma ArcOnCircle(center: V2, radius: real, start: real, end: real, segments: int, cos: real -> real, sin: real -> real, i: int)
    requires forall t :: cos(t) * cos(t) + sin(t) * sin(t) == 1.0
    requires segments != 1
    requires 0 <= i < |Arc(center, radius, start, end, segments, cos, sin).value|
    ensures DistanceSquared(Arc(center, radius, start, end, segments, cos, sin).value[i], center) == radius * radius
  {
    var t := ArcAngles(start, end, segments).value[i];
    ScaledUnit(cos(t), sin(t), radius);
  }

  /** An arc always ends on its end angle. */
  lemma ArcEndsAtEnd(center: V2, radius: real, start: real, end: real, segments: int, cos: real -> real, sin: real -> real)
    requires segments != 1
    ensures var points := Arc(center, radius, start, end, segments, cos, sin).value;
      |points| > 0 && points[|points| - 1] == ArcPoint(center, radius, end, cos, sin)
  {
    var step := ArcStep(start, end, segments).value;
    QuotientNonzero(end - start, (segments - 1) as real);
    Frange.EndValue(start, end, step);
  }

  /** No counted value meets b, so none is skipped. */
  lemma {:induction false} CountedAll(a: real, b: real, step: real, n: nat)
    requires forall i :: 0 <= i < n ==> Frange.At(a, step, i) != b
    ensures Frange.Counted(a, b, step, n) == seq(n, i requires 0 <= i < n => Frange.At(a, step, i))
  {
    if n > 0 {
      CountedAll(a, b, step, n - 1);
    }
  }

  /** start + i (end - start) / k reaches end only at i = k. */
  lemma EvenSplit(start: real, end: real, k: nat, i: int)
    requires k > 0 && start != end && 0 <= i < k
    ensures Frange.At(start, (end - start) / (k as real), i) != end
  {
    QuotientNonzero(end - start, k as real);
    PlanePoint.QuotientTimesDivisor(end - start, k as real);
  }

  /** (b - a) / ((b - a) / k) is k. */
  lemma StepsFit(d: real, k: real)
    requires d != 0.0 && k != 0.0
    ensures d / (d / k) == k
  {
    QuotientNonzero(d, k);
    PlanePoint.QuotientTimesDivisor(d, k);
    PlanePoint.QuotientTimesDivisor(d, d / k);
  }

  /**
   * With at least two segments and distinct ends, an arc samples exactly
   * `segments` angles, evenly spaced from start to end.
   */
  lemma ArcEvenlySpaced(start: real, end: real, segments: int)
    requires segments >= 2 && start != end
    ensures var angles := ArcAngles(start, end, segments).value;
      |angles| == segments && angles[segments - 1] == end
      && forall i :: 0 <= i < segments - 1 ==> angles[i] == start + (i as real) * ((end - start) / ((segments - 1) as real))
  {
    var k: nat := segments - 1;
    var step := (end - start) / (k as real);
    StepsFit(end - start, k as real);
    assert Frange.Count(start, end, step) == k;
    forall i | 0 <= i < k
      ensures Frange.At(start, step, i) != end
    {
      EvenSplit(start, end, k, i);
    }
    CountedAll(start, end, step, k);
  }

  /** The documented example: a half circle of radius 5 about (5, 0) in three samples. */
  lemma ArcExample(tau: real, cos: real -> real, sin: real -> real)
    requires tau != 0.0
    requires cos(0.0) == 1.0 && sin(0.0) == 0.0
    requires cos(tau / 4.0) == 0.0 && sin(tau / 4.0) == 1.0
    requires cos(tau / 2.0) == -1.0 && sin(tau / 2.0) == 0.0
    ensures Arc(PlanePoint.Point(5.0, 0.0), 5.0, 0.0, tau / 2.0, 3, cos, sin)
      == Some([PlanePoint.Point(10.0, 0.0), PlanePoint.Point(5.0, 5.0), PlanePoint.Point(0.0, 0.0)])
  {
    ArcEvenlySpaced(0.0, tau / 2.0, 3);
    var angles := ArcAngles(0.0, tau / 2.0, 3).value;
    assert angles == [0.0, tau / 4.0, tau / 2.0];
    var points := Arc(PlanePoint.Point(5.0, 0.0), 5.0, 0.0, tau / 2.0, 3, cos, sin).value;
    assert points[0] == PlanePoint.Point(10.0, 0.0);
    assert points[1] == PlanePoint.Point(5.0, 5.0);
    assert points[2] == PlanePoint.Point(0.0, 0.0);
    assert points == [PlanePoint.Point(10.0, 0.0), PlanePoint.Point(5.0, 5.0), PlanePoint.Point(0.0, 0.0)];
  }
}
