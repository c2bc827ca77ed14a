/**
 * Simple and complex polygons in the plane (petrify/plane/__init__.py,
 * `Polygon2` and `ComplexPolygon2`). A polygon is its list of points; its
 * edges join each point to the next, the last one back to the first.
 */
module PlanePolygon {
  import opened Wrappers
  import opened PlanePoint
  import opened PlaneLine
  import opened PlaneUtil

  datatype Polygon = Polygon(points: seq<V2>)

  /** The segment from a to b, as the two-point segment constructor builds it. */
  function Edge(a: V2, b: V2): L2 {
    L2(SegmentK, a, Vector(b.x - a.x, b.y - a.y))
  }

  /** The index after i, wrapping around at n. */
  function Next(i: nat, n: nat): nat
    requires i < n
  {
    if i + 1 == n then 0 else i + 1
  }

  /** `segments()`: one edge per point, from points[i] to points[i + 1 mod n]. */
  function Segments(poly: Polygon): (r: seq<L2>)
    ensures |r| == |poly.points|
  {
    seq(|poly.points|, i requires 0 <= i < |poly.points| =>
      Edge(poly.points[i], poly.points[Next(i, |poly.points|)]))
  }

  // ---------------------------------------------------------------------
  // Orientation

  /** The shoelace term of the edge from a to b: (b.x - a.x)(b.y + a.y). */
  function EdgeTerm(a: V2, b: V2): real {
    (b.x - a.x) * (b.y + a.y)
  }

  /** The shoelace sum along the open chain s[0], s[1], ..., s[|s| - 1]. */
  function ChainSum(s: seq<V2>): real {
    if |s| < 2 then 0.0 else EdgeTerm(s[0], s[1]) + ChainSum(s[1..])
  }

  /** The shoelace sum over all edges of the closed polygon. */
  function SignedArea(s: seq<V2>): real {
    if |s| == 0 then 0.0 else ChainSum(s) + EdgeTerm(s[|s| - 1], s[0])
  }

  /** `clockwise()`: the shoelace sum over the edges is positive. */
  predicate Clockwise(poly: Polygon) {
    SignedArea(poly.points) > 0.0
  }

  /** `list(reversed(points))`. */
  function Reversed(s: seq<V2>): (r: seq<V2>)
    ensures |r| == |s|
    ensures forall i :: 0 <= i < |s| ==> r[i] == s[|s| - 1 - i]
  {
    if |s| == 0 then [] else Reversed(s[1..]) + [s[0]]
  }

  /** `inverted()`: the same points in reverse order. */
  function Inverted(poly: Polygon): Polygon {
    Polygon(Reversed(poly.points))
  }

  /** `to_clockwise()`: self when already clockwise, else the reversal. */
  function ToClockwise(poly: Polygon): Polygon {
    if Clockwise(poly) then poly else Inverted(poly)
  }

  /** `to_counterclockwise()`: the reversal when clockwise, else self. */
  function ToCounterclockwise(poly: Polygon): Polygon {
    if Clockwise(poly) then Inverted(poly) else poly
  }

  // ---------------------------------------------------------------------
  // Shift and envelope

  /** Where a Python slice `[n:]` starts in a list of length len. */
  function SliceStart(n: int, len: nat): (k: nat)
    ensures k <= len
    ensures 0 <= n <= len ==> k == n
    ensures n < 0 && n + len >= 0 ==> k == len + n
  {
    if n < 0 then (if len + n < 0 then 0 else len + n)
    else if n > len then len
    else n
  }

  /** `shift(n)`: points[n:] + points[:n]. */
  function Shift(poly: Polygon, n: int): Polygon {
    var k := SliceStart(n, |poly.points|);
    Polygon(poly.points[k..] + poly.points[..k])
  }

  /** The axis-aligned rectangle `Rectangle(origin, size)`. */
  datatype Rect = Rect(origin: V2, size: V2)

  function MinX(s: seq<V2>): (r: real)
    requires |s| > 0
    ensures forall i :: 0 <= i < |s| ==> r <= s[i].x
    ensures exists i :: 0 <= i < |s| && r == s[i].x
  {
    if |s| == 1 then s[0].x
    else var m := MinX(s[1..]); assert s[1..][0] == s[1]; if s[0].x <= m then s[0].x else m
  }

  function MinY(s: seq<V2>): (r: real)
    requires |s| > 0
    ensures forall i :: 0 <= i < |s| ==> r <= s[i].y
    ensures exists i :: 0 <= i < |s| && r == s[i].y
  {
    if |s| == 1 then s[0].y
    else var m := MinY(s[1..]); assert s[1..][0] == s[1]; if s[0].y <= m then s[0].y else m
  }

  function MaxX(s: seq<V2>): (r: real)
    requires |s| > 0
    ensures forall i :: 0 <= i < |s| ==> s[i].x <= r
    ensures exists i :: 0 <= i < |s| && r == s[i].x
  {
    if |s| == 1 then s[0].x
    else var m := MaxX(s[1..]); assert s[1..][0] == s[1]; if s[0].x >= m then s[0].x else m
  }

  function MaxY(s: seq<V2>): (r: real)
    requires |s| > 0
    ensures forall i :: 0 <= i < |s| ==> s[i].y <= r
    ensures exists i :: 0 <= i < |s| && r == s[i].y
  {
    if |s| == 1 then s[0].y
    else var m := MaxY(s[1..]); assert s[1..][0] == s[1]; if s[0].y >= m then s[0].y else m
  }

  /**
   * `envelope()`: the rectangle at (min x, min y) of size (max - min); `min`
   * of no points is a ValueError (None).
   */
  function Envelope(poly: Polygon): Option<Rect> {
    if |poly.points| == 0 then None
    else
      var s := poly.points;
      Some(Rect(Point(MinX(s), MinY(s)), Vector(MaxX(s) - MinX(s), MaxY(s) - MinY(s))))
  }

  // ---------------------------------------------------------------------
  // Containment

  /**
   * `l.connect(p).v.magnitude_squared() == 0` for a nonzero edge: the closest
   * segment from the edge to p (p's connection, swapped) has no length.
   */
  predicate OnEdge(l: L2, p: V2) {
    MagnitudeSquared(l.v) > 0.0 &&
    var c := ConnectPointLine(p, l);
    c.Some? && MagnitudeSquared(Neg(c.value.v)) == 0.0
  }

  /** The test ray from p along +x. */
  function TestRay(p: V2): L2 {
    L2(RayK, Point(p.x, p.y), Vector(1.0, 0.0))
  }

  /** The distinct points where the test ray from p meets the edges. */
  function Hits(poly: Polygon, p: V2): set<V2> {
    set l | l in Segments(poly) && Intersect(TestRay(p), l).Some? :: Intersect(TestRay(p), l).value
  }

  /**
   * `contains(p)`: true when p lies on a nonzero edge; otherwise the number
   * of distinct crossing points of the +x ray is odd.
   */
  predicate Contains(poly: Polygon, p: V2) {
    (exists l :: l in Segments(poly) && OnEdge(l, p)) || |Hits(poly, p)| % 2 == 1
  }

  // ---------------------------------------------------------------------
  // Complex polygons

  /** A complex polygon: exterior outlines and interior holes. */
  datatype Complex = Complex(interior: seq<Polygon>, exterior: seq<Polygon>)

  /** `polygons`: the exteriors, then the interiors. */
  function Polygons(c: Complex): seq<Polygon> {
    c.exterior + c.interior
  }

  function PointCount(ps: seq<Polygon>): nat {
    if |ps| == 0 then 0 else |ps[0].points| + PointCount(ps[1..])
  }

  /** `len()`: the total number of points over all polygons. */
  function Len(c: Complex): nat {
    PointCount(Polygons(c))
  }

  /** Another input polygon (not the ix-th) contains pt. */
  predicate IsHole(polygons: seq<Polygon>, ix: int, pt: V2) {
    exists j :: 0 <= j < |polygons| && j != ix && Contains(polygons[j], pt)
  }

  /**
   * `simplify()` is not part of this model: it comes in as a parameter, and
   * a polygon it returns has at least one point.
   */
  predicate SimplifyKeepsPoints(polygons: seq<Polygon>, simplify: Polygon -> Option<Polygon>) {
    forall i :: 0 <= i < |polygons| && simplify(polygons[i]).Some? ==> |simplify(polygons[i]).value.points| > 0
  }

  /**
   * `ComplexPolygon2(polygons)` after the first n inputs: each simplified
   * polygon, made clockwise, goes to the interiors when another input
   * contains its first point and to the exteriors otherwise.
   */
  function Classify(polygons: seq<Polygon>, simplify: Polygon -> Option<Polygon>, n: nat): Complex
    requires n <= |polygons| && SimplifyKeepsPoints(polygons, simplify)
  {
    if n == 0 then Complex([], [])
    else ClassifyOne(polygons, simplify, Classify(polygons, simplify, n - 1), n - 1)
  }

  /** One pass of the classifying loop, for input ix. */
  function ClassifyOne(polygons: seq<Polygon>, simplify: Polygon -> Option<Polygon>, c: Complex, ix: nat): Complex
    requires ix < |polygons| && SimplifyKeepsPoints(polygons, simplify)
  {
    match simplify(polygons[ix])
    case None => c
    case Some(s) =>
      var simple := ToClockwiseIfNot(s);
      if IsHole(polygons, ix, simple.points[0]) then Complex(c.interior + [simple], c.exterior)
      else Complex(c.interior, c.exterior + [simple])
  }

  /** Input m = n - 1 is the last one classified after n inputs. */
  lemma ClassifyStep(polygons: seq<Polygon>, simplify: Polygon -> Option<Polygon>, m: nat, n: nat)
    requires m == n - 1 && 0 < n <= |polygons| && SimplifyKeepsPoints(polygons, simplify)
    ensures Classify(polygons, simplify, n) == ClassifyOne(polygons, simplify, Classify(polygons, simplify, m), m)
  {
  }

  /** `ComplexPolygon2.__init__(polygons)`: the classifying loop. */
  method Build(polygons: seq<Polygon>, simplify: Polygon -> Option<Polygon>) returns (c: Complex)
    requires SimplifyKeepsPoints(polygons, simplify)
    ensures c == Classify(polygons, simplify, |polygons|)
  {
    var interior: seq<Polygon> := [];
    var exterior: seq<Polygon> := [];
    var ix := 0;
    while ix < |polygons|
      invariant ix <= |polygons|
      invariant Complex(interior, exterior) == Classify(polygons, simplify, ix)
    {
      interior, exterior := ClassifyInput(polygons, simplify, ix, interior, exterior);
      ClassifyStep(polygons, simplify, ix, ix + 1);
      ix := ix + 1;
    }
    c := Complex(interior, exterior);
  }

  /** The body of the classifying loop for input ix. */
  method ClassifyInput(polygons: seq<Polygon>, simplify: Polygon -> Option<Polygon>, ix: nat,
                       interior: seq<Polygon>, exterior: seq<Polygon>)
    returns (interior': seq<Polygon>, exterior': seq<Polygon>)
    requires ix < |polygons| && SimplifyKeepsPoints(polygons, simplify)
    ensures Complex(interior', exterior') == ClassifyOne(polygons, simplify, Complex(interior, exterior), ix)
  {
    interior', exterior' := interior, exterior;
    var simple := simplify(polygons[ix]);
    if simple.Some? {
      var s := simple.value;
      if !Clockwise(s) {
        s := Inverted(s);
      }
      var first := s.points[0];
      if IsHole(polygons, ix, first) {
        interior' := interior + [s];
      } else {
        exterior' := exterior + [s];
      }
    }
  }

  /** The number of inputs among the first n that simplify to a polygon. */
  function Kept(polygons: seq<Polygon>, simplify: Polygon -> Option<Polygon>, n: nat): nat
    requires n <= |polygons|
  {
    if n == 0 then 0 else Kept(polygons, simplify, n - 1) + (if simplify(polygons[n - 1]).Some? then 1 else 0)
  }

  // ---------------------------------------------------------------------
  // Properties

  /** The shoelace term changes sign when the edge is reversed. */
  lemma EdgeTermAntisymmetric(a: V2, b: V2)
    ensures EdgeTerm(b, a) == -EdgeTerm(a, b)
  {
  }

  /** Appending a point adds the term of the new last edge. */
  lemma {:induction false} ChainSumSnoc(s: seq<V2>, x: V2)
    requires |s| > 0
    ensures ChainSum(s + [x]) == ChainSum(s) + EdgeTerm(s[|s| - 1], x)
  {
    if |s| == 1 {
      assert s + [x] == [s[0], x];
    } else {
      assert (s + [x])[1..] == s[1..] + [x];
      ChainSumSnoc(s[1..], x);
    }
  }

  /** Reversing the chain negates its shoelace sum. */
  lemma {:induction false} ChainSumReversed(s: seq<V2>)
    ensures ChainSum(Reversed(s)) == -ChainSum(s)
  {
    if |s| >= 2 {
      ChainSumReversed(s[1..]);
      ChainSumSnoc(Reversed(s[1..]), s[0]);
      EdgeTermAntisymmetric(s[0], s[1]);
    }
  }

  /** Reversing a polygon negates its signed area. */
  lemma SignedAreaReversed(s: seq<V2>)
    ensures SignedArea(Reversed(s)) == -SignedArea(s)
  {
    if |s| > 0 {
      ChainSumReversed(s);
      EdgeTermAntisymmetric(s[|s| - 1], s[0]);
    }
  }

  /**
   * `to_clockwise` yields a clockwise polygon unless the signed area is zero,
   * `to_counterclockwise` never yields one; both are self or the reversal.
   */
  lemma OrientationProperties(poly: Polygon)
    ensures Clockwise(Inverted(poly)) <==> SignedArea(poly.points) < 0.0
    ensures Clockwise(ToClockwise(poly)) <==> SignedArea(poly.points) != 0.0
    ensures !Clockwise(ToCounterclockwise(poly))
    ensures SignedArea(ToClockwise(poly).points) >= 0.0
    ensures Clockwise(poly) ==> ToClockwise(poly) == poly && ToCounterclockwise(poly) == Inverted(poly)
    ensures !Clockwise(poly) ==> ToClockwise(poly) == Inverted(poly) && ToCounterclockwise(poly) == poly
    ensures multiset(ToClockwise(poly).points) == multiset(poly.points)
  {
    SignedAreaReversed(poly.points);
    ReversedSameElements(poly.points);
  }

  lemma {:induction false} ReversedSameElements(s: seq<V2>)
    ensures multiset(Reversed(s)) == multiset(s)
  {
    if |s| > 0 {
      ReversedSameElements(s[1..]);
      assert s == [s[0]] + s[1..];
    }
  }

  /**
   * The doctests of `clockwise`, `to_clockwise` and `to_counterclockwise`,
   * on the triangle (2, 0), (0, 0), (1, 1) and its reversal.
   */
  lemma OrientationExamples(a: V2, b: V2, c: V2)
    requires a == Point(2.0, 0.0) && b == Point(0.0, 0.0) && c == Point(1.0, 1.0)
    ensures Clockwise(Polygon([a, b, c]))
    ensures !Clockwise(Polygon([c, b, a]))
    ensures ToClockwise(Polygon([c, b, a])) == Polygon([a, b, c])
    ensures ToCounterclockwise(Polygon([a, b, c])) == Polygon([c, b, a])
  {
    ClockwiseTriangle(a, b, c);
    CounterclockwiseTriangle(a, b, c);
    ReversedThree(a, b, c);
    ReversedThree(c, b, a);
  }

  lemma ClockwiseTriangle(a: V2, b: V2, c: V2)
    requires a == Point(2.0, 0.0) && b == Point(0.0, 0.0) && c == Point(1.0, 1.0)
    ensures SignedArea([a, b, c]) == 2.0
  {
    ForwardTerms(a, b, c);
    TriangleAreaOf(a, b, c, 0.0, 1.0, 1.0);
  }

  lemma CounterclockwiseTriangle(a: V2, b: V2, c: V2)
    requires a == Point(2.0, 0.0) && b == Point(0.0, 0.0) && c == Point(1.0, 1.0)
    ensures SignedArea([c, b, a]) == -2.0
  {
    BackwardTerms(a, b, c);
    TriangleAreaOf(c, b, a, -1.0, 0.0, -1.0);
  }

  /** The edge terms of the doctest triangle, in its own order. */
  lemma ForwardTerms(a: V2, b: V2, c: V2)
    requires a == Point(2.0, 0.0) && b == Point(0.0, 0.0) && c == Point(1.0, 1.0)
    ensures EdgeTerm(a, b) == 0.0 && EdgeTerm(b, c) == 1.0 && EdgeTerm(c, a) == 1.0
  {
    EdgeTermFlat(a, b);
    EdgeTermValue(b, c, 1.0);
    EdgeTermValue(c, a, 1.0);
  }

  /** The edge terms of the doctest triangle, reversed. */
  lemma BackwardTerms(a: V2, b: V2, c: V2)
    requires a == Point(2.0, 0.0) && b == Point(0.0, 0.0) && c == Point(1.0, 1.0)
    ensures EdgeTerm(c, b) == -1.0 && EdgeTerm(b, a) == 0.0 && EdgeTerm(a, c) == -1.0
  {
    EdgeTermValue(c, b, -1.0);
    EdgeTermFlat(b, a);
    EdgeTermValue(a, c, -1.0);
  }

  /** A triangle's shoelace sum from known edge terms. */
  lemma TriangleAreaOf(a: V2, b: V2, c: V2, u: real, v: real, w: real)
    requires EdgeTerm(a, b) == u && EdgeTerm(b, c) == v && EdgeTerm(c, a) == w
    ensures SignedArea([a, b, c]) == u + v + w
  {
    TriangleArea(a, b, c);
  }

  /** The reversal of a triangle's point list. */
  lemma ReversedThree(a: V2, b: V2, c: V2)
    ensures Reversed([a, b, c]) == [c, b, a]
  {
    var r := Reversed([a, b, c]);
    assert r[0] == c && r[1] == b && r[2] == a;
  }

  /** The shoelace sum of a triangle is its three edge terms. */
  lemma TriangleArea(a: V2, b: V2, c: V2)
    ensures SignedArea([a, b, c]) == EdgeTerm(a, b) + EdgeTerm(b, c) + EdgeTerm(c, a)
  {
    var t := [a, b, c];
    assert t[1..] == [b, c];
    assert t[1..][1..] == [c];
    assert ChainSum(t[1..]) == EdgeTerm(b, c) + ChainSum(t[1..][1..]);
  }

  /** The shoelace sum of a quadrilateral is its four edge terms. */
  lemma QuadArea(a: V2, b: V2, c: V2, d: V2)
    ensures SignedArea([a, b, c, d]) == EdgeTerm(a, b) + EdgeTerm(b, c) + EdgeTerm(c, d) + EdgeTerm(d, a)
  {
    var t := [a, b, c, d];
    assert t[1..] == [b, c, d];
    assert t[1..][1..] == [c, d];
    assert t[1..][1..][1..] == [d];
    assert ChainSum(t[1..][1..]) == EdgeTerm(c, d) + ChainSum(t[1..][1..][1..]);
    assert ChainSum(t[1..]) == EdgeTerm(b, c) + ChainSum(t[1..][1..]);
  }

  /** A vertical edge contributes nothing. */
  lemma EdgeTermVertical(a: V2, b: V2)
    requires a.x == b.x
    ensures EdgeTerm(a, b) == 0.0
  {
    var d := b.x - a.x;
    var t := b.y + a.y;
    assert d == 0.0;
    assert d * t == 0.0;
  }

  /** One shoelace term, evaluated. */
  lemma EdgeTermValue(a: V2, b: V2, v: real)
    requires (b.x - a.x) * (b.y + a.y) == v
    ensures EdgeTerm(a, b) == v
  {
  }

  /** An edge between two points on the x axis contributes nothing. */
  lemma EdgeTermFlat(a: V2, b: V2)
    requires a.y + b.y == 0.0
    ensures EdgeTerm(a, b) == 0.0
  {
    var d := b.x - a.x;
    var t := b.y + a.y;
    assert t == 0.0;
    assert d * t == 0.0;
  }


  /**
   * `shift(n)` is a rotation: the same points (as a multiset), point i of the
   * result is point (i + n) mod len of the input for 0 <= n <= len.
   */
  lemma ShiftRotates(poly: Polygon, n: int)
    ensures |Shift(poly, n).points| == |poly.points|
    ensures multiset(Shift(poly, n).points) == multiset(poly.points)
    ensures 0 <= n <= |poly.points| ==>
      forall i :: 0 <= i < |poly.points| ==>
        Shift(poly, n).points[i] == poly.points[if i + n < |poly.points| then i + n else i + n - |poly.points|]
  {
    var s := poly.points;
    var k := SliceStart(n, |s|);
    assert s == s[..k] + s[k..];
  }

  /** The doctest: shifting the triangle by one. */
  lemma ShiftExample()
    ensures Shift(Polygon([Point(2.0, 0.0), Point(0.0, 0.0), Point(1.0, 1.0)]), 1)
      == Polygon([Point(0.0, 0.0), Point(1.0, 1.0), Point(2.0, 0.0)])
  {
  }

  /**
   * The envelope contains every point, its size is non-negative, and each
   * side touches some point.
   */
  lemma EnvelopeBounds(poly: Polygon)
    ensures Envelope(poly).Some? <==> |poly.points| > 0
    ensures Envelope(poly).Some? ==>
      var r := Envelope(poly).value;
      r.origin.kind == PointKind && r.size.kind == VectorKind &&
      r.size.x >= 0.0 && r.size.y >= 0.0 &&
      (forall i :: 0 <= i < |poly.points| ==>
        r.origin.x <= poly.points[i].x <= r.origin.x + r.size.x &&
        r.origin.y <= poly.points[i].y <= r.origin.y + r.size.y) &&
      (exists i :: 0 <= i < |poly.points| && poly.points[i].x == r.origin.x) &&
      (exists i :: 0 <= i < |poly.points| && poly.points[i].y == r.origin.y) &&
      (exists i :: 0 <= i < |poly.points| && poly.points[i].x == r.origin.x + r.size.x) &&
      (exists i :: 0 <= i < |poly.points| && poly.points[i].y == r.origin.y + r.size.y)
  {
    if |poly.points| > 0 {
      var s := poly.points;
      assert MinX(s) <= s[0].x <= MaxX(s);
      assert MinY(s) <= s[0].y <= MaxY(s);
    }
  }

  /** The doctest: the triangle's envelope is Rectangle(Point(0, 0), Vector(2, 1)). */
  lemma EnvelopeExample()
    ensures Envelope(Polygon([Point(2.0, 0.0), Point(0.0, 0.0), Point(1.0, 1.0)]))
      == Some(Rect(Point(0.0, 0.0), Vector(2.0, 1.0)))
  {
    var s := [Point(2.0, 0.0), Point(0.0, 0.0), Point(1.0, 1.0)];
    assert s[1..] == [Point(0.0, 0.0), Point(1.0, 1.0)];
    assert s[1..][1..] == [Point(1.0, 1.0)];
  }

  /** Connecting the anchor of a line to the line gives a segment of no length. */
  lemma ConnectFromAnchor(l: L2)
    requires MagnitudeSquared(l.v) != 0.0 && l.p.kind == PointKind
    ensures ConnectPointLine(l.p, l) == Some(L2(SegmentK, l.p, Vector(0.0, 0.0)))
  {
    assert FootParam(l.p, l) == 0.0;
    ClampProperties(l.kind, 0.0);
    assert At(l, 0.0) == Point(l.p.x, l.p.y);
  }

  /** The start of every nonzero edge is inside the polygon. */
  lemma VertexContained(poly: Polygon, i: int)
    requires 0 <= i < |poly.points| && poly.points[i].kind == PointKind
    requires MagnitudeSquared(Segments(poly)[i].v) > 0.0
    ensures Contains(poly, poly.points[i])
  {
    var l := Segments(poly)[i];
    assert l.p == poly.points[i];
    ConnectFromAnchor(l);
    assert OnEdge(l, l.p);
  }

  // The doctests of `contains`, on the triangle (2, 0), (0, 0), (1, 1):
  // (1, 0.5) is inside and (0.5, 1.5) is not.

  lemma TriangleSegments()
    ensures Segments(Polygon([Point(2.0, 0.0), Point(0.0, 0.0), Point(1.0, 1.0)])) ==
      [L2(SegmentK, Point(2.0, 0.0), Vector(-2.0, 0.0)), L2(SegmentK, Point(0.0, 0.0), Vector(1.0, 1.0)),
       L2(SegmentK, Point(1.0, 1.0), Vector(1.0, -1.0))]
  {
  }

  /** From (1, 0.5) the ray misses the bottom edge (parallel) and the left edge (behind it). */
  lemma InsideRayMisses()
    ensures Intersect(L2(RayK, Point(1.0, 0.5), Vector(1.0, 0.0)), L2(SegmentK, Point(2.0, 0.0), Vector(-2.0, 0.0))) == None
    ensures Intersect(L2(RayK, Point(1.0, 0.5), Vector(1.0, 0.0)), L2(SegmentK, Point(0.0, 0.0), Vector(1.0, 1.0))) == None
  {
    assert ParamA(L2(RayK, Point(1.0, 0.5), Vector(1.0, 0.0)), L2(SegmentK, Point(0.0, 0.0), Vector(1.0, 1.0))) == -0.5;
  }

  /** From (1, 0.5) the ray crosses the right edge at (1.5, 0.5). */
  lemma InsideRayHits()
    ensures Intersect(L2(RayK, Point(1.0, 0.5), Vector(1.0, 0.0)), L2(SegmentK, Point(1.0, 1.0), Vector(1.0, -1.0))) == Some(Point(1.5, 0.5))
  {
    var r := L2(RayK, Point(1.0, 0.5), Vector(1.0, 0.0));
    var e := L2(SegmentK, Point(1.0, 1.0), Vector(1.0, -1.0));
    assert ParamA(r, e) == 0.5;
    assert ParamB(r, e) == 0.5;
  }

  /** From (0.5, 1.5) the ray passes above the triangle. */
  lemma OutsideRayMisses()
    ensures Intersect(L2(RayK, Point(0.5, 1.5), Vector(1.0, 0.0)), L2(SegmentK, Point(2.0, 0.0), Vector(-2.0, 0.0))) == None
    ensures Intersect(L2(RayK, Point(0.5, 1.5), Vector(1.0, 0.0)), L2(SegmentK, Point(0.0, 0.0), Vector(1.0, 1.0))) == None
    ensures Intersect(L2(RayK, Point(0.5, 1.5), Vector(1.0, 0.0)), L2(SegmentK, Point(1.0, 1.0), Vector(1.0, -1.0))) == None
  {
    var r := L2(RayK, Point(0.5, 1.5), Vector(1.0, 0.0));
    assert ParamB(r, L2(SegmentK, Point(0.0, 0.0), Vector(1.0, 1.0))) == 1.5;
    assert ParamA(r, L2(SegmentK, Point(1.0, 1.0), Vector(1.0, -1.0))) == 0.0;
    assert ParamB(r, L2(SegmentK, Point(1.0, 1.0), Vector(1.0, -1.0))) == -0.5;
  }

  /** (0.5, 1.5) is not on the bottom edge: its foot there is (0.5, 0). */
  lemma OutsideOffBottomEdge()
    ensures !OnEdge(L2(SegmentK, Point(2.0, 0.0), Vector(-2.0, 0.0)), Point(0.5, 1.5))
  {
    assert FootParam(Point(0.5, 1.5), L2(SegmentK, Point(2.0, 0.0), Vector(-2.0, 0.0))) == 0.75;
  }

  /** (0.5, 1.5) is not on the left edge: its foot there is (1, 1). */
  lemma OutsideOffLeftEdge()
    ensures !OnEdge(L2(SegmentK, Point(0.0, 0.0), Vector(1.0, 1.0)), Point(0.5, 1.5))
  {
    assert FootParam(Point(0.5, 1.5), L2(SegmentK, Point(0.0, 0.0), Vector(1.0, 1.0))) == 1.0;
  }

  /** (0.5, 1.5) is not on the right edge: its foot is clamped to (1, 1). */
  lemma OutsideOffRightEdge()
    ensures !OnEdge(L2(SegmentK, Point(1.0, 1.0), Vector(1.0, -1.0)), Point(0.5, 1.5))
  {
    var l := L2(SegmentK, Point(1.0, 1.0), Vector(1.0, -1.0));
    assert FootParam(Point(0.5, 1.5), l) == -0.5;
    assert Clamp(SegmentK, -0.5) == 0.0;
    assert ConnectPointLine(Point(0.5, 1.5), l) == Some(L2(SegmentK, Point(0.5, 1.5), Vector(0.5, -0.5)));
  }

  /** The doctest: the triangle contains (1, 0.5). */
  lemma ContainsInsideExample()
    ensures Contains(Polygon([Point(2.0, 0.0), Point(0.0, 0.0), Point(1.0, 1.0)]), Point(1.0, 0.5))
  {
    InsideHits();
    assert |Hits(Polygon([Point(2.0, 0.0), Point(0.0, 0.0), Point(1.0, 1.0)]), Point(1.0, 0.5))| == 1;
  }

  /** From (1, 0.5) the test ray crosses the triangle once. */
  lemma InsideHits()
    ensures Hits(Polygon([Point(2.0, 0.0), Point(0.0, 0.0), Point(1.0, 1.0)]), Point(1.0, 0.5)) == {Point(1.5, 0.5)}
  {
    TriangleSegments();
    InsideRayMisses();
    InsideRayHits();
    assert TestRay(Point(1.0, 0.5)) == L2(RayK, Point(1.0, 0.5), Vector(1.0, 0.0));
  }

  /** The doctest: the triangle does not contain (0.5, 1.5). */
  lemma ContainsOutsideExample()
    ensures !Contains(Polygon([Point(2.0, 0.0), Point(0.0, 0.0), Point(1.0, 1.0)]), Point(0.5, 1.5))
  {
    TriangleSegments();
    OutsideOffBottomEdge();
    OutsideOffLeftEdge();
    OutsideOffRightEdge();
    OutsideHits();
  }

  /** From (0.5, 1.5) the test ray meets no edge. */
  lemma OutsideHits()
    ensures Hits(Polygon([Point(2.0, 0.0), Point(0.0, 0.0), Point(1.0, 1.0)]), Point(0.5, 1.5)) == {}
  {
    TriangleSegments();
    OutsideRayMisses();
    assert TestRay(Point(0.5, 1.5)) == L2(RayK, Point(0.5, 1.5), Vector(1.0, 0.0));
  }

  /** The classifying loop keeps every simplified polygon, oriented clockwise (or flat). */
  lemma {:induction false} ClassifyProperties(polygons: seq<Polygon>, simplify: Polygon -> Option<Polygon>, n: nat)
    requires n <= |polygons| && SimplifyKeepsPoints(polygons, simplify)
    ensures |Classify(polygons, simplify, n).interior| + |Classify(polygons, simplify, n).exterior| == Kept(polygons, simplify, n)
    ensures forall q :: q in Polygons(Classify(polygons, simplify, n)) ==> SignedArea(q.points) >= 0.0
  {
    if n > 0 {
      ClassifyProperties(polygons, simplify, n - 1);
      var s := simplify(polygons[n - 1]);
      if s.Some? {
        SignedAreaReversed(s.value.points);
      }
    }
  }

  /**
   * q is the oriented simplification of one of the first n inputs, and its
   * first point lies inside another input exactly when hole holds.
   */
  ghost predicate FromInput(polygons: seq<Polygon>, simplify: Polygon -> Option<Polygon>, n: nat, q: Polygon, hole: bool)
    requires n <= |polygons| && SimplifyKeepsPoints(polygons, simplify)
  {
    exists i :: 0 <= i < n && simplify(polygons[i]).Some? && q == ToClockwiseIfNot(simplify(polygons[i]).value) &&
      (IsHole(polygons, i, q.points[0]) <==> hole)
  }

  /**
   * Every interior comes from an input whose oriented simplification has
   * its first point inside another input; every exterior from one whose
   * first point is inside no other input.
   */
  lemma {:induction false} ClassifyMembership(polygons: seq<Polygon>, simplify: Polygon -> Option<Polygon>, n: nat)
    requires n <= |polygons| && SimplifyKeepsPoints(polygons, simplify)
    ensures forall q :: q in Classify(polygons, simplify, n).interior ==> FromInput(polygons, simplify, n, q, true)
    ensures forall q :: q in Classify(polygons, simplify, n).exterior ==> FromInput(polygons, simplify, n, q, false)
  {
    if n > 0 {
      var m := n - 1;
      ClassifyMembership(polygons, simplify, m);
      var c := Classify(polygons, simplify, m);
      forall q, hole | FromInput(polygons, simplify, m, q, hole)
        ensures FromInput(polygons, simplify, n, q, hole)
      {
        var i :| 0 <= i < m && simplify(polygons[i]).Some? && q == ToClockwiseIfNot(simplify(polygons[i]).value) &&
          (IsHole(polygons, i, q.points[0]) <==> hole);
      }
      var r := Classify(polygons, simplify, n);
      match simplify(polygons[m])
      case None =>
        assert r == c;
      case Some(s0) =>
        var simple := ToClockwiseIfNot(s0);
        var hole := IsHole(polygons, m, simple.points[0]);
        assert FromInput(polygons, simplify, n, simple, hole);
        if hole {
          assert r == Complex(c.interior + [simple], c.exterior);
        } else {
          assert r == Complex(c.interior, c.exterior + [simple]);
        }
    }
  }

  /** `if not simple.clockwise(): simple = simple.inverted()`. */
  function ToClockwiseIfNot(s: Polygon): (r: Polygon)
    ensures |r.points| == |s.points|
  {
    if !Clockwise(s) then Inverted(s) else s
  }

  /** `len` adds the point counts of the exteriors and the interiors. */
  lemma {:induction false} PointCountAppend(a: seq<Polygon>, b: seq<Polygon>)
    ensures PointCount(a + b) == PointCount(a) + PointCount(b)
  {
    if |a| == 0 {
      assert a + b == b;
    } else {
      assert (a + b)[0] == a[0];
      assert (a + b)[1..] == a[1..] + b;
      PointCountAppend(a[1..], b);
    }
  }

  /** `len` of a complex polygon is the points of its exteriors plus those of its interiors. */
  lemma LenSplits(c: Complex)
    ensures Len(c) == PointCount(c.exterior) + PointCount(c.interior)
    ensures Polygons(c)[..|c.exterior|] == c.exterior
  {
    PointCountAppend(c.exterior, c.interior);
  }
}
