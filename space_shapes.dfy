/**
 * Three-dimensional lines, segments, planes, polygons and bases
 * (petrify/space/__init__.py). Line3, Ray3 and LineSegment3 share the
 * parameter ranges of their planar counterparts.
 */
module SpaceShapes {
  import opened Wrappers
  import opened SpacePoint
  import PlanePoint
  import PlanePolygon
  import PlaneLine

  type LineKind = PlaneLine.LineKind

  datatype L3 = L3(kind: LineKind, p: V3, v: V3)

  /** A plane n . p = k. */
  datatype Plane = Plane(n: V3, k: real)

  /** The argument of `touches` and `__eq__`: a 3-D point or vector, a line of some kind, or anything else. */
  datatype Thing = TSpatial(w: V3) | TLine(l: L3) | TOther

  /** `p2`: the point one direction vector past the anchor. */
  function P2(l: L3): V3 {
    Point(l.p.x + l.v.x, l.p.y + l.v.y, l.p.z + l.v.z)
  }

  /** The point at parameter u along l: p + u v. */
  function At(l: L3, u: real): V3 {
    Point(l.p.x + u * l.v.x, l.p.y + u * l.v.y, l.p.z + u * l.v.z)
  }

  /**
   * The two-argument `Line3.__init__`: (point, point) stores the difference,
   * (point, vector) copies the vector; any other pair raises AttributeError
   * (None). There is no zero-direction check.
   */
  function Through(kind: LineKind, a: V3, b: V3): (r: Option<L3>)
    ensures r.Some? <==> a.kind == PlanePoint.PointKind
    ensures r.Some? ==> r.value.kind == kind && r.value.p == a && r.value.v.kind == PlanePoint.VectorKind
  {
    if a.kind != PlanePoint.PointKind then None
    else
      match b.kind
      case PointKind => Some(L3(kind, a, Vector(b.x - a.x, b.y - a.y, b.z - a.z)))
      case VectorKind => Some(L3(kind, a, b))
  }

  /** What every constructor produces: a point anchor and a vector direction. */
  predicate WellFormed(l: L3) {
    l.p.kind == PlanePoint.PointKind && l.v.kind == PlanePoint.VectorKind
  }

  // ---------------------------------------------------------------------
  // LineSegment3

  /**
   * `LineSegment3.__eq__`: equal when the endpoints agree in either order;
   * anything but a segment raises RuntimeError (None).
   */
  function SegmentEq(s: L3, other: Thing): Option<bool>
    requires s.kind == PlaneLine.SegmentK
  {
    match other
    case TLine(t) =>
      if t.kind == PlaneLine.SegmentK then
        Some((s.p == t.p && P2(s) == P2(t)) || (P2(s) == t.p && s.p == P2(t)))
      else None
    case _ => None
  }

  /** `LineSegment3.__hash__` as written: the directed pair (p, v). */
  function SegmentHash(s: L3): ((real, real, real), (real, real, real)) {
    (HashKey(s.p), HashKey(s.v))
  }

  /** A hash key that agrees with `SegmentEq`: the unordered pair of endpoint coordinates. */
  function UndirectedHash(s: L3): set<(real, real, real)> {
    {HashKey(s.p), HashKey(P2(s))}
  }

  /** `flipped`: the segment from p2 along -v. */
  function Flipped(s: L3): (r: Option<L3>)
    requires s.kind == PlaneLine.SegmentK
    ensures s.v.kind == PlanePoint.VectorKind ==> r == Some(L3(PlaneLine.SegmentK, P2(s), Neg(s.v)))
  {
    Through(PlaneLine.SegmentK, P2(s), Neg(s.v))
  }

  /** `has_endpoint`. */
  function HasEndpoint(s: L3, q: V3): bool {
    s.p == q || P2(s) == q
  }

  /**
   * `touches`: a point touches when it is an endpoint, a segment when it
   * shares an endpoint; anything else raises RuntimeError (None).
   */
  function Touches(s: L3, other: Thing): Option<bool>
    requires s.kind == PlaneLine.SegmentK
  {
    match other
    case TSpatial(q) => if q.kind == PlanePoint.PointKind then Some(HasEndpoint(s, q)) else None
    case TLine(t) => if t.kind == PlaneLine.SegmentK then Some(HasEndpoint(s, t.p) || HasEndpoint(s, P2(t))) else None
    case TOther => None
  }

  /** A segment object whose `_swap` rewrites its fields in place. */
  class Segment3 {
    var p: V3
    var v: V3

    constructor (p0: V3, v0: V3)
      ensures p == p0 && v == v0
    {
      p, v := p0, v0;
    }

    function Value(): L3
      reads this
    {
      L3(PlaneLine.SegmentK, p, v)
    }

    /** `_swap`: start at the old far end and point back (`v *= -1`); returns the same object. */
    method Swap() returns (r: Segment3)
      modifies this
      ensures r == this
      ensures p == P2(old(Value())) && v == V3(old(v).kind, -old(v).x, -old(v).y, -old(v).z)
    {
      p := P2(Value());
      v := V3(v.kind, -v.x, -v.y, -v.z);
      r := this;
    }
  }

  // ---------------------------------------------------------------------
  // Polygon3

  /** A polygon is its list of points. */
  datatype Polygon3 = Polygon3(points: seq<V3>)

  /** Every entry of the list is a 3-D point. */
  predicate AllPoints(pts: seq<V3>) {
    forall i :: 0 <= i < |pts| ==> pts[i].kind == PlanePoint.PointKind
  }

  /**
   * Whether `Plane(*points[0:3])`, which `Polygon3.__init__` calls, returns
   * rather than raises; the normal and offset it computes are not modelled.
   * Three arguments need a point first, or the normal is never set and the
   * test of it raises AttributeError (a point counts as a vector, so the
   * other two always pass). Two need a first argument of nonzero magnitude,
   * since `normalized` divides by it, and a point second. Fewer arguments
   * are a TypeError.
   */
  predicate PlaneAccepts(points: seq<V3>) {
    if |points| >= 3 then points[0].kind == PlanePoint.PointKind
    else if |points| == 2 then MagnitudeSquared(points[0]) != 0.0 && points[1].kind == PlanePoint.PointKind
    else false
  }

  /** `LineSegment3(a, b)` for a point a: the segment from a towards b. */
  function Link(a: V3, b: V3): (r: L3)
    requires a.kind == PlanePoint.PointKind
    ensures Through(PlaneLine.SegmentK, a, b) == Some(r)
  {
    Through(PlaneLine.SegmentK, a, b).value
  }

  /**
   * `segments()`: one segment from each point to the next, the last back to
   * the first. An empty point list raises IndexError and a non-point
   * start raises AttributeError (None).
   */
  function Segments(poly: Polygon3): Option<seq<L3>> {
    var n := |poly.points|;
    if n == 0 || !AllPoints(poly.points) then None
    else Some(seq(n, i requires 0 <= i < n => Link(poly.points[i], poly.points[(i + 1) % n])))
  }

  /**
   * `has_edge(edge)`: whether some segment equals the edge in either
   * direction; the comparison raises for anything but a segment (None).
   */
  function HasEdge(poly: Polygon3, edge: Thing): Option<bool> {
    match Segments(poly)
    case None => None
    case Some(segs) =>
      if edge.TLine? && edge.l.kind == PlaneLine.SegmentK then
        Some(exists i :: 0 <= i < |segs| && SegmentEq(segs[i], edge) == Some(true))
      else None
  }

  // ---------------------------------------------------------------------
  // Basis and PlanarPolygon

  /** A 2-D space embedded at `origin`, spanned by the axes `bx` and `by`. */
  datatype Basis = Basis(origin: V3, axisX: V3, axisY: V3)

  /**
   * `project(v)`: origin + bx * v.x + by * v.y with the class rules of `+`;
   * a planar point gives that point, a planar vector the same coordinates
   * as a vector (the origin included).
   */
  function Project(b: Basis, w: PlanePoint.V2): (r: V3)
    ensures r.x == b.origin.x + b.axisX.x * w.x + b.axisY.x * w.y
    ensures r.y == b.origin.y + b.axisX.y * w.x + b.axisY.y * w.y
    ensures r.z == b.origin.z + b.axisX.z * w.x + b.axisY.z * w.y
  {
    var k := PlanePoint.SumKind(PlanePoint.SumKind(b.origin.kind, b.axisX.kind), b.axisY.kind);
    var p := V3(k, b.origin.x + b.axisX.x * w.x + b.axisY.x * w.y,
                   b.origin.y + b.axisX.y * w.x + b.axisY.y * w.y,
                   b.origin.z + b.axisX.z * w.x + b.axisY.z * w.y);
    match w.kind
    case PointKind => p
    case VectorKind => AsVector(p)
  }

  /**
   * `Basis + v`: moves only the origin; a non-vector operand is
   * NotImplemented (None), and a moved origin that is not a point fails the
   * constructor's assertion (None).
   */
  function BasisAdd(b: Basis, other: Operand): Option<Basis> {
    match other
    case Spatial(v) =>
      var o := Add(b.origin, Spatial(v)).value;
      if o.kind == PlanePoint.PointKind then Some(Basis(o, b.axisX, b.axisY)) else None
    case _ => None
  }

  /** `simple(polygon)`: every point of a planar polygon projected, in order. */
  function ProjectPoints(b: Basis, pts: seq<PlanePoint.V2>): (r: seq<V3>)
    ensures |r| == |pts|
  {
    seq(|pts|, i requires 0 <= i < |pts| => Project(b, pts[i]))
  }

  /** `[simple(p) for p in polygons]`. */
  function ProjectList(b: Basis, ps: seq<PlanePolygon.Polygon>): (r: seq<Polygon3>)
    ensures |r| == |ps|
    ensures forall i, j :: 0 <= i < |ps| && 0 <= j < |ps[i].points| ==>
      |r[i].points| == |ps[i].points| && r[i].points[j] == Project(b, ps[i].points[j])
  {
    seq(|ps|, i requires 0 <= i < |ps| => Polygon3(ProjectPoints(b, ps[i].points)))
  }

  /** The planar content of a PlanarPolygon: a simple polygon or a complex one. */
  datatype Planar = Simple(poly: PlanePolygon.Polygon) | Compound(c: PlanePolygon.Complex)

  /**
   * `PlanarPolygon.project(exterior)`: a simple polygon is the exterior and
   * has no interior; a complex polygon contributes the chosen list.
   */
  function ProjectPlanar(b: Basis, shape: Planar, exterior: bool): seq<Polygon3> {
    match shape
    case Simple(poly) => if exterior then [Polygon3(ProjectPoints(b, poly.points))] else []
    case Compound(c) => ProjectList(b, if exterior then c.exterior else c.interior)
  }

  // ---------------------------------------------------------------------
  // Properties

  /** The two-point constructor reaches its second point; the point-vector form keeps the vector. */
  lemma ThroughReachesEnd(kind: LineKind, a: V3, b: V3)
    requires a.kind == PlanePoint.PointKind
    ensures Through(kind, a, b).Some?
    ensures b.kind == PlanePoint.PointKind ==> P2(Through(kind, a, b).value) == b
    ensures b.kind == PlanePoint.VectorKind ==> Through(kind, a, b).value.v == b
    ensures WellFormed(Through(kind, a, b).value)
  {
  }

  /**
   * Segment equality ignores direction: it is reflexive and symmetric, and
   * a segment equals its flip.
   */
  lemma SegmentEqUndirected(s: L3, t: L3)
    requires s.kind == PlaneLine.SegmentK && t.kind == PlaneLine.SegmentK
    ensures SegmentEq(s, TLine(s)) == Some(true)
    ensures SegmentEq(s, TLine(t)) == SegmentEq(t, TLine(s))
    ensures s.p.kind == PlanePoint.PointKind && s.v.kind == PlanePoint.VectorKind ==>
      Flipped(s).Some? && SegmentEq(s, TLine(Flipped(s).value)) == Some(true) && SegmentEq(Flipped(s).value, TLine(s)) == Some(true)
  {
    if s.p.kind == PlanePoint.PointKind && s.v.kind == PlanePoint.VectorKind {
      var f := Flipped(s).value;
      assert P2(f) == s.p;
    }
  }

  /** Anything but a segment makes `__eq__` and `touches` raise. */
  lemma SegmentRefusesOthers(s: L3, l: L3, w: V3)
    requires s.kind == PlaneLine.SegmentK && l.kind != PlaneLine.SegmentK && w.kind == PlanePoint.VectorKind
    ensures SegmentEq(s, TLine(l)) == None && SegmentEq(s, TSpatial(w)) == None && SegmentEq(s, TOther) == None
    ensures Touches(s, TLine(l)) == None && Touches(s, TSpatial(w)) == None && Touches(s, TOther) == None
  {
  }

  /**
   * Flipping a well-formed segment swaps its endpoints, keeps it well formed
   * and, done twice, restores the segment.
   */
  lemma FlippedSwapsEnds(s: L3)
    requires s.kind == PlaneLine.SegmentK && WellFormed(s)
    ensures Flipped(s).Some? && WellFormed(Flipped(s).value)
    ensures Flipped(s).value.p == P2(s) && P2(Flipped(s).value) == s.p
    ensures Flipped(Flipped(s).value) == Some(s)
  {
    var f := Flipped(s).value;
    assert P2(f) == s.p;
  }

  /**
   * The directed hash of the source disagrees with its undirected equality:
   * a segment and its flip are equal but hash differently.
   */
  lemma HashDisagreesAsWritten()
    ensures var s := L3(PlaneLine.SegmentK, Point(0.0, 0.0, 0.0), Vector(1.0, 0.0, 0.0));
      var t := L3(PlaneLine.SegmentK, Point(1.0, 0.0, 0.0), Vector(-1.0, 0.0, 0.0));
      Flipped(s) == Some(t) && SegmentEq(s, TLine(t)) == Some(true) && SegmentHash(s) != SegmentHash(t)
  {
    var s := L3(PlaneLine.SegmentK, Point(0.0, 0.0, 0.0), Vector(1.0, 0.0, 0.0));
    var t := L3(PlaneLine.SegmentK, Point(1.0, 0.0, 0.0), Vector(-1.0, 0.0, 0.0));
    assert P2(s) == Point(1.0, 0.0, 0.0);
    assert P2(t) == Point(0.0, 0.0, 0.0);
    assert SegmentHash(s).0 != SegmentHash(t).0;
  }

  /** The undirected key is consistent with equality: equal segments share it. */
  lemma UndirectedHashConsistent(s: L3, t: L3)
    requires s.kind == PlaneLine.SegmentK && t.kind == PlaneLine.SegmentK
    requires SegmentEq(s, TLine(t)) == Some(true)
    ensures UndirectedHash(s) == UndirectedHash(t)
  {
  }

  /**
   * `touches` holds exactly when the argument is an endpoint, or is a
   * segment sharing an endpoint; a segment touches itself and its flip.
   */
  lemma TouchesProperties(s: L3, q: V3)
    requires s.kind == PlaneLine.SegmentK && WellFormed(s) && q.kind == PlanePoint.PointKind
    ensures Touches(s, TSpatial(q)) == Some(q == s.p || q == P2(s))
    ensures Touches(s, TSpatial(s.p)) == Some(true) && Touches(s, TSpatial(P2(s))) == Some(true)
    ensures Touches(s, TLine(s)) == Some(true)
    ensures Touches(s, TLine(Flipped(s).value)) == Some(true)
  {
    FlippedSwapsEnds(s);
  }

  /**
   * `segments()` succeeds exactly on a non-empty list of points; segment i
   * runs from point i to point i + 1, wrapping around to the first.
   */
  lemma SegmentsJoinNeighbours(poly: Polygon3)
    ensures Segments(poly).Some? <==> |poly.points| > 0 && AllPoints(poly.points)
    ensures Segments(poly).Some? ==> |Segments(poly).value| == |poly.points|
    ensures Segments(poly).Some? ==> forall i :: 0 <= i < |poly.points| ==>
      Segments(poly).value[i].kind == PlaneLine.SegmentK &&
      Segments(poly).value[i].p == poly.points[i] &&
      P2(Segments(poly).value[i]) == poly.points[(i + 1) % |poly.points|]
  {
    var n := |poly.points|;
    if Segments(poly).Some? {
      var segs := Segments(poly).value;
      forall i | 0 <= i < n
        ensures segs[i].kind == PlaneLine.SegmentK && segs[i].p == poly.points[i] && P2(segs[i]) == poly.points[(i + 1) % n]
      {
        assert segs[i] == Link(poly.points[i], poly.points[(i + 1) % n]);
        ThroughReachesEnd(PlaneLine.SegmentK, poly.points[i], poly.points[(i + 1) % n]);
      }
    }
  }

  /** A segment equal to the edge makes `has_edge` true. */
  lemma HasEdgeWitness(poly: Polygon3, edge: L3, i: int)
    requires Segments(poly).Some? && edge.kind == PlaneLine.SegmentK
    requires 0 <= i < |Segments(poly).value| && SegmentEq(Segments(poly).value[i], TLine(edge)) == Some(true)
    ensures HasEdge(poly, TLine(edge)) == Some(true)
  {
  }

  /** Every segment of a polygon is an edge of it, in either direction. */
  lemma HasOwnEdges(poly: Polygon3, i: int)
    requires Segments(poly).Some? && 0 <= i < |poly.points|
    ensures HasEdge(poly, TLine(Segments(poly).value[i])) == Some(true)
    ensures Flipped(Segments(poly).value[i]).Some?
    ensures HasEdge(poly, TLine(Flipped(Segments(poly).value[i]).value)) == Some(true)
  {
    var n := |poly.points|;
    var segs := Segments(poly).value;
    var s := segs[i];
    assert s == Link(poly.points[i], poly.points[(i + 1) % n]);
    SegmentEqUndirected(s, s);
    FlippedSwapsEnds(s);
    var f := Flipped(s).value;
    HasEdgeWitness(poly, s, i);
    HasEdgeWitness(poly, f, i);
  }

  /**
   * The class doctests: Basis(Point(1, 0, 0), y, z) projects Point2(2, 3)
   * to Point(1, 2, 3) and Vector2(-2, -3) to Vector(1, -2, -3).
   */
  lemma ProjectExamples()
    ensures Project(Basis(Point(1.0, 0.0, 0.0), By(), Bz()), PlanePoint.Point(2.0, 3.0)) == Point(1.0, 2.0, 3.0)
    ensures Project(Basis(Point(1.0, 0.0, 0.0), By(), Bz()), PlanePoint.Vector(-2.0, -3.0)) == Vector(1.0, -2.0, -3.0)
  {
    var b := Basis(Point(1.0, 0.0, 0.0), Vector(0.0, 1.0, 0.0), Vector(0.0, 0.0, 1.0));
    assert Project(b, PlanePoint.Point(2.0, 3.0)).kind == PlanePoint.PointKind;
    assert Project(b, PlanePoint.Vector(-2.0, -3.0)).kind == PlanePoint.VectorKind;
  }

  /** The doctest: the xy basis moved by (0, 0, 2) projects Point2(2, 3) to Point(2, 3, 2). */
  lemma TranslatedExample()
    ensures BasisAdd(Basis(Origin(), Bx(), By()), Spatial(Vector(0.0, 0.0, 2.0))) == Some(Basis(Point(0.0, 0.0, 2.0), Bx(), By()))
    ensures Project(Basis(Point(0.0, 0.0, 2.0), Bx(), By()), PlanePoint.Point(2.0, 3.0)) == Point(2.0, 3.0, 2.0)
  {
    var b := Basis(Point(0.0, 0.0, 2.0), Vector(1.0, 0.0, 0.0), Vector(0.0, 1.0, 0.0));
    assert Project(b, PlanePoint.Point(2.0, 3.0)).kind == PlanePoint.PointKind;
  }

  /**
   * With a point origin and vector axes, a planar point projects to a point
   * and a planar vector to a vector at the same coordinates.
   */
  lemma ProjectKinds(b: Basis, w: PlanePoint.V2)
    requires b.origin.kind == PlanePoint.PointKind && b.axisX.kind == PlanePoint.VectorKind && b.axisY.kind == PlanePoint.VectorKind
    ensures Project(b, w).kind == w.kind
    ensures Project(b, PlanePoint.V2(PlanePoint.PointKind, w.x, w.y)) == AsPoint(Project(b, PlanePoint.V2(PlanePoint.VectorKind, w.x, w.y)))
  {
    var pw := PlanePoint.V2(PlanePoint.PointKind, w.x, w.y);
    var vw := PlanePoint.V2(PlanePoint.VectorKind, w.x, w.y);
    assert Project(b, pw).kind == PlanePoint.PointKind;
    assert Project(b, vw).kind == PlanePoint.VectorKind;
    ProjectSameCoordinates(b, pw, vw);
    assert Project(b, pw) == V3(PlanePoint.PointKind, Project(b, vw).x, Project(b, vw).y, Project(b, vw).z);
    match w.kind
    case PointKind => assert w == pw;
    case VectorKind => assert w == vw;
  }

  /** The coordinates of a projection do not depend on the class of the planar operand. */
  lemma ProjectSameCoordinates(b: Basis, u: PlanePoint.V2, w: PlanePoint.V2)
    requires u.x == w.x && u.y == w.y
    ensures Project(b, u).x == Project(b, w).x
    ensures Project(b, u).y == Project(b, w).y
    ensures Project(b, u).z == Project(b, w).z
  {
  }

  /**
   * Translating a basis moves every projection by the same vector and
   * leaves the axes alone; anything but a 3-D vector is NotImplemented,
   * and a point added to a point origin leaves no point to anchor at.
   */
  lemma BasisAddTranslates(b: Basis, v: V3, w: PlanePoint.V2)
    ensures BasisAdd(b, Spatial(v)).Some? <==> PlanePoint.SumKind(b.origin.kind, v.kind) == PlanePoint.PointKind
    ensures b.origin.kind == PlanePoint.PointKind ==> (BasisAdd(b, Spatial(v)).Some? <==> v.kind == PlanePoint.VectorKind)
    ensures BasisAdd(b, Spatial(v)).Some? ==>
      BasisAdd(b, Spatial(v)).value.axisX == b.axisX && BasisAdd(b, Spatial(v)).value.axisY == b.axisY
    ensures BasisAdd(b, Spatial(v)).Some? ==> Project(BasisAdd(b, Spatial(v)).value, w).x == Project(b, w).x + v.x
    ensures BasisAdd(b, Spatial(v)).Some? ==> Project(BasisAdd(b, Spatial(v)).value, w).y == Project(b, w).y + v.y
    ensures BasisAdd(b, Spatial(v)).Some? ==> Project(BasisAdd(b, Spatial(v)).value, w).z == Project(b, w).z + v.z
    ensures forall s: real :: BasisAdd(b, Num(s)) == None
  {
  }

  /**
   * `PlanarPolygon.project`: a simple polygon yields itself projected as the
   * only exterior and no interior; a complex polygon yields its chosen list,
   * each polygon projected point by point, in order.
   */
  lemma ProjectPlanarShape(b: Basis, shape: Planar, exterior: bool)
    ensures shape.Simple? ==> |ProjectPlanar(b, shape, exterior)| == (if exterior then 1 else 0)
    ensures shape.Simple? && exterior ==>
      forall j :: 0 <= j < |shape.poly.points| ==>
        |ProjectPlanar(b, shape, exterior)[0].points| == |shape.poly.points| &&
        ProjectPlanar(b, shape, exterior)[0].points[j] == Project(b, shape.poly.points[j])
    ensures shape.Compound? ==>
      var ps := if exterior then shape.c.exterior else shape.c.interior;
      |ProjectPlanar(b, shape, exterior)| == |ps| &&
      forall i, j :: 0 <= i < |ps| && 0 <= j < |ps[i].points| ==>
        |ProjectPlanar(b, shape, exterior)[i].points| == |ps[i].points| &&
        ProjectPlanar(b, shape, exterior)[i].points[j] == Project(b, ps[i].points[j])
  {
  }

  /** The class doctest: the triangle (0,0), (0,2), (1,1) on the xy basis. */
  lemma ProjectPlanarExample()
    ensures ProjectPlanar(Basis(Origin(), Bx(), By()),
      Simple(PlanePolygon.Polygon([PlanePoint.Point(0.0, 0.0), PlanePoint.Point(0.0, 2.0), PlanePoint.Point(1.0, 1.0)])), true)
      == [Polygon3([Point(0.0, 0.0, 0.0), Point(0.0, 2.0, 0.0), Point(1.0, 1.0, 0.0)])]
  {
    var pts := [PlanePoint.Point(0.0, 0.0), PlanePoint.Point(0.0, 2.0), PlanePoint.Point(1.0, 1.0)];
    var r := ProjectPoints(Basis(Origin(), Bx(), By()), pts);
    assert r == [Point(0.0, 0.0, 0.0), Point(0.0, 2.0, 0.0), Point(1.0, 1.0, 0.0)];
  }
}
