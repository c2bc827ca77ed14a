/**
 * Intersection and closest-connection helpers for lines, rays and segments
 * in the plane (petrify/plane/util.py).
 */
module PlaneUtil {
  import opened Wrappers
  import opened PlanePoint
  import opened PlaneLine

  /** The point at parameter u along l: p + u v. */
  function At(l: L2, u: real): V2 {
    Point(l.p.x + u * l.v.x, l.p.y + u * l.v.y)
  }

  /** The cross-determinant of the two directions; zero exactly when they are parallel. */
  function Det(a: L2, b: L2): real {
    b.v.y * a.v.x - b.v.x * a.v.y
  }

  /** A parameter outside the range of the kind is pulled into [0, 1]. */
  function Clamp(kind: LineKind, u: real): real {
    if UIn(kind, u) then u
    else if u > 1.0 then 1.0
    else if u < 0.0 then 0.0
    else u
  }

  /** The parameter along a at which it meets b (meaningful when Det(a, b) != 0). */
  function ParamA(a: L2, b: L2): real
    requires Det(a, b) != 0.0
  {
    (b.v.x * (a.p.y - b.p.y) - b.v.y * (a.p.x - b.p.x)) / Det(a, b)
  }

  /** The parameter along b at which it meets a (meaningful when Det(a, b) != 0). */
  function ParamB(a: L2, b: L2): real
    requires Det(a, b) != 0.0
  {
    (a.v.x * (a.p.y - b.p.y) - a.v.y * (a.p.x - b.p.x)) / Det(a, b)
  }

  /**
   * `_intersect_line2_line2(A, B)`: None for parallel directions or when a
   * parameter lies outside its object's range, else the point on A.
   */
  function Intersect(a: L2, b: L2): Option<V2> {
    if Det(a, b) == 0.0 then None
    else if !UIn(a.kind, ParamA(a, b)) then None
    else if !UIn(b.kind, ParamB(a, b)) then None
    else Some(At(a, ParamA(a, b)))
  }

  /**
   * `_connect_point2_line2(P, L)`: the segment from P to the foot of P on L,
   * the projection parameter clamped when it leaves L's range. The source
   * asserts that the squared length of the direction is nonzero; the segment
   * constructor refuses a P that is not a point.
   */
  function ConnectPointLine(pt: V2, l: L2): Option<L2>
    requires MagnitudeSquared(l.v) != 0.0
  {
    ConstructAsWritten(SegmentK, [APlanar(pt), APlanar(At(l, Clamp(l.kind, FootParam(pt, l))))], NoNorm)
  }

  /** The projection parameter of pt on l: ((pt - p) . v) / |v|^2. */
  function FootParam(pt: V2, l: L2): real
    requires MagnitudeSquared(l.v) != 0.0
  {
    ((pt.x - l.p.x) * l.v.x + (pt.y - l.p.y) * l.v.y) / MagnitudeSquared(l.v)
  }

  /**
   * `_connect_line2_line2(A, B)`: for non-parallel directions, the segment
   * between the points at the clamped parameters on A and on B. The parallel
   * branch names a class the module never imports, so it always fails (None).
   */
  function ConnectLines(a: L2, b: L2): Option<L2> {
    if Det(a, b) == 0.0 then None
    else
      var ua := Clamp(a.kind, ParamA(a, b));
      var ub := Clamp(b.kind, ParamB(a, b));
      ConstructAsWritten(SegmentK, [APlanar(At(a, ua)), APlanar(At(b, ub))], NoNorm)
  }

  // ---------------------------------------------------------------------
  // Arithmetic helpers

  /**
   * The two parameters describe the same point: with ua d and ub d the
   * numerators, dx + ua avx - ub bvx vanishes (and likewise in y).
   */
  lemma SameCrossing(avx: real, avy: real, bvx: real, bvy: real, dx: real, dy: real, ua: real, ub: real)
    requires bvy * avx - bvx * avy != 0.0
    requires ua * (bvy * avx - bvx * avy) == bvx * dy - bvy * dx
    requires ub * (bvy * avx - bvx * avy) == avx * dy - avy * dx
    ensures dx + ua * avx - ub * bvx == 0.0
    ensures dy + ua * avy - ub * bvy == 0.0
  {
    var d := bvy * avx - bvx * avy;
    var ex := dx + ua * avx - ub * bvx;
    var ey := dy + ua * avy - ub * bvy;
    assert ex * d == dx * d + (ua * d) * avx - (ub * d) * bvx;
    assert dx * d + (bvx * dy - bvy * dx) * avx - (avx * dy - avy * dx) * bvx == 0.0;
    CancelNonzero(ex, d);
    assert ey * d == dy * d + (ua * d) * avy - (ub * d) * bvy;
    assert dy * d + (bvx * dy - bvy * dx) * avy - (avx * dy - avy * dx) * bvy == 0.0;
    CancelNonzero(ey, d);
  }

  /** The residual P - foot is orthogonal to v when u is the projection parameter. */
  lemma ProjectionOrthogonal(px: real, py: real, vx: real, vy: real, u: real)
    requires vx * vx + vy * vy != 0.0
    requires u * (vx * vx + vy * vy) == px * vx + py * vy
    ensures (px - u * vx) * vx + (py - u * vy) * vy == 0.0
  {
    assert (px - u * vx) * vx + (py - u * vy) * vy == px * vx + py * vy - u * (vx * vx + vy * vy);
  }

  // ---------------------------------------------------------------------
  // Properties

  /** Clamping lands in the kind's range and leaves an in-range parameter alone. */
  lemma ClampProperties(kind: LineKind, u: real)
    ensures UIn(kind, Clamp(kind, u))
    ensures UIn(kind, u) ==> Clamp(kind, u) == u
    ensures kind == LineK ==> Clamp(kind, u) == u
    ensures kind == SegmentK ==> 0.0 <= Clamp(kind, u) <= 1.0
  {
  }

  /** Parallel directions never intersect (even when the lines coincide). */
  lemma ParallelNeverIntersects(a: L2, b: L2)
    requires Det(a, b) == 0.0
    ensures Intersect(a, b) == None
    ensures ConnectLines(a, b) == None
  {
  }

  /**
   * A found intersection lies on both objects, at parameters inside both
   * ranges; and whenever both parameters are in range one is found.
   */
  lemma IntersectOnBoth(a: L2, b: L2)
    requires Det(a, b) != 0.0
    ensures Intersect(a, b).Some? <==> UIn(a.kind, ParamA(a, b)) && UIn(b.kind, ParamB(a, b))
    ensures Intersect(a, b).Some? ==> Intersect(a, b).value == At(a, ParamA(a, b))
    ensures Intersect(a, b).Some? ==> Intersect(a, b).value == At(b, ParamB(a, b))
  {
    var d := Det(a, b);
    var dx, dy := a.p.x - b.p.x, a.p.y - b.p.y;
    var ua, ub := ParamA(a, b), ParamB(a, b);
    QuotientTimesDivisor(b.v.x * dy - b.v.y * dx, d);
    QuotientTimesDivisor(a.v.x * dy - a.v.y * dx, d);
    SameCrossing(a.v.x, a.v.y, b.v.x, b.v.y, dx, dy, ua, ub);
  }

  /** Unbounded non-parallel lines always meet. */
  lemma LinesAlwaysMeet(a: L2, b: L2)
    requires a.kind == LineK && b.kind == LineK && Det(a, b) != 0.0
    ensures Intersect(a, b).Some?
  {
  }

  /** The doctest pair: Line(Point(0, 2), Vector(0, -2)) meets Line(Point(2, 0), Vector(-2, 0)) at the origin. */
  lemma IntersectExamples()
    ensures Intersect(L2(LineK, Point(2.0, 0.0), Vector(-2.0, 0.0)), L2(LineK, Point(0.0, 2.0), Vector(0.0, -2.0))) == Some(Point(0.0, 0.0))
    ensures Intersect(L2(LineK, Point(1.0, 2.0), Vector(0.0, -2.0)), L2(LineK, Point(0.0, 2.0), Vector(0.0, -2.0))) == None
  {
    var a := L2(LineK, Point(2.0, 0.0), Vector(-2.0, 0.0));
    var b := L2(LineK, Point(0.0, 2.0), Vector(0.0, -2.0));
    assert Det(a, b) == 4.0;
    assert ParamA(a, b) == 1.0;
  }

  /**
   * The connecting segment starts at P and ends at L.p + u v for a u in L's
   * range; for an unbounded line the end is the orthogonal foot.
   */
  lemma ConnectPointLineProperties(pt: V2, l: L2)
    requires MagnitudeSquared(l.v) != 0.0 && pt.kind == PointKind
    ensures ConnectPointLine(pt, l).Some?
    ensures ConnectPointLine(pt, l).value.kind == SegmentK && ConnectPointLine(pt, l).value.p == pt
    ensures exists u :: UIn(l.kind, u) && P2(ConnectPointLine(pt, l).value) == At(l, u)
    ensures l.kind == LineK ==>
      Dot(Vector(pt.x - P2(ConnectPointLine(pt, l).value).x, pt.y - P2(ConnectPointLine(pt, l).value).y), l.v) == 0.0
  {
    var c := Clamp(l.kind, FootParam(pt, l));
    ClampProperties(l.kind, FootParam(pt, l));
    assert P2(ConnectPointLine(pt, l).value) == At(l, c);
    if l.kind == LineK {
      FootOrthogonal(pt, l);
    }
  }

  /** For an unbounded line the foot leaves a residual orthogonal to the direction. */
  lemma FootOrthogonal(pt: V2, l: L2)
    requires MagnitudeSquared(l.v) != 0.0
    ensures Dot(Vector(pt.x - At(l, FootParam(pt, l)).x, pt.y - At(l, FootParam(pt, l)).y), l.v) == 0.0
  {
    var m := MagnitudeSquared(l.v);
    var px, py := pt.x - l.p.x, pt.y - l.p.y;
    var u := FootParam(pt, l);
    QuotientTimesDivisor(px * l.v.x + py * l.v.y, m);
    ProjectionOrthogonal(px, py, l.v.x, l.v.y, u);
    var f := At(l, u);
    assert pt.x - f.x == px - u * l.v.x;
    assert pt.y - f.y == py - u * l.v.y;
  }

  /** The doctest: the foot of Point(1, 0) on Line(Point(0, 2), Vector(0, -2)) is the origin. */
  lemma ConnectPointLineExample()
    ensures ConnectPointLine(Point(1.0, 0.0), L2(LineK, Point(0.0, 2.0), Vector(0.0, -2.0)))
      == Some(L2(SegmentK, Point(1.0, 0.0), Vector(-1.0, 0.0)))
  {
    assert At(L2(LineK, Point(0.0, 2.0), Vector(0.0, -2.0)), 1.0) == Point(0.0, 0.0);
  }

  /**
   * When the two objects do intersect, the connecting segment runs from the
   * intersection to itself.
   */
  lemma ConnectAtIntersection(a: L2, b: L2)
    requires a.p.kind == PointKind && Intersect(a, b).Some?
    ensures ConnectLines(a, b).Some?
    ensures ConnectLines(a, b).value.p == Intersect(a, b).value
    ensures IsZero(ConnectLines(a, b).value.v)
  {
    IntersectOnBoth(a, b);
  }

  /** Both ends of a connection lie within their objects' ranges. */
  lemma ConnectLinesEnds(a: L2, b: L2)
    requires Det(a, b) != 0.0
    ensures ConnectLines(a, b).Some?
    ensures exists ua, ub ::
      (UIn(a.kind, ua) && UIn(b.kind, ub) &&
       ConnectLines(a, b).value.p == At(a, ua) && P2(ConnectLines(a, b).value) == At(b, ub))
  {
    var ua := Clamp(a.kind, ParamA(a, b));
    var ub := Clamp(b.kind, ParamB(a, b));
    ClampProperties(a.kind, ParamA(a, b));
    ClampProperties(b.kind, ParamB(a, b));
    assert ConnectLines(a, b).value.p == At(a, ua);
    assert P2(ConnectLines(a, b).value) == At(b, ub);
  }
}
