/**
 * Closest connections and intersections between 3-D points, lines and
 * planes (petrify/space/util.py).
 */
module SpaceUtil {
  import opened Wrappers
  import opened SpacePoint
  import opened SpaceShapes
  import PlanePoint
  import PlaneLine
  import PlaneUtil

  /** The projection parameter of pt on l: ((pt - p) . v) / |v|^2. */
  function FootParam(pt: V3, l: L3): real
    requires MagnitudeSquared(l.v) != 0.0
  {
    ((pt.x - l.p.x) * l.v.x + (pt.y - l.p.y) * l.v.y + (pt.z - l.p.z) * l.v.z) / MagnitudeSquared(l.v)
  }

  /**
   * `_connect_point3_line3(P, L)`: the segment from P to the point of L at
   * the projection parameter, clamped into [0, 1] when it leaves L's range.
   * The source asserts a nonzero direction; the segment constructor refuses
   * a P that is not a point (None).
   */
  function ConnectPointLine(pt: V3, l: L3): Option<L3>
    requires MagnitudeSquared(l.v) != 0.0
  {
    Through(PlaneLine.SegmentK, pt, At(l, PlaneUtil.Clamp(l.kind, FootParam(pt, l))))
  }

  /**
   * `_connect_point3_plane(p, plane)`: with n̂ the plane normal divided by
   * its magnitude `mag` (square roots are not modelled: the caller passes
   * it), the segment from p to p - n̂ (p . n - k). A zero magnitude raises
   * in `normalized` and a non-point p in the segment constructor (None).
   */
  function ConnectPointPlane(pt: V3, pl: Plane, mag: real): Option<L3> {
    match Normalized(pl.n, mag)
    case None => None
    case Some(u) =>
      var d := Dot(pt, pl.n) - pl.k;
      Through(PlaneLine.SegmentK, pt, Point(pt.x - u.x * d, pt.y - u.y * d, pt.z - u.z * d))
  }

  /** The parameter at which l crosses the plane (meaningful when n . v != 0). */
  function PlaneParam(l: L3, pl: Plane): real
    requires Dot(pl.n, l.v) != 0.0
  {
    (pl.k - Dot(pl.n, l.p)) / Dot(pl.n, l.v)
  }

  /**
   * `_intersect_line3_plane(L, P)`: None when the line is parallel to the
   * plane or the crossing parameter is outside L's range, else the point
   * of L at that parameter.
   */
  function IntersectLinePlane(l: L3, pl: Plane): Option<V3> {
    if Dot(pl.n, l.v) == 0.0 then None
    else if !PlaneLine.UIn(l.kind, PlaneParam(l, pl)) then None
    else Some(At(l, PlaneParam(l, pl)))
  }

  /** The Gram determinant |n1|^2 |n2|^2 - (n1 . n2)^2 of two normals. */
  function Gram(a: Plane, b: Plane): real {
    MagnitudeSquared(a.n) * MagnitudeSquared(b.n) - Dot(a.n, b.n) * Dot(a.n, b.n)
  }

  /** The weights of a.n and b.n in the point the intersection line passes through. */
  function Weights(a: Plane, b: Plane): (real, real)
    requires Gram(a, b) != 0.0
  {
    ((a.k * MagnitudeSquared(b.n) - b.k * Dot(a.n, b.n)) / Gram(a, b),
     (b.k * MagnitudeSquared(a.n) - a.k * Dot(a.n, b.n)) / Gram(a, b))
  }

  /**
   * `_intersect_plane_plane(A, B)`: None for parallel normals (zero Gram
   * determinant), else the line through c1 n1 + c2 n2 along n1 x n2.
   */
  function IntersectPlanes(a: Plane, b: Plane): Option<L3> {
    if Gram(a, b) == 0.0 then None
    else
      var (c1, c2) := Weights(a, b);
      Some(L3(PlaneLine.LineK,
              Combine(c1, a.n, c2, b.n),
              Cross(a.n, b.n)))
  }

  /** The point c1 u + c2 w. */
  function Combine(c1: real, u: V3, c2: real, w: V3): V3 {
    Point(c1 * u.x + c2 * w.x, c1 * u.y + c2 * w.y, c1 * u.z + c2 * w.z)
  }

  /** The x, y and z coordinates of a list of points, in order. */
  function Xs(vs: seq<V3>): (r: seq<real>)
    ensures |r| == |vs| && forall i :: 0 <= i < |vs| ==> r[i] == vs[i].x
  {
    seq(|vs|, i requires 0 <= i < |vs| => vs[i].x)
  }

  function Ys(vs: seq<V3>): (r: seq<real>)
    ensures |r| == |vs| && forall i :: 0 <= i < |vs| ==> r[i] == vs[i].y
  {
    seq(|vs|, i requires 0 <= i < |vs| => vs[i].y)
  }

  function Zs(vs: seq<V3>): (r: seq<real>)
    ensures |r| == |vs| && forall i :: 0 <= i < |vs| ==> r[i] == vs[i].z
  {
    seq(|vs|, i requires 0 <= i < |vs| => vs[i].z)
  }

  /** `_pmap(Klass, f, it)`: f applied to the x, y and z coordinates separately. */
  function Pmap(kind: Kind, f: seq<real> -> real, vs: seq<V3>): V3 {
    V3(kind, f(Xs(vs)), f(Ys(vs)), f(Zs(vs)))
  }

  /** The built-in `sum` over a list of numbers. */
  function Sum(s: seq<real>): real {
    if |s| == 0 then 0.0 else Sum(s[..|s| - 1]) + s[|s| - 1]
  }

  // ---------------------------------------------------------------------
  // Arithmetic helpers

  /** The dot product with p + u v splits into the anchor term and u times the direction term. */
  lemma DotAlong(nx: real, ny: real, nz: real, px: real, py: real, pz: real, vx: real, vy: real, vz: real, u: real)
    ensures nx * (px + u * vx) + ny * (py + u * vy) + nz * (pz + u * vz)
         == (nx * px + ny * py + nz * pz) + u * (nx * vx + ny * vy + nz * vz)
  {
  }

  /** Moving by the crossing parameter lands on the level k. */
  lemma ReachesLevel(np: real, d: real, k: real, u: real)
    requires d != 0.0 && u == (k - np) / d
    ensures np + u * d == k
  {
    PlanePoint.QuotientTimesDivisor(k - np, d);
  }

  /** The weights solve the 2x2 Gram system: c1 |n1|^2 + c2 n1.n2 = k1. */
  lemma WeightsSolveFirst(m1: real, m2: real, m12: real, k1: real, k2: real, g: real, c1: real, c2: real)
    requires g == m1 * m2 - m12 * m12 && g != 0.0
    requires c1 * g == k1 * m2 - k2 * m12
    requires c2 * g == k2 * m1 - k1 * m12
    ensures c1 * m1 + c2 * m12 == k1
  {
    assert (c1 * m1 + c2 * m12 - k1) * g == (c1 * g) * m1 + (c2 * g) * m12 - k1 * g;
    PlanePoint.CancelNonzero(c1 * m1 + c2 * m12 - k1, g);
  }

  /** The weights solve the 2x2 Gram system: c1 n1.n2 + c2 |n2|^2 = k2. */
  lemma WeightsSolveSecond(m1: real, m2: real, m12: real, k1: real, k2: real, g: real, c1: real, c2: real)
    requires g == m1 * m2 - m12 * m12 && g != 0.0
    requires c1 * g == k1 * m2 - k2 * m12
    requires c2 * g == k2 * m1 - k1 * m12
    ensures c1 * m12 + c2 * m2 == k2
  {
    assert (c1 * m12 + c2 * m2 - k2) * g == (c1 * g) * m12 + (c2 * g) * m2 - k2 * g;
    PlanePoint.CancelNonzero(c1 * m12 + c2 * m2 - k2, g);
  }

  /** The dot product with c1 a + c2 b splits into the two weighted dot products. */
  lemma DotCombination(nx: real, ny: real, nz: real, ax: real, ay: real, az: real, bx: real, bY: real, bz: real, c1: real, c2: real)
    ensures nx * (c1 * ax + c2 * bx) + ny * (c1 * ay + c2 * bY) + nz * (c1 * az + c2 * bz)
         == c1 * (nx * ax + ny * ay + nz * az) + c2 * (nx * bx + ny * bY + nz * bz)
  {
  }

  /** The same split for 3-D values. */
  lemma DotCombinationV(n: V3, a: V3, b: V3, c1: real, c2: real)
    ensures Dot(n, Combine(c1, a, c2, b)) == c1 * Dot(n, a) + c2 * Dot(n, b)
  {
    DotCombination(n.x, n.y, n.z, a.x, a.y, a.z, b.x, b.y, b.z, c1, c2);
  }

  /** A positive number whose square is one is one. */
  lemma UnitRoot(m: real)
    requires m * m == 1.0 && m > 0.0
    ensures m == 1.0
  {
  }

  /** The residual P - (p + u v) is orthogonal to v when u is the projection parameter. */
  lemma ProjectionOrthogonal(px: real, py: real, pz: real, vx: real, vy: real, vz: real, u: real)
    requires u * (vx * vx + vy * vy + vz * vz) == px * vx + py * vy + pz * vz
    ensures (px - u * vx) * vx + (py - u * vy) * vy + (pz - u * vz) * vz == 0.0
  {
    assert (px - u * vx) * vx + (py - u * vy) * vy + (pz - u * vz) * vz
        == px * vx + py * vy + pz * vz - u * (vx * vx + vy * vy + vz * vz);
  }

  // ---------------------------------------------------------------------
  // Properties

  /**
   * The point-line connection starts at P and ends on L at a parameter in
   * L's range; for an unbounded line the end is the orthogonal foot.
   */
  lemma ConnectPointLineProperties(pt: V3, l: L3)
    requires MagnitudeSquared(l.v) != 0.0
    ensures ConnectPointLine(pt, l).Some? <==> pt.kind == PlanePoint.PointKind
    ensures ConnectPointLine(pt, l).Some? ==>
      ConnectPointLine(pt, l).value.kind == PlaneLine.SegmentK && ConnectPointLine(pt, l).value.p == pt &&
      exists u :: PlaneLine.UIn(l.kind, u) && P2(ConnectPointLine(pt, l).value) == At(l, u)
    ensures ConnectPointLine(pt, l).Some? && l.kind == PlaneLine.LineK ==>
      var e := P2(ConnectPointLine(pt, l).value);
      Dot(Vector(pt.x - e.x, pt.y - e.y, pt.z - e.z), l.v) == 0.0
  {
    var c := PlaneUtil.Clamp(l.kind, FootParam(pt, l));
    PlaneUtil.ClampProperties(l.kind, FootParam(pt, l));
    if pt.kind == PlanePoint.PointKind {
      ThroughReachesEnd(PlaneLine.SegmentK, pt, At(l, c));
      assert P2(ConnectPointLine(pt, l).value) == At(l, c);
      if l.kind == PlaneLine.LineK {
        FootOrthogonal(pt, l);
      }
    }
  }

  /** The unclamped foot leaves a residual orthogonal to the direction. */
  lemma FootOrthogonal(pt: V3, l: L3)
    requires MagnitudeSquared(l.v) != 0.0
    ensures var f := At(l, FootParam(pt, l));
      Dot(Vector(pt.x - f.x, pt.y - f.y, pt.z - f.z), l.v) == 0.0
  {
    var px, py, pz := pt.x - l.p.x, pt.y - l.p.y, pt.z - l.p.z;
    var u := FootParam(pt, l);
    FootScaled(pt, l);
    ProjectionOrthogonal(px, py, pz, l.v.x, l.v.y, l.v.z, u);
    ResidualAt(pt, l, u);
  }

  /** The foot parameter times the squared length is the dot product it divides. */
  lemma FootScaled(pt: V3, l: L3)
    requires MagnitudeSquared(l.v) != 0.0
    ensures FootParam(pt, l) * (l.v.x * l.v.x + l.v.y * l.v.y + l.v.z * l.v.z) ==
      (pt.x - l.p.x) * l.v.x + (pt.y - l.p.y) * l.v.y + (pt.z - l.p.z) * l.v.z
  {
    PlanePoint.QuotientTimesDivisor((pt.x - l.p.x) * l.v.x + (pt.y - l.p.y) * l.v.y + (pt.z - l.p.z) * l.v.z,
      MagnitudeSquared(l.v));
  }

  /** The residual from the point of l at u to pt, coordinate by coordinate. */
  lemma ResidualAt(pt: V3, l: L3, u: real)
    ensures var f := At(l, u);
      pt.x - f.x == (pt.x - l.p.x) - u * l.v.x &&
      pt.y - f.y == (pt.y - l.p.y) - u * l.v.y &&
      pt.z - f.z == (pt.z - l.p.z) - u * l.v.z
  {
  }

  /**
   * With a unit normal, the point-plane connection starts at p and ends on
   * the plane; a zero magnitude or a non-point p fails.
   */
  lemma ConnectPointPlaneLands(pt: V3, pl: Plane, mag: real)
    requires MagnitudeSquared(pl.n) == 1.0 && mag * mag == 1.0 && mag > 0.0
    requires pt.kind == PlanePoint.PointKind
    ensures ConnectPointPlane(pt, pl, mag).Some?
    ensures ConnectPointPlane(pt, pl, mag).value.p == pt
    ensures Dot(pl.n, P2(ConnectPointPlane(pt, pl, mag).value)) == pl.k
  {
    UnitRoot(mag);
    var n := pl.n;
    var u := Normalized(n, mag).value;
    assert u.x == n.x && u.y == n.y && u.z == n.z;
    var d := Dot(pt, n) - pl.k;
    var e := Point(pt.x - n.x * d, pt.y - n.y * d, pt.z - n.z * d);
    ThroughReachesEnd(PlaneLine.SegmentK, pt, e);
    assert P2(ConnectPointPlane(pt, pl, mag).value) == e;
    DotAlong(n.x, n.y, n.z, pt.x, pt.y, pt.z, n.x, n.y, n.z, -d);
    assert Dot(n, e) == Dot(n, pt) + (-d) * MagnitudeSquared(n);
  }

  /** The point-plane connection fails on a zero magnitude or a non-point start. */
  lemma ConnectPointPlaneFails(pt: V3, pl: Plane, mag: real)
    ensures ConnectPointPlane(pt, pl, mag).None? <==> mag == 0.0 || pt.kind != PlanePoint.PointKind
  {
  }

  /**
   * The line-plane intersection exists exactly when the line is not
   * parallel to the plane and the crossing parameter is in range; the point
   * found lies on both the line and the plane.
   */
  lemma IntersectLinePlaneProperties(l: L3, pl: Plane)
    ensures IntersectLinePlane(l, pl).Some? <==>
      Dot(pl.n, l.v) != 0.0 && PlaneLine.UIn(l.kind, PlaneParam(l, pl))
    ensures IntersectLinePlane(l, pl).Some? ==>
      IntersectLinePlane(l, pl).value == At(l, PlaneParam(l, pl)) &&
      Dot(pl.n, IntersectLinePlane(l, pl).value) == pl.k
  {
    if IntersectLinePlane(l, pl).Some? {
      var u := PlaneParam(l, pl);
      DotAlong(pl.n.x, pl.n.y, pl.n.z, l.p.x, l.p.y, l.p.z, l.v.x, l.v.y, l.v.z, u);
      ReachesLevel(Dot(pl.n, l.p), Dot(pl.n, l.v), pl.k, u);
    }
  }

  /** The doctest: Line(origin, (1, 1, 1)) meets the plane z = 2 at (2, 2, 2). */
  lemma IntersectLinePlaneExample()
    ensures IntersectLinePlane(L3(PlaneLine.LineK, Origin(), Vector(1.0, 1.0, 1.0)), Plane(Bz(), 2.0)) == Some(Point(2.0, 2.0, 2.0))
  {
    var l := L3(PlaneLine.LineK, Point(0.0, 0.0, 0.0), Vector(1.0, 1.0, 1.0));
    var pl := Plane(Vector(0.0, 0.0, 1.0), 2.0);
    var u := PlaneParam(l, pl);
    assert u == 2.0 by {
      assert Dot(pl.n, l.v) == 1.0;
      assert Dot(pl.n, l.p) == 0.0;
      DivideByOne(pl.k - Dot(pl.n, l.p), Dot(pl.n, l.v), u);
    }
    IntersectLinePlaneProperties(l, pl);
  }

  /** For two orthogonal unit normals the anchor weights are the planes' offsets. */
  lemma OrthonormalWeights(a: Plane, b: Plane)
    requires MagnitudeSquared(a.n) == 1.0
    requires MagnitudeSquared(b.n) == 1.0
    requires Dot(a.n, b.n) == 0.0
    ensures Gram(a, b) == 1.0
    ensures Weights(a, b) == (a.k, b.k)
  {
    assert Gram(a, b) == 1.0;
    var (c1, c2) := Weights(a, b);
    assert c1 == a.k by {
      DivideByOne(a.k * MagnitudeSquared(b.n) - b.k * Dot(a.n, b.n), Gram(a, b), c1);
    }
    assert c2 == b.k by {
      DivideByOne(b.k * MagnitudeSquared(a.n) - a.k * Dot(a.n, b.n), Gram(a, b), c2);
    }
  }

  /** A quotient by one is the dividend. */
  lemma DivideByOne(a: real, b: real, q: real)
    requires b == 1.0
    requires q == a / b
    ensures q == a
  {
  }

  /**
   * Two planes meet exactly when their normals are not parallel; the line
   * found lies in both planes (its anchor satisfies both equations) and its
   * direction n1 x n2 is orthogonal to both normals.
   */
  lemma IntersectPlanesProperties(a: Plane, b: Plane)
    ensures IntersectPlanes(a, b).Some? <==> Gram(a, b) != 0.0
    ensures IntersectPlanes(a, b).Some? ==>
      var l := IntersectPlanes(a, b).value;
      l.kind == PlaneLine.LineK && l.p.kind == PlanePoint.PointKind && l.v == Cross(a.n, b.n) &&
      Dot(a.n, l.p) == a.k && Dot(b.n, l.p) == b.k
    ensures IntersectPlanes(a, b).Some? ==>
      Dot(a.n, IntersectPlanes(a, b).value.v) == 0.0 && Dot(b.n, IntersectPlanes(a, b).value.v) == 0.0
  {
    if Gram(a, b) != 0.0 {
      var l := IntersectPlanes(a, b).value;
      assert Dot(a.n, l.p) == a.k by { AnchorOnFirst(a, b); }
      assert Dot(b.n, l.p) == b.k by { AnchorOnSecond(a, b); }
      CrossOrthogonal(a.n, b.n);
    }
  }

  /** The weights times the Gram determinant are the numerators they divide. */
  lemma WeightsScaled(a: Plane, b: Plane)
    requires Gram(a, b) != 0.0
    ensures Weights(a, b).0 * Gram(a, b) == a.k * MagnitudeSquared(b.n) - b.k * Dot(a.n, b.n)
    ensures Weights(a, b).1 * Gram(a, b) == b.k * MagnitudeSquared(a.n) - a.k * Dot(a.n, b.n)
  {
    PlanePoint.QuotientTimesDivisor(a.k * MagnitudeSquared(b.n) - b.k * Dot(a.n, b.n), Gram(a, b));
    PlanePoint.QuotientTimesDivisor(b.k * MagnitudeSquared(a.n) - a.k * Dot(a.n, b.n), Gram(a, b));
  }

  /** The anchor of the plane-plane line satisfies the first plane's equation. */
  lemma AnchorOnFirst(a: Plane, b: Plane)
    requires Gram(a, b) != 0.0
    ensures Dot(a.n, IntersectPlanes(a, b).value.p) == a.k
  {
    var (c1, c2) := Weights(a, b);
    var g := Gram(a, b);
    WeightsScaled(a, b);
    var q := Combine(c1, a.n, c2, b.n);
    assert IntersectPlanes(a, b).value.p == q;
    assert c1 * MagnitudeSquared(a.n) + c2 * Dot(a.n, b.n) == a.k by {
      WeightsSolveFirst(MagnitudeSquared(a.n), MagnitudeSquared(b.n), Dot(a.n, b.n), a.k, b.k, g, c1, c2);
    }
    assert Dot(a.n, q) == c1 * MagnitudeSquared(a.n) + c2 * Dot(a.n, b.n) by {
      assert Dot(a.n, a.n) == MagnitudeSquared(a.n);
      DotCombinationV(a.n, a.n, b.n, c1, c2);
    }
  }

  /** The anchor of the plane-plane line satisfies the second plane's equation. */
  lemma AnchorOnSecond(a: Plane, b: Plane)
    requires Gram(a, b) != 0.0
    ensures Dot(b.n, IntersectPlanes(a, b).value.p) == b.k
  {
    var (c1, c2) := Weights(a, b);
    var g := Gram(a, b);
    WeightsScaled(a, b);
    var q := Combine(c1, a.n, c2, b.n);
    assert IntersectPlanes(a, b).value.p == q;
    assert c1 * Dot(a.n, b.n) + c2 * MagnitudeSquared(b.n) == b.k by {
      WeightsSolveSecond(MagnitudeSquared(a.n), MagnitudeSquared(b.n), Dot(a.n, b.n), a.k, b.k, g, c1, c2);
    }
    assert Dot(b.n, q) == c1 * Dot(a.n, b.n) + c2 * MagnitudeSquared(b.n) by {
      DotCombinationV(b.n, a.n, b.n, c1, c2);
      assert Dot(b.n, a.n) == Dot(a.n, b.n);
      assert Dot(b.n, b.n) == MagnitudeSquared(b.n);
    }
  }

  /** `_pmap` applies f to each coordinate list, whose entries follow the points in order. */
  lemma PmapComponents(kind: Kind, f: seq<real> -> real, vs: seq<V3>)
    ensures Pmap(kind, f, vs).kind == kind
    ensures Pmap(kind, f, vs).x == f(Xs(vs)) && Pmap(kind, f, vs).y == f(Ys(vs)) && Pmap(kind, f, vs).z == f(Zs(vs))
    ensures |Xs(vs)| == |vs| && forall i :: 0 <= i < |vs| ==> Xs(vs)[i] == vs[i].x && Ys(vs)[i] == vs[i].y && Zs(vs)[i] == vs[i].z
  {
  }

  /** `_pmap(Point, sum, points)` grows by each appended point's coordinates. */
  lemma {:induction false} PmapSumAppend(vs: seq<V3>, w: V3)
    ensures Pmap(PlanePoint.PointKind, Sum, vs + [w]) ==
      Point(Pmap(PlanePoint.PointKind, Sum, vs).x + w.x, Pmap(PlanePoint.PointKind, Sum, vs).y + w.y, Pmap(PlanePoint.PointKind, Sum, vs).z + w.z)
  {
    var ws := vs + [w];
    assert Xs(ws)[..|ws| - 1] == Xs(vs);
    assert Ys(ws)[..|ws| - 1] == Ys(vs);
    assert Zs(ws)[..|ws| - 1] == Zs(vs);
  }
}
