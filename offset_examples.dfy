/**
 * The `Polygon2.offset` doctest (petrify/plane.py) on the unit square
 * (0, 0), (0, 1), (1, 1), (1, 0): every edge survives exactly when the
 * squared amount is below 1/4, and then the corners move diagonally by the
 * amount; otherwise no polygon is left.
 */
module OffsetExamples {
  import opened Wrappers
  import opened PlanePoint
  import opened PlaneLine
  import opened PlaneUtil
  import opened PlanePolygon
  import opened PlaneOffset
  import Solver

  // ---------------------------------------------------------------------
  // The solve of `magnitude`, by Cramer's rule

  /** The two row equations of the magnitude system, solved for the first unknown. */
  lemma MagnitudeAlgebra(ix: real, iy: real, lx: real, ly: real, nx: real, ny: real, w: real, s0: real, s1: real, t: real)
    requires ix * ly - lx * iy != 0.0 && w * (ix * ly - lx * iy) == nx * ly - lx * ny
    requires ix * s0 + -lx * s1 == t * nx
    requires iy * s0 + -ly * s1 == t * ny
    ensures s0 == w * t
    ensures t == 0.0 ==> s0 == 0.0 && s1 == 0.0
  {
    var d := ix * ly - lx * iy;
    assert (ix * s0 + -lx * s1) * ly - (iy * s0 + -ly * s1) * lx == s0 * d;
    assert s0 * d == t * (nx * ly - lx * ny);
    assert (s0 - w * t) * d == 0.0;
    CancelNonzero(s0 - w * t, d);
  }

  /** Row i = [p, q, r] of a balanced 2 x 3 system: p s0 + q s1 == t r. */
  lemma BalancedRow(M: Solver.Matrix, s: seq<real>, t: real, i: int, p: real, q: real, r: real)
    requires Solver.Augmented(M) && |M| == 2
    requires Solver.Balanced(M, s, t)
    requires 0 <= i < 2
    requires M[i] == [p, q, r]
    ensures p * s[0] + q * s[1] == t * r
  {
    assert Solver.Sum(M[i], s, 0, 2) == t * M[i][2];
  }

  /** The balanced combinations of a nonsingular magnitude system are multiples of (w, u). */
  lemma MagnitudeSystemUnique(line: V2, normal: V2, inw: V2, w: real)
    requires inw.x * line.y - line.x * inw.y != 0.0
    requires w * (inw.x * line.y - line.x * inw.y) == normal.x * line.y - line.x * normal.y
    ensures forall s: seq<real>, t: real {:trigger Solver.Balanced(MagnitudeSystem(line, normal, inw), s, t)} ::
      |s| == 2 && Solver.Balanced(MagnitudeSystem(line, normal, inw), s, t) ==> s[0] == w * t && (t == 0.0 ==> s == Solver.Zeros(2))
  {
    var M := MagnitudeSystem(line, normal, inw);
    forall s: seq<real>, t: real | |s| == 2 && Solver.Balanced(M, s, t)
      ensures s[0] == w * t && (t == 0.0 ==> s == Solver.Zeros(2))
    {
      BalancedRow(M, s, t, 0, inw.x, -line.x, normal.x);
      BalancedRow(M, s, t, 1, inw.y, -line.y, normal.y);
      MagnitudeAlgebra(inw.x, inw.y, line.x, line.y, normal.x, normal.y, w, s[0], s[1], t);
      if t == 0.0 {
        assert s == [0.0, 0.0] == Solver.Zeros(2);
      }
    }
  }

  /** A system whose balanced combinations are all multiples of (w, u) moves by w inwards. */
  lemma MagnitudeUnique(line: V2, normal: V2, inw: V2, w: real)
    requires forall s: seq<real>, t: real {:trigger Solver.Balanced(MagnitudeSystem(line, normal, inw), s, t)} ::
      |s| == 2 && Solver.Balanced(MagnitudeSystem(line, normal, inw), s, t) ==> s[0] == w * t && (t == 0.0 ==> s == Solver.Zeros(2))
    ensures Magnitude(line, normal, inw) == Some(V2(inw.kind, inw.x * w, inw.y * w))
  {
    var M := MagnitudeSystem(line, normal, inw);
    if Solver.Solve(M).None? {
      Solver.SolveNoneSingular(M);
      assert false;
    }
    var x := Solver.Solve(M).value;
    assert x[0] == w by {
      Solver.SolveSound(M, x);
      assert Solver.Balanced(M, x, 1.0);
    }
    assert Magnitude(line, normal, inw).value == V2(inw.kind, inw.x * w, inw.y * w);
    assert Magnitude(line, normal, inw) == Some(V2(inw.kind, inw.x * w, inw.y * w));
  }

  /**
   * A nonsingular magnitude system: the motion is w times the inward
   * direction, w being Cramer's quotient.
   */
  lemma MagnitudeSolved(line: V2, normal: V2, inw: V2, w: real)
    requires inw.x * line.y - line.x * inw.y != 0.0
    requires w * (inw.x * line.y - line.x * inw.y) == normal.x * line.y - line.x * normal.y
    ensures Magnitude(line, normal, inw) == Some(V2(inw.kind, inw.x * w, inw.y * w))
  {
    MagnitudeSystemUnique(line, normal, inw, w);
    MagnitudeUnique(line, normal, inw, w);
  }

  /** At each corner of the square the motion is the bisector itself (w = 1). */
  lemma MotionLeft()
    ensures Magnitude(Vector(0.0, 1.0), Vector(1.0, 0.0), Vector(1.0, 1.0)) == Some(Vector(1.0, 1.0))
  {
    MagnitudeSolved(Vector(0.0, 1.0), Vector(1.0, 0.0), Vector(1.0, 1.0), 1.0);
  }

  lemma MotionTop()
    ensures Magnitude(Vector(1.0, 0.0), Vector(0.0, -1.0), Vector(1.0, -1.0)) == Some(Vector(1.0, -1.0))
  {
    MagnitudeSolved(Vector(1.0, 0.0), Vector(0.0, -1.0), Vector(1.0, -1.0), 1.0);
  }

  lemma MotionRight()
    ensures Magnitude(Vector(0.0, -1.0), Vector(-1.0, 0.0), Vector(-1.0, -1.0)) == Some(Vector(-1.0, -1.0))
  {
    MagnitudeSolved(Vector(0.0, -1.0), Vector(-1.0, 0.0), Vector(-1.0, -1.0), 1.0);
  }

  lemma MotionBottom()
    ensures Magnitude(Vector(-1.0, 0.0), Vector(0.0, 1.0), Vector(-1.0, 1.0)) == Some(Vector(-1.0, 1.0))
  {
    MagnitudeSolved(Vector(-1.0, 0.0), Vector(0.0, 1.0), Vector(-1.0, 1.0), 1.0);
  }

  // ---------------------------------------------------------------------
  // Intersections

  lemma IntersectAt(a: L2, b: L2, u: real, v: real)
    requires Det(a, b) != 0.0 && ParamA(a, b) == u && ParamB(a, b) == v
    requires UIn(a.kind, u) && UIn(b.kind, v)
    ensures Intersect(a, b) == Some(At(a, u))
  {
  }

  lemma IntersectParallel(a: L2, b: L2)
    requires Det(a, b) == 0.0
    ensures Intersect(a, b) == None
  {
  }

  // ---------------------------------------------------------------------
  // The square

  const Square := Polygon([Point(0.0, 0.0), Point(0.0, 1.0), Point(1.0, 1.0), Point(1.0, 0.0)])

  /** Its edges: left (up), top (right), right (down), bottom (left). */
  const E0 := L2(SegmentK, Point(0.0, 0.0), Vector(0.0, 1.0))
  const E1 := L2(SegmentK, Point(0.0, 1.0), Vector(1.0, 0.0))
  const E2 := L2(SegmentK, Point(1.0, 1.0), Vector(0.0, -1.0))
  const E3 := L2(SegmentK, Point(1.0, 0.0), Vector(-1.0, 0.0))
  const Edges: seq<L2> := [E0, E1, E2, E3]

  /** The perpendicular rays from the edge midpoints. */
  const R0 := L2(RayK, Point(0.0, 0.5), Vector(1.0, 0.0))
  const R1 := L2(RayK, Point(0.5, 1.0), Vector(0.0, -1.0))
  const R2 := L2(RayK, Point(1.0, 0.5), Vector(-1.0, 0.0))
  const R3 := L2(RayK, Point(0.5, 0.0), Vector(0.0, 1.0))

  /** The inward normals: right, down, left, up. */
  const N0 := Vector(1.0, 0.0)
  const N1 := Vector(0.0, -1.0)
  const N2 := Vector(-1.0, 0.0)
  const N3 := Vector(0.0, 1.0)
  const Normals: seq<V2> := [N0, N1, N2, N3]

  lemma SquareSegments()
    ensures Segments(Square) == Edges
  {
    var s := Segments(Square);
    forall i | 0 <= i < 4
      ensures s[i] == Edges[i]
    {
    }
  }

  // ---------------------------------------------------------------------
  // Crossing counts

  lemma HitSkip(segs: seq<L2>, edge: L2, ray: L2)
    requires |segs| > 0 && (LineEq(segs[0], edge) || Intersect(segs[0], ray).None?)
    ensures HitCount(segs, edge, ray) == HitCount(segs[1..], edge, ray)
  {
  }

  lemma HitOne(segs: seq<L2>, edge: L2, ray: L2, q: V2)
    requires |segs| > 0 && !LineEq(segs[0], edge) && Intersect(segs[0], ray) == Some(q) && !SameXY(q, P2(segs[0]))
    ensures HitCount(segs, edge, ray) == 1 + HitCount(segs[1..], edge, ray)
  {
  }

  lemma EdgesTails()
    ensures Edges[1..] == [E1, E2, E3] && Edges[2..] == [E2, E3] && Edges[3..] == [E3]
    ensures Edges[1..][1..] == Edges[2..] && Edges[2..][1..] == Edges[3..] && Edges[3..][1..] == []
  {
  }

  /** The horizontal ray from the left edge crosses only the right edge, at (1, 0.5). */
  lemma LeftHits()
    ensures HitCount(Edges, E0, R0) == 1
  {
    EdgesTails();
    IntersectParallel(E1, R0);
    IntersectAt(E2, R0, 0.5, 1.0);
    IntersectParallel(E3, R0);
    HitSkip(Edges, E0, R0);
    HitParallel(Edges[1..], E0, R0);
    HitOne(Edges[2..], E0, R0, Point(1.0, 0.5));
    HitParallel(Edges[3..], E0, R0);
  }

  lemma HitParallel(segs: seq<L2>, edge: L2, ray: L2)
    requires |segs| > 0 && Intersect(segs[0], ray).None?
    ensures HitCount(segs, edge, ray) == HitCount(segs[1..], edge, ray)
  {
    HitSkip(segs, edge, ray);
  }

  /** The downward ray from the top edge crosses only the bottom edge, at (0.5, 0). */
  lemma TopHits()
    ensures HitCount(Edges, E1, R1) == 1
  {
    EdgesTails();
    IntersectParallel(E0, R1);
    IntersectParallel(E2, R1);
    IntersectAt(E3, R1, 0.5, 1.0);
    HitParallel(Edges, E1, R1);
    HitSkip(Edges[1..], E1, R1);
    HitParallel(Edges[2..], E1, R1);
    HitOne(Edges[3..], E1, R1, Point(0.5, 0.0));
  }

  /** The leftward ray from the right edge crosses only the left edge, at (0, 0.5). */
  lemma RightHits()
    ensures HitCount(Edges, E2, R2) == 1
  {
    EdgesTails();
    IntersectAt(E0, R2, 0.5, 1.0);
    IntersectParallel(E1, R2);
    IntersectParallel(E3, R2);
    HitOne(Edges, E2, R2, Point(0.0, 0.5));
    HitParallel(Edges[1..], E2, R2);
    HitSkip(Edges[2..], E2, R2);
    HitParallel(Edges[3..], E2, R2);
  }

  /** The upward ray from the bottom edge crosses only the top edge, at (0.5, 1). */
  lemma BottomHits()
    ensures HitCount(Edges, E3, R3) == 1
  {
    EdgesTails();
    IntersectParallel(E0, R3);
    IntersectAt(E1, R3, 0.5, 1.0);
    IntersectParallel(E2, R3);
    HitParallel(Edges, E3, R3);
    HitOne(Edges[1..], E3, R3, Point(0.5, 1.0));
    HitParallel(Edges[2..], E3, R3);
    HitSkip(Edges[3..], E3, R3);
  }

  // ---------------------------------------------------------------------
  // Inward normals

  /** The only nonnegative root of d * d == 1 is 1. */
  lemma RootOfOne(d: real)
    requires d >= 0.0 && d * d == 1.0
    ensures d == 1.0
  {
    assert (d - 1.0) * (d + 1.0) == d * d - 1.0;
    CancelNonzero(d - 1.0, d + 1.0);
  }

  /** A unit direction keeps itself under normalization. */
  lemma UnitNormal(mag: V2 -> real, n: V2)
    requires IsMagnitude(mag) && MagnitudeSquared(n) == 1.0
    ensures Normalized(n, mag(n)) == n
  {
    MagnitudeOf(mag, n);
    RootOfOne(mag(n));
  }

  /** The inward normal of one edge, from its ray and crossing count. */
  lemma InwardsAt(mag: V2 -> real, edge: L2, ray: L2)
    requires IsMagnitude(mag)
    requires Along(RayK, Midpoint(edge), Cross(edge.v)) == Some(ray)
    requires HitCount(Edges, edge, ray) == 1 && MagnitudeSquared(ray.v) == 1.0
    ensures Inwards(Square, edge, mag) == Some(ray.v)
  {
    SquareSegments();
    InwardRayOdd(Square, edge, ray, Edges);
    UnitNormal(mag, ray.v);
    InwardsOfRay(Square, edge, mag, ray, ray.v);
  }

  lemma LeftRay()
    ensures Along(RayK, Midpoint(E0), Cross(E0.v)) == Some(R0)
  {
    AlongKeeps(RayK, R0.p, R0.v);
  }

  /** The left edge's inward normal points right. */
  lemma LeftNormal(mag: V2 -> real)
    requires IsMagnitude(mag)
    ensures Inwards(Square, E0, mag) == Some(N0)
  {
    LeftRay();
    LeftHits();
    InwardsAt(mag, E0, R0);
  }

  lemma TopRay()
    ensures Along(RayK, Midpoint(E1), Cross(E1.v)) == Some(R1)
  {
    AlongKeeps(RayK, R1.p, R1.v);
  }

  /** The top edge's inward normal points down. */
  lemma TopNormal(mag: V2 -> real)
    requires IsMagnitude(mag)
    ensures Inwards(Square, E1, mag) == Some(N1)
  {
    TopRay();
    TopHits();
    InwardsAt(mag, E1, R1);
  }

  lemma RightRay()
    ensures Along(RayK, Midpoint(E2), Cross(E2.v)) == Some(R2)
  {
    AlongKeeps(RayK, R2.p, R2.v);
  }

  /** The right edge's inward normal points left. */
  lemma RightNormal(mag: V2 -> real)
    requires IsMagnitude(mag)
    ensures Inwards(Square, E2, mag) == Some(N2)
  {
    RightRay();
    RightHits();
    InwardsAt(mag, E2, R2);
  }

  lemma BottomRay()
    ensures Along(RayK, Midpoint(E3), Cross(E3.v)) == Some(R3)
  {
    AlongKeeps(RayK, R3.p, R3.v);
  }

  /** The bottom edge's inward normal points up. */
  lemma BottomNormal(mag: V2 -> real)
    requires IsMagnitude(mag)
    ensures Inwards(Square, E3, mag) == Some(N3)
  {
    BottomRay();
    BottomHits();
    InwardsAt(mag, E3, R3);
  }

  /** One more edge with a known inward normal. */
  lemma InwardsNextAt(poly: Polygon, lines: seq<L2>, mag: V2 -> real, k: nat, s: seq<V2>, l: L2, n: V2)
    requires IsMagnitude(mag) && k < |lines| && InwardsUpTo(poly, lines, mag, k) == Some(s)
    requires lines[k] == l && Inwards(poly, l, mag) == Some(n)
    ensures InwardsUpTo(poly, lines, mag, k + 1) == Some(s + [n])
  {
  }

  lemma InwardsFirstTwo(poly: Polygon, lines: seq<L2>, mag: V2 -> real, l0: L2, l1: L2, n0: V2, n1: V2)
    requires IsMagnitude(mag) && |lines| == 4 && lines[0] == l0 && lines[1] == l1
    requires Inwards(poly, l0, mag) == Some(n0) && Inwards(poly, l1, mag) == Some(n1)
    ensures InwardsUpTo(poly, lines, mag, 2) == Some([n0, n1])
  {
    var none: seq<V2> := [];
    InwardsNextAt(poly, lines, mag, 0, none, l0, n0);
    assert none + [n0] == [n0];
    InwardsNextAt(poly, lines, mag, 1, [n0], l1, n1);
    assert [n0] + [n1] == [n0, n1];
  }

  lemma InwardsLastTwo(poly: Polygon, lines: seq<L2>, mag: V2 -> real, l2: L2, l3: L2, n0: V2, n1: V2, n2: V2, n3: V2)
    requires IsMagnitude(mag) && |lines| == 4 && lines[2] == l2 && lines[3] == l3
    requires InwardsUpTo(poly, lines, mag, 2) == Some([n0, n1])
    requires Inwards(poly, l2, mag) == Some(n2) && Inwards(poly, l3, mag) == Some(n3)
    ensures InwardsUpTo(poly, lines, mag, 4) == Some([n0, n1, n2, n3])
  {
    InwardsNextAt(poly, lines, mag, 2, [n0, n1], l2, n2);
    assert [n0, n1] + [n2] == [n0, n1, n2];
    InwardsNextAt(poly, lines, mag, 3, [n0, n1, n2], l3, n3);
    assert [n0, n1, n2] + [n3] == [n0, n1, n2, n3];
  }

  /** The normals point into the square: right, down, left, up. */
  lemma SquareNormals(mag: V2 -> real)
    requires IsMagnitude(mag)
    ensures InwardsUpTo(Square, Edges, mag, 4) == Some(Normals)
  {
    LeftNormal(mag);
    TopNormal(mag);
    InwardsFirstTwo(Square, Edges, mag, E0, E1, N0, N1);
    RightNormal(mag);
    BottomNormal(mag);
    InwardsLastTwo(Square, Edges, mag, E2, E3, N0, N1, N2, N3);
  }

  // ---------------------------------------------------------------------
  // Which edges survive

  /**
   * KeepEdge once its corner rays, their meeting point and the motion are
   * known: the squared gap over the squared motion against the squared
   * amount.
   */
  lemma KeepAt(l: L2, ai: V2, n: V2, bi: V2, a2: real, ra: L2, rb: L2, i: V2, motion: V2, ratio: real)
    requires Along(RayK, l.p, Bisector(ai, n)) == Some(ra)
    requires Along(RayK, P2(l), Bisector(bi, n)) == Some(rb)
    requires Intersect(rb, ra) == Some(i)
    requires Magnitude(l.v, n, ra.v) == Some(motion) && MagnitudeSquared(motion) != 0.0
    requires MagnitudeSquared(Vector(i.x - ra.p.x, i.y - ra.p.y)) / MagnitudeSquared(motion) == ratio
    ensures KeepEdge(l, ai, n, bi, a2) == Some(ratio > a2)
  {
  }

  /** The rays along the two corner bisectors of an edge, from its two ends. */
  lemma CornerRays(l: L2, ai: V2, n: V2, bi: V2, ra: L2, rb: L2)
    requires l.p.kind == PointKind && ra == L2(RayK, l.p, Bisector(ai, n)) && rb == L2(RayK, P2(l), Bisector(bi, n))
    requires ra.v.kind == VectorKind && !IsZero(ra.v) && rb.v.kind == VectorKind && !IsZero(rb.v) && rb.p.kind == PointKind
    ensures Along(RayK, l.p, Bisector(ai, n)) == Some(ra)
    ensures Along(RayK, P2(l), Bisector(bi, n)) == Some(rb)
  {
    AlongKeeps(RayK, ra.p, ra.v);
    AlongKeeps(RayK, rb.p, rb.v);
  }

  /** Two diagonal rays of the square meeting half-way along each, at the centre. */
  lemma QuarterRatio(gx: real, gy: real, mx: real, my: real)
    requires gx * gx == 0.25 && gy * gy == 0.25 && mx * mx == 1.0 && my * my == 1.0
    ensures MagnitudeSquared(Vector(gx, gy)) / MagnitudeSquared(Vector(mx, my)) == 0.25
  {
  }

  /** Where the corner rays of the left edge: its corner rays start at (0, 0) and (0, 1) meet: the centre. */
  lemma LeftMeet()
    ensures Intersect(L2(RayK, Point(0.0, 1.0), Vector(1.0, -1.0)), L2(RayK, Point(0.0, 0.0), Vector(1.0, 1.0))) == Some(Point(0.5, 0.5))
  {
    IntersectAt(L2(RayK, Point(0.0, 1.0), Vector(1.0, -1.0)), L2(RayK, Point(0.0, 0.0), Vector(1.0, 1.0)), 0.5, 0.5);
  }

  lemma LeftRatio()
    ensures MagnitudeSquared(Vector(0.5 - 0.0, 0.5 - 0.0)) / MagnitudeSquared(Vector(1.0, 1.0)) == 0.25
  {
    QuarterRatio(0.5 - 0.0, 0.5 - 0.0, 1.0, 1.0);
  }

  lemma KeepLeft(a2: real)
    ensures KeepEdge(E0, N3, N0, N1, a2) == Some(0.25 > a2)
  {
    CornerRays(E0, N3, N0, N1, L2(RayK, Point(0.0, 0.0), Vector(1.0, 1.0)), L2(RayK, Point(0.0, 1.0), Vector(1.0, -1.0)));
    LeftMeet();
    MotionLeft();
    LeftRatio();
    KeepAt(E0, N3, N0, N1, a2, L2(RayK, Point(0.0, 0.0), Vector(1.0, 1.0)), L2(RayK, Point(0.0, 1.0), Vector(1.0, -1.0)), Point(0.5, 0.5), Vector(1.0, 1.0), 0.25);
  }

  /** Where the corner rays of the top edge: its corner rays start at (0, 1) and (1, 1) meet: the centre. */
  lemma TopMeet()
    ensures Intersect(L2(RayK, Point(1.0, 1.0), Vector(-1.0, -1.0)), L2(RayK, Point(0.0, 1.0), Vector(1.0, -1.0))) == Some(Point(0.5, 0.5))
  {
    IntersectAt(L2(RayK, Point(1.0, 1.0), Vector(-1.0, -1.0)), L2(RayK, Point(0.0, 1.0), Vector(1.0, -1.0)), 0.5, 0.5);
  }

  lemma TopRatio()
    ensures MagnitudeSquared(Vector(0.5 - 0.0, 0.5 - 1.0)) / MagnitudeSquared(Vector(1.0, -1.0)) == 0.25
  {
    QuarterRatio(0.5 - 0.0, 0.5 - 1.0, 1.0, -1.0);
  }

  lemma KeepTop(a2: real)
    ensures KeepEdge(E1, N0, N1, N2, a2) == Some(0.25 > a2)
  {
    CornerRays(E1, N0, N1, N2, L2(RayK, Point(0.0, 1.0), Vector(1.0, -1.0)), L2(RayK, Point(1.0, 1.0), Vector(-1.0, -1.0)));
    TopMeet();
    MotionTop();
    TopRatio();
    KeepAt(E1, N0, N1, N2, a2, L2(RayK, Point(0.0, 1.0), Vector(1.0, -1.0)), L2(RayK, Point(1.0, 1.0), Vector(-1.0, -1.0)), Point(0.5, 0.5), Vector(1.0, -1.0), 0.25);
  }

  /** Where the corner rays of the right edge: its corner rays start at (1, 1) and (1, 0) meet: the centre. */
  lemma RightMeet()
    ensures Intersect(L2(RayK, Point(1.0, 0.0), Vector(-1.0, 1.0)), L2(RayK, Point(1.0, 1.0), Vector(-1.0, -1.0))) == Some(Point(0.5, 0.5))
  {
    IntersectAt(L2(RayK, Point(1.0, 0.0), Vector(-1.0, 1.0)), L2(RayK, Point(1.0, 1.0), Vector(-1.0, -1.0)), 0.5, 0.5);
  }

  lemma RightRatio()
    ensures MagnitudeSquared(Vector(0.5 - 1.0, 0.5 - 1.0)) / MagnitudeSquared(Vector(-1.0, -1.0)) == 0.25
  {
    QuarterRatio(0.5 - 1.0, 0.5 - 1.0, -1.0, -1.0);
  }

  lemma KeepRight(a2: real)
    ensures KeepEdge(E2, N1, N2, N3, a2) == Some(0.25 > a2)
  {
    CornerRays(E2, N1, N2, N3, L2(RayK, Point(1.0, 1.0), Vector(-1.0, -1.0)), L2(RayK, Point(1.0, 0.0), Vector(-1.0, 1.0)));
    RightMeet();
    MotionRight();
    RightRatio();
    KeepAt(E2, N1, N2, N3, a2, L2(RayK, Point(1.0, 1.0), Vector(-1.0, -1.0)), L2(RayK, Point(1.0, 0.0), Vector(-1.0, 1.0)), Point(0.5, 0.5), Vector(-1.0, -1.0), 0.25);
  }

  /** Where the corner rays of the bottom edge: its corner rays start at (1, 0) and (0, 0) meet: the centre. */
  lemma BottomMeet()
    ensures Intersect(L2(RayK, Point(0.0, 0.0), Vector(1.0, 1.0)), L2(RayK, Point(1.0, 0.0), Vector(-1.0, 1.0))) == Some(Point(0.5, 0.5))
  {
    IntersectAt(L2(RayK, Point(0.0, 0.0), Vector(1.0, 1.0)), L2(RayK, Point(1.0, 0.0), Vector(-1.0, 1.0)), 0.5, 0.5);
  }

  lemma BottomRatio()
    ensures MagnitudeSquared(Vector(0.5 - 1.0, 0.5 - 0.0)) / MagnitudeSquared(Vector(-1.0, 1.0)) == 0.25
  {
    QuarterRatio(0.5 - 1.0, 0.5 - 0.0, -1.0, 1.0);
  }

  lemma KeepBottom(a2: real)
    ensures KeepEdge(E3, N2, N3, N0, a2) == Some(0.25 > a2)
  {
    CornerRays(E3, N2, N3, N0, L2(RayK, Point(1.0, 0.0), Vector(-1.0, 1.0)), L2(RayK, Point(0.0, 0.0), Vector(1.0, 1.0)));
    BottomMeet();
    MotionBottom();
    BottomRatio();
    KeepAt(E3, N2, N3, N0, a2, L2(RayK, Point(1.0, 0.0), Vector(-1.0, 1.0)), L2(RayK, Point(0.0, 0.0), Vector(1.0, 1.0)), Point(0.5, 0.5), Vector(-1.0, 1.0), 0.25);
  }

  /** The kept (edge, normal) pairs when all four edges survive. */
  const Kept: seq<(L2, V2)> := [(E0, N0), (E1, N1), (E2, N2), (E3, N3)]

  /** One more edge with a known verdict: the remnant grows by it when it survives. */
  lemma RemnantNextAt(lines: seq<L2>, inw: seq<V2>, a2: real, i: nat, r: seq<(L2, V2)>, keep: bool, l: L2, ai: V2, n: V2, bi: V2)
    requires |inw| == |lines| && i < |lines| && RemnantUpTo(lines, inw, a2, i) == Some(r)
    requires lines[i] == l && inw[Prev(i, |lines|)] == ai && inw[i] == n && inw[Next(i, |lines|)] == bi
    requires KeepEdge(l, ai, n, bi, a2) == Some(keep)
    ensures RemnantUpTo(lines, inw, a2, i + 1) == Some(if keep then r + [(l, n)] else r)
  {
    RemnantStep(lines, inw, a2, i, r);
  }

  /** The verdicts on the first two of four edges, the same for both. */
  lemma RemnantFirstTwo(lines: seq<L2>, inw: seq<V2>, a2: real, keep: bool, l0: L2, l1: L2, n0: V2, n1: V2, n2: V2, n3: V2)
    requires |lines| == 4 && lines[0] == l0 && lines[1] == l1 && inw == [n0, n1, n2, n3]
    requires KeepEdge(l0, n3, n0, n1, a2) == Some(keep) && KeepEdge(l1, n0, n1, n2, a2) == Some(keep)
    ensures RemnantUpTo(lines, inw, a2, 2) == Some(if keep then [(l0, n0), (l1, n1)] else [])
  {
    var none: seq<(L2, V2)> := [];
    assert Prev(0, 4) == 3 && Next(0, 4) == 1;
    RemnantNextAt(lines, inw, a2, 0, none, keep, l0, n3, n0, n1);
    assert none + [(l0, n0)] == [(l0, n0)];
    assert Prev(1, 4) == 0 && Next(1, 4) == 2;
    RemnantNextAt(lines, inw, a2, 1, if keep then [(l0, n0)] else none, keep, l1, n0, n1, n2);
    assert [(l0, n0)] + [(l1, n1)] == [(l0, n0), (l1, n1)];
  }

  /** The third verdict, the same as the first two. */
  lemma RemnantThird(lines: seq<L2>, inw: seq<V2>, a2: real, keep: bool, l0: L2, l1: L2, l2: L2, n0: V2, n1: V2, n2: V2, n3: V2)
    requires |lines| == 4 && lines[2] == l2 && inw == [n0, n1, n2, n3]
    requires RemnantUpTo(lines, inw, a2, 2) == Some(if keep then [(l0, n0), (l1, n1)] else [])
    requires KeepEdge(l2, n1, n2, n3, a2) == Some(keep)
    ensures RemnantUpTo(lines, inw, a2, 3) == Some(if keep then [(l0, n0), (l1, n1), (l2, n2)] else [])
  {
    var none: seq<(L2, V2)> := [];
    assert Prev(2, 4) == 1 && Next(2, 4) == 3;
    RemnantNextAt(lines, inw, a2, 2, if keep then [(l0, n0), (l1, n1)] else none, keep, l2, n1, n2, n3);
    assert [(l0, n0), (l1, n1)] + [(l2, n2)] == [(l0, n0), (l1, n1), (l2, n2)];
  }

  /** The fourth verdict, the same as the first three. */
  lemma RemnantFourth(lines: seq<L2>, inw: seq<V2>, a2: real, keep: bool, l0: L2, l1: L2, l2: L2, l3: L2,
                      n0: V2, n1: V2, n2: V2, n3: V2)
    requires |lines| == 4 && lines[3] == l3 && inw == [n0, n1, n2, n3]
    requires RemnantUpTo(lines, inw, a2, 3) == Some(if keep then [(l0, n0), (l1, n1), (l2, n2)] else [])
    requires KeepEdge(l3, n2, n3, n0, a2) == Some(keep)
    ensures RemnantUpTo(lines, inw, a2, 4) == Some(if keep then [(l0, n0), (l1, n1), (l2, n2), (l3, n3)] else [])
  {
    var none: seq<(L2, V2)> := [];
    assert Prev(3, 4) == 2 && Next(3, 4) == 0;
    RemnantNextAt(lines, inw, a2, 3, if keep then [(l0, n0), (l1, n1), (l2, n2)] else none, keep, l3, n2, n3, n0);
    assert [(l0, n0), (l1, n1), (l2, n2)] + [(l3, n3)] == [(l0, n0), (l1, n1), (l2, n2), (l3, n3)];
  }

  /** Four edges that all get the same verdict: all of them survive or none does. */
  lemma RemnantOfFour(lines: seq<L2>, inw: seq<V2>, a2: real, keep: bool,
                      l0: L2, l1: L2, l2: L2, l3: L2, n0: V2, n1: V2, n2: V2, n3: V2)
    requires lines == [l0, l1, l2, l3] && inw == [n0, n1, n2, n3]
    requires KeepEdge(l0, n3, n0, n1, a2) == Some(keep) && KeepEdge(l1, n0, n1, n2, a2) == Some(keep)
    requires KeepEdge(l2, n1, n2, n3, a2) == Some(keep) && KeepEdge(l3, n2, n3, n0, a2) == Some(keep)
    ensures RemnantUpTo(lines, inw, a2, 4) == Some(if keep then [(l0, n0), (l1, n1), (l2, n2), (l3, n3)] else [])
  {
    RemnantFirstTwo(lines, inw, a2, keep, l0, l1, n0, n1, n2, n3);
    RemnantThird(lines, inw, a2, keep, l0, l1, l2, n0, n1, n2, n3);
    RemnantFourth(lines, inw, a2, keep, l0, l1, l2, l3, n0, n1, n2, n3);
  }

  /** All four edges survive below a squared amount of 1/4, none from there on. */
  lemma SquareRemnant(a2: real)
    ensures RemnantUpTo(Edges, Normals, a2, 4) == Some(if 0.25 > a2 then Kept else [])
  {
    KeepLeft(a2);
    KeepTop(a2);
    KeepRight(a2);
    KeepBottom(a2);
    RemnantOfFour(Edges, Normals, a2, 0.25 > a2, E0, E1, E2, E3, N0, N1, N2, N3);
  }

  // ---------------------------------------------------------------------
  // The new corners

  /** Corner once the start and motion are known: start - amount * motion. */
  lemma CornerAt(a: (L2, V2), b: (L2, V2), amount: real, start: V2, motion: V2)
    requires CornerStart(a.0, b.0) == Some(start)
    requires Magnitude(b.0.v, b.1, Bisector(a.1, b.1)) == Some(motion)
    ensures Corner(a, b, amount) == Add(start, Planar(Scaled(motion, -amount)))
  {
  }

  /** Where the carriers of two consecutive edges meet: the old corner. */
  lemma StartAt(a: L2, b: L2, q: V2)
    requires a.p.kind == PointKind && a.v.kind == VectorKind && !IsZero(a.v)
    requires b.p.kind == PointKind && b.v.kind == VectorKind && !IsZero(b.v)
    requires Det(L2(LineK, b.p, b.v), L2(LineK, a.p, a.v)) != 0.0
    requires ParamA(L2(LineK, b.p, b.v), L2(LineK, a.p, a.v)) == 0.0 && q == b.p
    ensures CornerStart(a, b) == Some(q)
  {
    AlongKeeps(LineK, a.p, a.v);
    AlongKeeps(LineK, b.p, b.v);
    IntersectAt(L2(LineK, b.p, b.v), L2(LineK, a.p, a.v), 0.0, ParamB(L2(LineK, b.p, b.v), L2(LineK, a.p, a.v)));
  }

  /** The corner before the left edge: the bottom-left corner moves along (1, 1). */
  lemma CornerLeft(amount: real)
    ensures Corner((E3, N3), (E0, N0), amount) == Some(Point(-amount, -amount))
  {
    StartAt(E3, E0, Point(0.0, 0.0));
    MotionLeft();
    CornerAt((E3, N3), (E0, N0), amount, Point(0.0, 0.0), Vector(1.0, 1.0));
    ShiftLeft(amount);
  }

  lemma ShiftLeft(amount: real)
    ensures Add(Point(0.0, 0.0), Planar(Scaled(Vector(1.0, 1.0), -amount))) == Some(Point(-amount, -amount))
  {
    assert Add(Point(0.0, 0.0), Planar(Scaled(Vector(1.0, 1.0), -amount))).value == Point(-amount, -amount);
  }

  /** The corner before the top edge: the top-left corner moves along (1, -1). */
  lemma CornerTop(amount: real)
    ensures Corner((E0, N0), (E1, N1), amount) == Some(Point(-amount, 1.0 + amount))
  {
    StartAt(E0, E1, Point(0.0, 1.0));
    MotionTop();
    CornerAt((E0, N0), (E1, N1), amount, Point(0.0, 1.0), Vector(1.0, -1.0));
    ShiftTop(amount);
  }

  lemma ShiftTop(amount: real)
    ensures Add(Point(0.0, 1.0), Planar(Scaled(Vector(1.0, -1.0), -amount))) == Some(Point(-amount, 1.0 + amount))
  {
    assert Add(Point(0.0, 1.0), Planar(Scaled(Vector(1.0, -1.0), -amount))).value == Point(-amount, 1.0 + amount);
  }

  /** The corner before the right edge: the top-right corner moves along (-1, -1). */
  lemma CornerRight(amount: real)
    ensures Corner((E1, N1), (E2, N2), amount) == Some(Point(1.0 + amount, 1.0 + amount))
  {
    StartAt(E1, E2, Point(1.0, 1.0));
    MotionRight();
    CornerAt((E1, N1), (E2, N2), amount, Point(1.0, 1.0), Vector(-1.0, -1.0));
    ShiftRight(amount);
  }

  lemma ShiftRight(amount: real)
    ensures Add(Point(1.0, 1.0), Planar(Scaled(Vector(-1.0, -1.0), -amount))) == Some(Point(1.0 + amount, 1.0 + amount))
  {
    assert Add(Point(1.0, 1.0), Planar(Scaled(Vector(-1.0, -1.0), -amount))).value == Point(1.0 + amount, 1.0 + amount);
  }

  /** The corner before the bottom edge: the bottom-right corner moves along (-1, 1). */
  lemma CornerBottom(amount: real)
    ensures Corner((E2, N2), (E3, N3), amount) == Some(Point(1.0 + amount, -amount))
  {
    StartAt(E2, E3, Point(1.0, 0.0));
    MotionBottom();
    CornerAt((E2, N2), (E3, N3), amount, Point(1.0, 0.0), Vector(-1.0, 1.0));
    ShiftBottom(amount);
  }

  lemma ShiftBottom(amount: real)
    ensures Add(Point(1.0, 0.0), Planar(Scaled(Vector(-1.0, 1.0), -amount))) == Some(Point(1.0 + amount, -amount))
  {
    assert Add(Point(1.0, 0.0), Planar(Scaled(Vector(-1.0, 1.0), -amount))).value == Point(1.0 + amount, -amount);
  }

  /** The square's corners moved out by amount along the diagonals (in for a negative one). */
  function MovedCorners(amount: real): seq<V2> {
    [Point(-amount, -amount), Point(-amount, 1.0 + amount), Point(1.0 + amount, 1.0 + amount), Point(1.0 + amount, -amount)]
  }

  /** One more corner, known from its two edges. */
  lemma CornersAfter(rem: seq<(L2, V2)>, amount: real, j: nat, pts: seq<V2>, a: (L2, V2), b: (L2, V2), q: V2)
    requires j < |rem| && CornersUpTo(rem, amount, j) == Some(pts)
    requires rem[Prev(j, |rem|)] == a && rem[j] == b && Corner(a, b, amount) == Some(q)
    ensures CornersUpTo(rem, amount, j + 1) == Some(pts + [q])
  {
    CornersStep(rem, amount, j, pts);
  }

  /** Four corners, each known from its edge and the one before, make the corner list in order. */
  lemma CornersOfFour(rem: seq<(L2, V2)>, amount: real, c0: (L2, V2), c1: (L2, V2), c2: (L2, V2), c3: (L2, V2),
                      p0: V2, p1: V2, p2: V2, p3: V2)
    requires rem == [c0, c1, c2, c3]
    requires Corner(c3, c0, amount) == Some(p0) && Corner(c0, c1, amount) == Some(p1)
    requires Corner(c1, c2, amount) == Some(p2) && Corner(c2, c3, amount) == Some(p3)
    ensures CornersUpTo(rem, amount, 4) == Some([p0, p1, p2, p3])
  {
    CornersFirstTwo(rem, amount, c0, c1, c3, p0, p1);
    CornersThird(rem, amount, c0, c1, c2, c3, p0, p1, p2);
    CornersFourth(rem, amount, c0, c1, c2, c3, p0, p1, p2, p3);
  }

  lemma CornersFirstTwo(rem: seq<(L2, V2)>, amount: real, c0: (L2, V2), c1: (L2, V2), c3: (L2, V2), p0: V2, p1: V2)
    requires |rem| == 4 && rem[0] == c0 && rem[1] == c1 && rem[3] == c3
    requires Corner(c3, c0, amount) == Some(p0) && Corner(c0, c1, amount) == Some(p1)
    ensures CornersUpTo(rem, amount, 2) == Some([p0, p1])
  {
    var none: seq<V2> := [];
    CornersAfter(rem, amount, 0, none, c3, c0, p0);
    assert none + [p0] == [p0];
    CornersAfter(rem, amount, 1, [p0], c0, c1, p1);
    assert [p0] + [p1] == [p0, p1];
  }

  lemma CornersThird(rem: seq<(L2, V2)>, amount: real, c0: (L2, V2), c1: (L2, V2), c2: (L2, V2), c3: (L2, V2),
                     p0: V2, p1: V2, p2: V2)
    requires rem == [c0, c1, c2, c3] && CornersUpTo(rem, amount, 2) == Some([p0, p1])
    requires Corner(c1, c2, amount) == Some(p2)
    ensures CornersUpTo(rem, amount, 3) == Some([p0, p1, p2])
  {
    CornersAfter(rem, amount, 2, [p0, p1], c1, c2, p2);
    assert [p0, p1] + [p2] == [p0, p1, p2];
  }

  lemma CornersFourth(rem: seq<(L2, V2)>, amount: real, c0: (L2, V2), c1: (L2, V2), c2: (L2, V2), c3: (L2, V2),
                      p0: V2, p1: V2, p2: V2, p3: V2)
    requires rem == [c0, c1, c2, c3] && CornersUpTo(rem, amount, 3) == Some([p0, p1, p2])
    requires Corner(c2, c3, amount) == Some(p3)
    ensures CornersUpTo(rem, amount, 4) == Some([p0, p1, p2, p3])
  {
    CornersAfter(rem, amount, 3, [p0, p1, p2], c2, c3, p3);
    assert [p0, p1, p2] + [p3] == [p0, p1, p2, p3];
  }

  /** The corners of the square moved out by amount (in for a negative one). */
  lemma SquareCorners(amount: real)
    ensures CornersUpTo(Kept, amount, 4) == Some(MovedCorners(amount))
  {
    CornerLeft(amount);
    CornerTop(amount);
    CornerRight(amount);
    CornerBottom(amount);
    CornersOfFour(Kept, amount, (E0, N0), (E1, N1), (E2, N2), (E3, N3),
                  Point(-amount, -amount), Point(-amount, 1.0 + amount), Point(1.0 + amount, 1.0 + amount), Point(1.0 + amount, -amount));
  }

  // ---------------------------------------------------------------------
  // The offset of the square

  /** The remnant of a polygon whose normals and surviving edges are known. */
  lemma RemnantOf(poly: Polygon, amount: real, mag: V2 -> real, lines: seq<L2>, inw: seq<V2>, r: seq<(L2, V2)>)
    requires IsMagnitude(mag) && Segments(poly) == lines && |lines| > 0
    requires InwardsUpTo(poly, lines, mag, |lines|) == Some(inw)
    requires RemnantUpTo(lines, inw, amount * amount, |lines|) == Some(r)
    ensures Remnant(poly, amount, mag) == Some(r)
  {
  }

  /** A non-empty remnant whose corners are known gives the polygon through them. */
  lemma OffsetShape(poly: Polygon, amount: real, mag: V2 -> real, rem: seq<(L2, V2)>, pts: seq<V2>)
    requires IsMagnitude(mag) && Remnant(poly, amount, mag) == Some(rem) && |rem| > 0
    requires CornersUpTo(rem, amount, |rem|) == Some(pts)
    ensures OffsetSpec(poly, amount, mag) == Shape(Polygon(pts))
  {
  }

  /** An empty remnant leaves no polygon. */
  lemma OffsetVanishes(poly: Polygon, amount: real, mag: V2 -> real)
    requires IsMagnitude(mag) && Remnant(poly, amount, mag) == Some([])
    ensures OffsetSpec(poly, amount, mag) == NoPolygon
  {
  }

  /**
   * The unit square offset by any amount: below |amount| = 1/2 every corner
   * moves by -amount along its bisector (inwards for a negative amount),
   * from there on no polygon is left.
   */
  lemma SquareOffset(amount: real, mag: V2 -> real)
    requires IsMagnitude(mag)
    ensures amount * amount < 0.25 ==>
      OffsetSpec(Square, amount, mag) == Shape(Polygon(MovedCorners(amount)))
    ensures amount * amount >= 0.25 ==> OffsetSpec(Square, amount, mag) == NoPolygon
  {
    SquareSegments();
    SquareNormals(mag);
    var a2 := amount * amount;
    SquareRemnant(a2);
    if 0.25 > a2 {
      RemnantOf(Square, amount, mag, Edges, Normals, Kept);
      SquareCorners(amount);
      OffsetShape(Square, amount, mag, Kept, MovedCorners(amount));
    } else {
      RemnantOf(Square, amount, mag, Edges, Normals, []);
      OffsetVanishes(Square, amount, mag);
    }
  }

  /** The corners for an offset of -0.1. */
  lemma InsetCorners(amount: real)
    requires amount == -0.1
    ensures amount * amount < 0.25
    ensures MovedCorners(amount) == [Point(0.1, 0.1), Point(0.1, 0.9), Point(0.9, 0.9), Point(0.9, 0.1)]
  {
  }

  /** The corners for an offset of 0.1. */
  lemma OutsetCorners(amount: real)
    requires amount == 0.1
    ensures amount * amount < 0.25
    ensures MovedCorners(amount) == [Point(-0.1, -0.1), Point(-0.1, 1.1), Point(1.1, 1.1), Point(1.1, -0.1)]
  {
  }

  /** An offset of 10 is past the collapse. */
  lemma CollapseAmount(amount: real)
    requires amount == 10.0
    ensures amount * amount >= 0.25
  {
  }

  /** `square.offset(-0.1)` moves every edge 0.1 inwards. */
  lemma SquareInsetExample(amount: real, mag: V2 -> real)
    requires IsMagnitude(mag) && amount == -0.1
    ensures OffsetSpec(Square, amount, mag) ==
      Shape(Polygon([Point(0.1, 0.1), Point(0.1, 0.9), Point(0.9, 0.9), Point(0.9, 0.1)]))
  {
    InsetCorners(amount);
    SquareOffset(amount, mag);
  }

  /** `square.offset(0.1)` moves every edge 0.1 outwards. */
  lemma SquareOutsetExample(amount: real, mag: V2 -> real)
    requires IsMagnitude(mag) && amount == 0.1
    ensures OffsetSpec(Square, amount, mag) ==
      Shape(Polygon([Point(-0.1, -0.1), Point(-0.1, 1.1), Point(1.1, 1.1), Point(1.1, -0.1)]))
  {
    OutsetCorners(amount);
    SquareOffset(amount, mag);
  }

  /** `square.offset(10) is None`: every edge collapses. */
  lemma SquareCollapseExample(amount: real, mag: V2 -> real)
    requires IsMagnitude(mag) && amount == 10.0
    ensures OffsetSpec(Square, amount, mag) == NoPolygon
  {
    CollapseAmount(amount);
    SquareOffset(amount, mag);
  }
}
