/**
 * The two `polygon_inset` unit tests (tests/test_edge.py): an edge of a
 * four-sided polygon in the xy plane is moved inwards, each end sliding
 * along its neighbouring segment.
 */
module EdgeExamples {
  import opened Wrappers
  import opened SpacePoint
  import opened SpaceShapes
  import opened Edge
  import Solver
  import PlanePoint
  import PlaneLine

  /** The segment from (x, y, z) along (dx, dy, dz). */
  function Seg(x: real, y: real, z: real, dx: real, dy: real, dz: real): L3 {
    L3(PlaneLine.SegmentK, Point(x, y, z), Vector(dx, dy, dz))
  }

  /** x k == y k with k nonzero gives x == y. */
  lemma Cancel(x: real, y: real, k: real)
    requires k != 0.0 && x * k == y * k
    ensures x == y
  {
    assert (x - y) * k == 0.0;
  }

  lemma ProductNonzero(x: real, y: real)
    requires x != 0.0 && y != 0.0
    ensures x * y != 0.0
  {
    if x * y == 0.0 {
      Cancel(x, 0.0, y);
    }
  }

  /**
   * In the xy plane, with the inward direction along y and the normal
   * along z, the inset system pins the weight of the edge to w, the factor
   * that gives the edge the inward y component.
   */
  lemma PlanarSystemUnique(edge: V3, inwards: V3, normal: V3, w: real)
    requires edge.z == 0.0 && edge.y != 0.0
    requires inwards.x == 0.0 && inwards.z == 0.0 && inwards.y != 0.0
    requires normal.x == 0.0 && normal.y == 0.0 && normal.z != 0.0
    requires w * edge.y == inwards.y
    ensures forall s: seq<real>, t: real {:trigger Solver.Balanced(InsetSystem(edge, inwards, normal), s, t)} ::
      |s| == 3 && Solver.Balanced(InsetSystem(edge, inwards, normal), s, t) ==> s[0] == w * t && (t == 0.0 ==> s == Solver.Zeros(3))
  {
    var M := InsetSystem(edge, inwards, normal);
    var a := inwards.y;
    var nz := normal.z;
    var lateral := Cross(inwards, normal);
    assert lateral.x == a * nz && lateral.y == 0.0 && lateral.z == 0.0;
    assert M[0] == [edge.x, -(a * nz), 0.0, 0.0];
    assert M[1] == [edge.y, 0.0, 0.0, a];
    assert M[2] == [0.0, 0.0, -nz, 0.0];
    forall s: seq<real>, t: real | |s| == 3 && Solver.Balanced(M, s, t)
      ensures s[0] == w * t && (t == 0.0 ==> s == Solver.Zeros(3))
    {
      BalancedRow(M, s, t, 0, edge.x, -(a * nz), 0.0, 0.0);
      BalancedRow(M, s, t, 1, edge.y, 0.0, 0.0, a);
      BalancedRow(M, s, t, 2, 0.0, 0.0, -nz, 0.0);
      PlanarSolution(edge.x, edge.y, a, nz, w, s[0], s[1], s[2], t);
      if t == 0.0 {
        assert s == [0.0, 0.0, 0.0] == Solver.Zeros(3);
      }
    }
  }

  /** The three row equations of the planar system, solved. */
  lemma PlanarSolution(ex: real, ey: real, a: real, nz: real, w: real, s0: real, s1: real, s2: real, t: real)
    requires ey != 0.0 && a != 0.0 && nz != 0.0 && w * ey == a
    requires ex * s0 + -(a * nz) * s1 + 0.0 * s2 == t * 0.0
    requires ey * s0 + 0.0 * s1 + 0.0 * s2 == t * a
    requires 0.0 * s0 + 0.0 * s1 + -nz * s2 == t * 0.0
    ensures s0 == w * t && s2 == 0.0
    ensures t == 0.0 ==> s0 == 0.0 && s1 == 0.0
  {
    assert s0 * ey == (w * t) * ey;
    Cancel(s0, w * t, ey);
    assert s2 * -nz == 0.0 * -nz;
    Cancel(s2, 0.0, -nz);
    if t == 0.0 {
      ProductNonzero(a, nz);
      assert s1 * -(a * nz) == 0.0 * -(a * nz);
      Cancel(s1, 0.0, -(a * nz));
    }
  }

  /** The inset of such an edge is the edge scaled by w. */
  lemma PlanarInset(edge: V3, inwards: V3, normal: V3, w: real)
    requires edge.z == 0.0 && edge.y != 0.0
    requires inwards.x == 0.0 && inwards.z == 0.0 && inwards.y != 0.0
    requires normal.x == 0.0 && normal.y == 0.0 && normal.z != 0.0
    requires w * edge.y == inwards.y
    ensures EdgeInset(edge, inwards, normal) == Some(V3(edge.kind, edge.x * w, edge.y * w, edge.z * w))
  {
    PlanarSystemUnique(edge, inwards, normal, w);
    EdgeInsetUnique(edge, inwards, normal, w);
    MulNum(edge, w);
  }

  lemma MulNum(u: V3, w: real)
    ensures Mul(u, Num(w)) == Some(V3(u.kind, u.x * w, u.y * w, u.z * w))
  {
    assert Mul(u, Num(w)).value == V3(u.kind, u.x * w, u.y * w, u.z * w);
  }

  /** The inset edge from the two neighbour directions and their insets. */
  lemma MovedEdgeAt(edge: L3, d: V3, e: V3, inwards: V3, normal: V3, a: V3, b: V3)
    requires EdgeInset(d, inwards, normal) == Some(a) && EdgeInset(e, inwards, normal) == Some(b)
    ensures MovedEdge(edge, d, e, inwards, normal) == Through(PlaneLine.SegmentK, Plus(P2(edge), a), Plus(edge.p, b))
  {
  }

  lemma PolygonInsetAt(poly: Polygon3, edge: L3, inwards: V3, normal: V3, segs: seq<L3>, before: L3, after: L3)
    requires edge.kind == PlaneLine.SegmentK
    requires Segments(poly) == Some(segs)
    requires Touching(segs, edge.p, edge) == [before]
    requires Touching(segs, P2(edge), edge) == [after]
    ensures PolygonInset(poly, edge, inwards, normal) ==
      MovedEdge(edge, Minus(P2(edge), P2(after)), Minus(edge.p, before.p), inwards, normal)
  {
  }

  lemma SegmentsAt(pts: seq<V3>, segs: seq<L3>)
    requires |pts| > 0 && AllPoints(pts) && |segs| == |pts|
    requires forall i :: 0 <= i < |pts| ==> segs[i] == Link(pts[i], pts[(i + 1) % |pts|])
    ensures Segments(Polygon3(pts)) == Some(segs)
  {
    var links := Segments(Polygon3(pts)).value;
    assert |links| == |segs|;
    forall i | 0 <= i < |segs|
      ensures links[i] == segs[i]
    {
    }
    assert links == segs;
  }

  /** One step of Touching: the head is kept exactly when it is adjacent. */
  lemma TouchingStep(segs: seq<L3>, q: V3, edge: L3, hit: bool)
    requires edge.kind == PlaneLine.SegmentK
    requires |segs| > 0 && (Adjacent(segs[0], q, edge) <==> hit)
    ensures Touching(segs, q, edge) == (if hit then [segs[0]] else []) + Touching(segs[1..], q, edge)
  {
  }

  /** No segment adjacent: nothing is collected. */
  lemma TouchingNone(segs: seq<L3>, q: V3, edge: L3)
    requires edge.kind == PlaneLine.SegmentK
    requires forall i :: 0 <= i < |segs| ==> !Adjacent(segs[i], q, edge)
    ensures Touching(segs, q, edge) == []
  {
    var r := Touching(segs, q, edge);
    assert forall l :: l !in r;
  }

  /** Exactly the k-th segment adjacent: it alone is collected. */
  lemma {:induction false} TouchingOnly(segs: seq<L3>, q: V3, edge: L3, k: nat)
    requires edge.kind == PlaneLine.SegmentK
    requires k < |segs|
    requires forall i :: 0 <= i < |segs| ==> (Adjacent(segs[i], q, edge) <==> i == k)
    ensures Touching(segs, q, edge) == [segs[k]]
    decreases k
  {
    if k == 0 {
      TouchingStep(segs, q, edge, true);
      TouchingNone(segs[1..], q, edge);
    } else {
      TouchingStep(segs, q, edge, false);
      TouchingOnly(segs[1..], q, edge, k - 1);
    }
  }

  // ---------------------------------------------------------------------
  // test_polygon_inset

  const Bowl: seq<V3> := [Point(1.0, 3.0, 0.0), Point(2.0, 2.0, 0.0), Point(3.0, 2.0, 0.0), Point(4.0, 3.0, 0.0)]

  /** The segments of Bowl; the edge to inset is B1. */
  const B0 := Seg(1.0, 3.0, 0.0, 1.0, -1.0, 0.0)
  const B1 := Seg(2.0, 2.0, 0.0, 1.0, 0.0, 0.0)
  const B2 := Seg(3.0, 2.0, 0.0, 1.0, 1.0, 0.0)
  const B3 := Seg(4.0, 3.0, 0.0, -3.0, 0.0, 0.0)
  const BowlSegs: seq<L3> := [B0, B1, B2, B3]

  lemma BowlSegments()
    ensures Segments(Polygon3(Bowl)) == Some(BowlSegs)
  {
    SegmentsAt(Bowl, BowlSegs);
  }

  lemma BowlBefore()
    ensures Touching(BowlSegs, B1.p, B1) == [B0]
  {
    TouchingOnly(BowlSegs, B1.p, B1, 0);
  }

  lemma BowlAfter()
    ensures Touching(BowlSegs, P2(B1), B1) == [B2]
  {
    TouchingOnly(BowlSegs, P2(B1), B1, 2);
  }

  lemma BowlInsetShape(poly: Polygon3, edge: L3, inwards: V3, normal: V3)
    requires poly == Polygon3(Bowl) && edge == B1
    ensures PolygonInset(poly, edge, inwards, normal) ==
      MovedEdge(edge, Vector(-1.0, -1.0, 0.0), Vector(1.0, -1.0, 0.0), inwards, normal)
  {
    BowlSegments();
    BowlBefore();
    BowlAfter();
    PolygonInsetAt(poly, edge, inwards, normal, BowlSegs, B0, B2);
  }

  lemma BowlInset(poly: Polygon3, edge: L3, inwards: V3, normal: V3)
    requires poly == Polygon3(Bowl) && edge == B1
    requires inwards == Vector(0.0, 0.5, 0.0) && normal == Vector(0.0, 0.0, 1.0)
    ensures PolygonInset(poly, edge, inwards, normal) == Some(Link(Point(3.5, 2.5, 0.0), Point(1.5, 2.5, 0.0)))
  {
    BowlInsetShape(poly, edge, inwards, normal);
    PlanarInset(Vector(-1.0, -1.0, 0.0), inwards, normal, -0.5);
    PlanarInset(Vector(1.0, -1.0, 0.0), inwards, normal, -0.5);
    MovedEdgeAt(edge, Vector(-1.0, -1.0, 0.0), Vector(1.0, -1.0, 0.0), inwards, normal, Vector(0.5, 0.5, 0.0), Vector(-0.5, 0.5, 0.0));
  }

  /**
   * The polygon (1, 3), (2, 2), (3, 2), (4, 3) in the plane z = 0, whose
   * plane normal (from its first three points) is (0, 0, 1): the edge from
   * (2, 2) to (3, 2) moved by (0, 0.5, 0) becomes the segment from
   * (3.5, 2.5) back to (1.5, 2.5).
   */
  lemma PolygonInsetExample()
    ensures PolygonInset(Polygon3(Bowl), B1, Vector(0.0, 0.5, 0.0), Vector(0.0, 0.0, 1.0)) ==
      Some(Link(Point(3.5, 2.5, 0.0), Point(1.5, 2.5, 0.0)))
  {
    BowlInset(Polygon3(Bowl), B1, Vector(0.0, 0.5, 0.0), Vector(0.0, 0.0, 1.0));
  }

  // ---------------------------------------------------------------------
  // test_polygon_inset_cut_a

  const Square: seq<V3> := [Point(0.0, 0.0, 0.0), Point(0.0, 1.0, 0.0), Point(1.0, 1.0, 0.0), Point(1.0, 0.0, 0.0)]

  /** The segments of Square; the edge to inset is Q3, from the last point back to the first. */
  const Q0 := Seg(0.0, 0.0, 0.0, 0.0, 1.0, 0.0)
  const Q1 := Seg(0.0, 1.0, 0.0, 1.0, 0.0, 0.0)
  const Q2 := Seg(1.0, 1.0, 0.0, 0.0, -1.0, 0.0)
  const Q3 := Seg(1.0, 0.0, 0.0, -1.0, 0.0, 0.0)
  const SquareSegs: seq<L3> := [Q0, Q1, Q2, Q3]

  lemma SquareSegments()
    ensures Segments(Polygon3(Square)) == Some(SquareSegs)
  {
    SegmentsAt(Square, SquareSegs);
  }

  lemma SquareBefore()
    ensures Touching(SquareSegs, Q3.p, Q3) == [Q2]
  {
    TouchingOnly(SquareSegs, Q3.p, Q3, 2);
  }

  lemma SquareAfter()
    ensures Touching(SquareSegs, P2(Q3), Q3) == [Q0]
  {
    TouchingOnly(SquareSegs, P2(Q3), Q3, 0);
  }

  lemma SquareInsetShape(poly: Polygon3, edge: L3, inwards: V3, normal: V3)
    requires poly == Polygon3(Square) && edge == Q3
    ensures PolygonInset(poly, edge, inwards, normal) ==
      MovedEdge(edge, Vector(0.0, -1.0, 0.0), Vector(0.0, -1.0, 0.0), inwards, normal)
  {
    SquareSegments();
    SquareBefore();
    SquareAfter();
    PolygonInsetAt(poly, edge, inwards, normal, SquareSegs, Q2, Q0);
    SquareAfterDirection();
    SquareBeforeDirection();
  }

  lemma SquareEdgeEnd()
    ensures P2(Q3) == Point(0.0, 0.0, 0.0)
  {
  }

  lemma SquareFirstEnd()
    ensures P2(Q0) == Point(0.0, 1.0, 0.0)
  {
  }

  lemma SquareAfterDirection()
    ensures Minus(P2(Q3), P2(Q0)) == Vector(0.0, -1.0, 0.0)
  {
    SquareEdgeEnd();
    SquareFirstEnd();
  }

  lemma SquareBeforeDirection()
    ensures Minus(Q3.p, Q2.p) == Vector(0.0, -1.0, 0.0)
  {
  }

  lemma SquareEdgeInset()
    ensures EdgeInset(Vector(0.0, -1.0, 0.0), Vector(0.0, 0.1, 0.0), Vector(0.0, 0.0, -1.0)) == Some(Vector(0.0, 0.1, 0.0))
  {
    PlanarInset(Vector(0.0, -1.0, 0.0), Vector(0.0, 0.1, 0.0), Vector(0.0, 0.0, -1.0), -0.1);
  }

  /** A point moved by h along y. */
  lemma PlusUp(p: V3, h: real)
    requires p.kind == PlanePoint.PointKind
    ensures Plus(p, Vector(0.0, h, 0.0)) == Point(p.x, p.y + h, p.z)
  {
  }

  lemma SquareMoved(h: real)
    ensures Through(PlaneLine.SegmentK, Plus(P2(Q3), Vector(0.0, h, 0.0)), Plus(Q3.p, Vector(0.0, h, 0.0))) ==
      Some(Link(Point(0.0, h, 0.0), Point(1.0, h, 0.0)))
  {
    SquareEdgeEnd();
    PlusUp(P2(Q3), h);
    PlusUp(Q3.p, h);
  }

  lemma SquareInset(poly: Polygon3, edge: L3, inwards: V3, normal: V3)
    requires poly == Polygon3(Square) && edge == Q3
    requires inwards == Vector(0.0, 0.1, 0.0) && normal == Vector(0.0, 0.0, -1.0)
    ensures PolygonInset(poly, edge, inwards, normal) == Some(Link(Point(0.0, 0.1, 0.0), Point(1.0, 0.1, 0.0)))
  {
    SquareInsetShape(poly, edge, inwards, normal);
    SquareEdgeInset();
    MovedEdgeAt(edge, Vector(0.0, -1.0, 0.0), Vector(0.0, -1.0, 0.0), inwards, normal, Vector(0.0, 0.1, 0.0), Vector(0.0, 0.1, 0.0));
    SquareMoved(0.1);
  }

  /**
   * The unit square in the plane z = 0 listed clockwise, whose plane normal
   * is (0, 0, -1): the bottom edge, from (1, 0) back to (0, 0), moved by
   * (0, 0.1, 0) becomes the segment from (0, 0.1) to (1, 0.1).
   */
  lemma PolygonInsetCutExample()
    ensures PolygonInset(Polygon3(Square), Q3, Vector(0.0, 0.1, 0.0), Vector(0.0, 0.0, -1.0)) ==
      Some(Link(Point(0.0, 0.1, 0.0), Point(1.0, 0.1, 0.0)))
  {
    SquareInset(Polygon3(Square), Q3, Vector(0.0, 0.1, 0.0), Vector(0.0, 0.0, -1.0));
  }
}
