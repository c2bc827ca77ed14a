/**
 * Edge treatments (petrify/edge.py): the inset of a polygon edge along an
 * inward direction, computed with the Gaussian solver, and the face lookup
 * that the chamfer starts from.
 */
module Edge {
  import opened Wrappers
  import opened SpacePoint
  import opened SpaceShapes
  import Solver
  import PlanePoint
  import PlaneLine

  // ---------------------------------------------------------------------
  // edge_inset

  /** The 3 x 4 augmented system whose columns are a, b, c and right-hand side d. */
  function Columns(a: V3, b: V3, c: V3, d: V3): (M: Solver.Matrix)
    ensures Solver.Augmented(M) && |M| == 3
  {
    [[a.x, b.x, c.x, d.x], [a.y, b.y, c.y, d.y], [a.z, b.z, c.z, d.z]]
  }

  /**
   * The system of `edge_inset`: the columns are edge, -lateral and -normal,
   * the right-hand side is inwards, with lateral = inwards x normal.
   */
  function InsetSystem(edge: V3, inwards: V3, normal: V3): (M: Solver.Matrix)
    ensures Solver.Augmented(M) && |M| == 3
  {
    Columns(edge, Neg(Cross(inwards, normal)), Neg(normal), inwards)
  }

  /** The solved weights (w, u, v), or zeros when the system is singular. */
  function InsetWeights(edge: V3, inwards: V3, normal: V3): (s: seq<real>)
    ensures |s| == 3
  {
    match Solver.Solve(InsetSystem(edge, inwards, normal))
    case None => Solver.Zeros(3)
    case Some(x) => x
  }

  /**
   * `edge_inset(edge, inwards, normal)`: solve
   * w edge - u lateral - v normal = inwards and return w edge. The
   * ZeroDivisionError of a singular system is not caught here (None).
   */
  function EdgeInset(edge: V3, inwards: V3, normal: V3): Option<V3> {
    match Solver.Solve(InsetSystem(edge, inwards, normal))
    case None => None
    case Some(x) => Mul(edge, Num(x[0]))
  }

  /**
   * Row i = [e, -l, -n, d] of a 3 x 4 system that s solves, rearranged:
   * e s0 == d + s1 l + s2 n.
   */
  lemma SolvedRow(M: Solver.Matrix, s: seq<real>, i: int, e: real, l: real, n: real, d: real)
    requires Solver.Augmented(M) && |M| == 3
    requires Solver.Solves(M, s)
    requires 0 <= i < 3
    requires M[i] == [e, -l, -n, d]
    ensures e * s[0] == d + s[1] * l + s[2] * n
  {
    assert Solver.Sum(M[i], s, 0, 3) == 1.0 * M[i][3];
    Solver.Sum3(M[i], s);
    Rearranged(e, l, n, d, s[0], s[1], s[2]);
  }

  /** `edge_inset` raises only when edge, lateral and normal are linearly dependent (a nonzero kernel vector). */
  lemma EdgeInsetFails(edge: V3, inwards: V3, normal: V3)
    requires EdgeInset(edge, inwards, normal).None?
    ensures Solver.Singular(InsetSystem(edge, inwards, normal))
  {
    Solver.SolveNoneSingular(InsetSystem(edge, inwards, normal));
  }

  /** The inset is the edge scaled by the solved weight w, in the edge's class. */
  lemma ScaledInset(edge: V3, inwards: V3, normal: V3, r: V3, w: real)
    requires EdgeInset(edge, inwards, normal) == Some(r)
    requires w == InsetWeights(edge, inwards, normal)[0]
    ensures r == V3(edge.kind, edge.x * w, edge.y * w, edge.z * w)
  {
    assert Some(r) == Mul(edge, Num(InsetWeights(edge, inwards, normal)[0]));
  }

  /**
   * The solved weights (w, u, v) of `edge_inset` meet where the system was
   * built to meet: w edge == inwards + u lateral + v normal, with
   * lateral = inwards x normal.
   */
  lemma EdgeInsetProperties(edge: V3, inwards: V3, normal: V3, s: seq<real>, lat: V3)
    requires Solver.Solve(InsetSystem(edge, inwards, normal)) == Some(s)
    requires lat == Cross(inwards, normal)
    ensures edge.x * s[0] == inwards.x + s[1] * lat.x + s[2] * normal.x
    ensures edge.y * s[0] == inwards.y + s[1] * lat.y + s[2] * normal.y
    ensures edge.z * s[0] == inwards.z + s[1] * lat.z + s[2] * normal.z
  {
    Solver.SolveSound(InsetSystem(edge, inwards, normal), s);
    InsetBalanced(edge, inwards, normal, s, lat);
  }

  /** A solution of the inset system, rearranged axis by axis. */
  lemma InsetBalanced(edge: V3, inwards: V3, normal: V3, s: seq<real>, lat: V3)
    requires Solver.Solves(InsetSystem(edge, inwards, normal), s)
    requires lat == Cross(inwards, normal)
    ensures edge.x * s[0] == inwards.x + s[1] * lat.x + s[2] * normal.x
    ensures edge.y * s[0] == inwards.y + s[1] * lat.y + s[2] * normal.y
    ensures edge.z * s[0] == inwards.z + s[1] * lat.z + s[2] * normal.z
  {
    var M := InsetSystem(edge, inwards, normal);
    SolvedRow(M, s, 0, edge.x, lat.x, normal.x, inwards.x);
    SolvedRow(M, s, 1, edge.y, lat.y, normal.y, inwards.y);
    SolvedRow(M, s, 2, edge.z, lat.z, normal.z, inwards.z);
  }

  /** One row of the system, solved for the inset coordinate e w. */
  lemma Rearranged(e: real, l: real, n: real, i: real, w: real, u: real, v: real)
    requires e * w + (-l) * u + (-n) * v == i
    ensures e * w == i + u * l + v * n
  {
  }

  /**
   * When the system has a single solution that is known, the inset is that
   * solution's multiple of the edge: the shape of both unit-test cases.
   */
  lemma EdgeInsetUnique(edge: V3, inwards: V3, normal: V3, w: real)
    requires forall s: seq<real>, t: real {:trigger Solver.Balanced(InsetSystem(edge, inwards, normal), s, t)} ::
      |s| == 3 && Solver.Balanced(InsetSystem(edge, inwards, normal), s, t) ==> s[0] == w * t && (t == 0.0 ==> s == Solver.Zeros(3))
    ensures EdgeInset(edge, inwards, normal) == Mul(edge, Num(w))
  {
    var M := InsetSystem(edge, inwards, normal);
    if Solver.Solve(M).None? {
      Solver.SolveNoneSingular(M);
      assert false;
    }
    var x := Solver.Solve(M).value;
    assert x[0] == w by {
      Solver.SolveSound(M, x);
      assert Solver.Balanced(M, x, 1.0);
    }
    assert EdgeInset(edge, inwards, normal) == Mul(edge, Num(x[0]));
  }

  /** Row i = [p, q, r, w] of a balanced 3 x 4 system: p s0 + q s1 + r s2 == t w. */
  lemma BalancedRow(M: Solver.Matrix, s: seq<real>, t: real, i: int, p: real, q: real, r: real, w: real)
    requires Solver.Augmented(M) && |M| == 3
    requires Solver.Balanced(M, s, t)
    requires 0 <= i < 3
    requires M[i] == [p, q, r, w]
    ensures p * s[0] + q * s[1] + r * s[2] == t * w
  {
    assert Solver.Sum(M[i], s, 0, 3) == t * M[i][3];
    Solver.Sum3(M[i], s);
  }

  /** First unit test: edge (1, 0, 0), inwards (0.1, 0, 0) in the xy plane give (0.1, 0, 0). */
  lemma EdgeInsetAxisExample(edge: V3, inwards: V3, normal: V3)
    requires edge.kind == PlanePoint.VectorKind && edge.x == 1.0 && edge.y == 0.0 && edge.z == 0.0
    requires inwards.x == 0.1 && inwards.y == 0.0 && inwards.z == 0.0
    requires normal.x == 0.0 && normal.y == 0.0 && normal.z == 1.0
    ensures EdgeInset(edge, inwards, normal) == Some(Vector(0.1, 0.0, 0.0))
  {
    AxisSystemUnique(edge, inwards, normal);
    EdgeInsetUnique(edge, inwards, normal, 0.1);
  }

  /** The first test's system pins the weight of the edge to 0.1. */
  lemma AxisSystemUnique(edge: V3, inwards: V3, normal: V3)
    requires edge.kind == PlanePoint.VectorKind && edge.x == 1.0 && edge.y == 0.0 && edge.z == 0.0
    requires inwards.x == 0.1 && inwards.y == 0.0 && inwards.z == 0.0
    requires normal.x == 0.0 && normal.y == 0.0 && normal.z == 1.0
    ensures forall s: seq<real>, t: real {:trigger Solver.Balanced(InsetSystem(edge, inwards, normal), s, t)} ::
      |s| == 3 && Solver.Balanced(InsetSystem(edge, inwards, normal), s, t) ==> s[0] == 0.1 * t && (t == 0.0 ==> s == Solver.Zeros(3))
  {
    var M := InsetSystem(edge, inwards, normal);
    forall s: seq<real>, t: real | |s| == 3 && Solver.Balanced(M, s, t)
      ensures s[0] == 0.1 * t && (t == 0.0 ==> s == Solver.Zeros(3))
    {
      BalancedRow(M, s, t, 0, 1.0, 0.0, 0.0, 0.1);
      BalancedRow(M, s, t, 1, 0.0, 0.1, 0.0, 0.0);
      BalancedRow(M, s, t, 2, 0.0, 0.0, -1.0, 0.0);
    }
  }

  /** Second unit test: edge (1, -1, 0), inwards (0.5, 0, 0) in the xy plane give (0.5, -0.5, 0). */
  lemma EdgeInsetDiagonalExample(edge: V3, inwards: V3, normal: V3)
    requires edge.kind == PlanePoint.VectorKind && edge.x == 1.0 && edge.y == -1.0 && edge.z == 0.0
    requires inwards.x == 0.5 && inwards.y == 0.0 && inwards.z == 0.0
    requires normal.x == 0.0 && normal.y == 0.0 && normal.z == 1.0
    ensures EdgeInset(edge, inwards, normal) == Some(Vector(0.5, -0.5, 0.0))
  {
    assert Mul(edge, Num(0.5)) == Some(Vector(0.5, -0.5, 0.0));
    DiagonalSystemUnique(edge, inwards, normal);
    EdgeInsetUnique(edge, inwards, normal, 0.5);
  }

  /** The second test's system pins the weight of the edge to 0.5. */
  lemma DiagonalSystemUnique(edge: V3, inwards: V3, normal: V3)
    requires edge.kind == PlanePoint.VectorKind && edge.x == 1.0 && edge.y == -1.0 && edge.z == 0.0
    requires inwards.x == 0.5 && inwards.y == 0.0 && inwards.z == 0.0
    requires normal.x == 0.0 && normal.y == 0.0 && normal.z == 1.0
    ensures forall s: seq<real>, t: real {:trigger Solver.Balanced(InsetSystem(edge, inwards, normal), s, t)} ::
      |s| == 3 && Solver.Balanced(InsetSystem(edge, inwards, normal), s, t) ==> s[0] == 0.5 * t && (t == 0.0 ==> s == Solver.Zeros(3))
  {
    var M := InsetSystem(edge, inwards, normal);
    forall s: seq<real>, t: real | |s| == 3 && Solver.Balanced(M, s, t)
      ensures s[0] == 0.5 * t && (t == 0.0 ==> s == Solver.Zeros(3))
    {
      BalancedRow(M, s, t, 0, 1.0, 0.0, 0.0, 0.5);
      BalancedRow(M, s, t, 1, -1.0, 0.5, 0.0, 0.0);
      BalancedRow(M, s, t, 2, 0.0, 0.0, -1.0, 0.0);
    }
  }

  // ---------------------------------------------------------------------
  // polygon_inset

  /**
   * A segment of the polygon that touches the point q and is not the edge
   * itself in either direction (`l.touches(q) and l != edge`).
   */
  predicate Adjacent(l: L3, q: V3, edge: L3)
    requires edge.kind == PlaneLine.SegmentK
  {
    l.kind == PlaneLine.SegmentK && HasEndpoint(l, q) && SegmentEq(l, TLine(edge)) == Some(false)
  }

  /** The list comprehension that collects the segments adjacent at q, in order. */
  function Touching(segs: seq<L3>, q: V3, edge: L3): (r: seq<L3>)
    requires edge.kind == PlaneLine.SegmentK
    ensures |r| <= |segs|
    ensures forall l :: l in r <==> l in segs && Adjacent(l, q, edge)
  {
    if segs == [] then []
    else (if Adjacent(segs[0], q, edge) then [segs[0]] else []) + Touching(segs[1..], q, edge)
  }

  /** `a - b` for two 3-D values: a Vector3 for two points. */
  function Minus(a: V3, b: V3): (r: V3)
    ensures Sub(a, Spatial(b)) == Some(r)
  {
    V3(PlanePoint.SumKind(a.kind, b.kind), a.x - b.x, a.y - b.y, a.z - b.z)
  }

  /** `a + b` for two 3-D values: a Point3 for a point and a vector. */
  function Plus(a: V3, b: V3): (r: V3)
    ensures Add(a, Spatial(b)) == Some(r)
  {
    V3(PlanePoint.SumKind(a.kind, b.kind), a.x + b.x, a.y + b.y, a.z + b.z)
  }

  /**
   * `polygon_inset(polygon, edge, inwards)`, with the polygon's plane normal
   * passed in. The single segment before the edge (touching its start) and
   * the single one after it (touching its end) give the directions along
   * which the two ends slide; the result runs from the moved end back to the
   * moved start. None stands for a polygon with no segments, a tuple unpack
   * that does not find exactly one neighbour (ValueError) and a singular
   * inset system.
   */
  function PolygonInset(poly: Polygon3, edge: L3, inwards: V3, normal: V3): Option<L3>
    requires edge.kind == PlaneLine.SegmentK
  {
    match Segments(poly)
    case None => None
    case Some(segs) =>
      var before := Touching(segs, edge.p, edge);
      var after := Touching(segs, P2(edge), edge);
      if |before| != 1 || |after| != 1 then None
      else MovedEdge(edge, Minus(P2(edge), P2(after[0])), Minus(edge.p, before[0].p), inwards, normal)
  }

  /**
   * The reversed edge whose end moves by the inset of direction d and whose
   * start moves by the inset of direction e.
   */
  function MovedEdge(edge: L3, d: V3, e: V3, inwards: V3, normal: V3): Option<L3> {
    match (EdgeInset(d, inwards, normal), EdgeInset(e, inwards, normal))
    case (Some(afterInset), Some(beforeInset)) =>
      Through(PlaneLine.SegmentK, Plus(P2(edge), afterInset), Plus(edge.p, beforeInset))
    case _ => None
  }

  /**
   * An inset exists only when the polygon has segments and each end of the
   * edge has exactly one other segment touching it.
   */
  lemma PolygonInsetNeighbours(poly: Polygon3, edge: L3, inwards: V3, normal: V3)
    requires edge.kind == PlaneLine.SegmentK
    requires PolygonInset(poly, edge, inwards, normal).Some?
    ensures Segments(poly).Some?
    ensures |Touching(Segments(poly).value, edge.p, edge)| == 1
    ensures |Touching(Segments(poly).value, P2(edge), edge)| == 1
  {
  }

  /**
   * The inset is the reversed edge with both ends moved along their
   * neighbouring segments: the new start is the old end plus w d, d the
   * direction from the next segment's far end to the edge's end, and the new
   * far end is the old start plus w' e, e the direction from the previous
   * segment's start to the edge's start, for the solved weights w, w'.
   */
  lemma PolygonInsetEnds(poly: Polygon3, edge: L3, inwards: V3, normal: V3, r: L3, d: V3, e: V3, w: real, w': real)
    requires edge.kind == PlaneLine.SegmentK
    requires edge.p.kind == PlanePoint.PointKind
    requires Segments(poly).Some?
    requires |Touching(Segments(poly).value, edge.p, edge)| == 1
    requires |Touching(Segments(poly).value, P2(edge), edge)| == 1
    requires d == Minus(P2(edge), P2(Touching(Segments(poly).value, P2(edge), edge)[0]))
    requires e == Minus(edge.p, Touching(Segments(poly).value, edge.p, edge)[0].p)
    requires w == InsetWeights(d, inwards, normal)[0]
    requires w' == InsetWeights(e, inwards, normal)[0]
    requires PolygonInset(poly, edge, inwards, normal) == Some(r)
    ensures r.kind == PlaneLine.SegmentK
    ensures r.p == Point(P2(edge).x + d.x * w, P2(edge).y + d.y * w, P2(edge).z + d.z * w)
    ensures P2(r) == Point(edge.p.x + e.x * w', edge.p.y + e.y * w', edge.p.z + e.z * w')
  {
    var segs := Segments(poly).value;
    var before := Touching(segs, edge.p, edge)[0];
    assert before in segs;
    var i :| 0 <= i < |segs| && segs[i] == before;
    SegmentsJoinNeighbours(poly);
    assert e.kind == PlanePoint.VectorKind;
    assert MovedEdge(edge, d, e, inwards, normal) == Some(r);
    MovedEdgeEnds(edge, d, e, inwards, normal, r, w, w');
  }

  /** MovedEdge places the new start at end + w d and the new far end at start + w' e. */
  lemma MovedEdgeEnds(edge: L3, d: V3, e: V3, inwards: V3, normal: V3, r: L3, w: real, w': real)
    requires edge.p.kind == PlanePoint.PointKind
    requires d.kind == PlanePoint.VectorKind
    requires e.kind == PlanePoint.VectorKind
    requires w == InsetWeights(d, inwards, normal)[0]
    requires w' == InsetWeights(e, inwards, normal)[0]
    requires MovedEdge(edge, d, e, inwards, normal) == Some(r)
    ensures r.kind == PlaneLine.SegmentK
    ensures r.p == Point(P2(edge).x + d.x * w, P2(edge).y + d.y * w, P2(edge).z + d.z * w)
    ensures P2(r) == Point(edge.p.x + e.x * w', edge.p.y + e.y * w', edge.p.z + e.z * w')
  {
    var a := EdgeInset(d, inwards, normal).value;
    var b := EdgeInset(e, inwards, normal).value;
    ScaledInset(d, inwards, normal, a, w);
    ScaledInset(e, inwards, normal, b, w');
    MovedEnds(edge, a, b, r);
  }

  /** The reversed edge through end + a and start + b. */
  lemma MovedEnds(edge: L3, a: V3, b: V3, r: L3)
    requires edge.p.kind == PlanePoint.PointKind
    requires a.kind == PlanePoint.VectorKind
    requires b.kind == PlanePoint.VectorKind
    requires Through(PlaneLine.SegmentK, Plus(P2(edge), a), Plus(edge.p, b)) == Some(r)
    ensures r.kind == PlaneLine.SegmentK
    ensures r.p == Point(P2(edge).x + a.x, P2(edge).y + a.y, P2(edge).z + a.z)
    ensures P2(r) == Point(edge.p.x + b.x, edge.p.y + b.y, edge.p.z + b.z)
  {
    ThroughEnds(Plus(P2(edge), a), Plus(edge.p, b), r);
  }

  /** A segment through two points starts at the first and ends at the second. */
  lemma ThroughEnds(a: V3, b: V3, r: L3)
    requires b.kind == PlanePoint.PointKind
    requires Through(PlaneLine.SegmentK, a, b) == Some(r)
    ensures r.kind == PlaneLine.SegmentK
    ensures r.p == a
    ensures P2(r) == b
  {
  }

  /** A second segment touching either end makes the unpack fail. */
  lemma PolygonInsetNeedsOneNeighbour(poly: Polygon3, edge: L3, inwards: V3, normal: V3)
    requires edge.kind == PlaneLine.SegmentK && Segments(poly).Some?
    requires |Touching(Segments(poly).value, edge.p, edge)| != 1 || |Touching(Segments(poly).value, P2(edge), edge)| != 1
    ensures PolygonInset(poly, edge, inwards, normal).None?
  {
  }

  // ---------------------------------------------------------------------
  // Chamfer

  /**
   * The faces of `Chamfer(solid, edge, amount)`: the polygons that have the
   * edge, in order. `has_edge` raises for an edge that is not a segment and
   * for a polygon with no segments (None).
   */
  function Faces(polys: seq<Polygon3>, edge: Thing): (r: Option<seq<Polygon3>>)
    ensures r.None? <==> exists p :: p in polys && HasEdge(p, edge).None?
    ensures r.Some? ==> forall p :: p in r.value <==> p in polys && HasEdge(p, edge) == Some(true)
    ensures r.Some? ==> |r.value| <= |polys|
  {
    if polys == [] then Some([])
    else
      match (HasEdge(polys[0], edge), Faces(polys[1..], edge))
      case (Some(b), Some(rest)) => Some((if b then [polys[0]] else []) + rest)
      case _ => None
  }

  /**
   * The assertion at the top of `Chamfer`: exactly two faces carry the edge;
   * any other count is an AssertionError (None).
   */
  function ChamferFaces(polys: seq<Polygon3>, edge: Thing): (r: Option<(Polygon3, Polygon3)>)
    ensures r.Some? ==> Faces(polys, edge).Some? && Faces(polys, edge).value == [r.value.0, r.value.1]
    ensures r.None? ==> Faces(polys, edge).None? || |Faces(polys, edge).value| != 2
  {
    match Faces(polys, edge)
    case Some(fs) => if |fs| == 2 then Some((fs[0], fs[1])) else None
    case None => None
  }

  /** The segments of a face equal to the edge, in either direction, in order. */
  function Matching(segs: seq<L3>, edge: L3): (r: seq<L3>)
    requires edge.kind == PlaneLine.SegmentK
    ensures |r| <= |segs|
    ensures forall l :: l in r <==> l in segs && l.kind == PlaneLine.SegmentK && SegmentEq(l, TLine(edge)) == Some(true)
  {
    if segs == [] then []
    else
      (if segs[0].kind == PlaneLine.SegmentK && SegmentEq(segs[0], TLine(edge)) == Some(true) then [segs[0]] else [])
      + Matching(segs[1..], edge)
  }

  /**
   * `a_edge, = [l for l in a.segments() if l == edge]`: the face's own copy
   * of the edge, with the face's orientation; the unpack fails (None) unless
   * exactly one segment matches.
   */
  function FaceEdge(face: Polygon3, edge: L3): Option<L3>
    requires edge.kind == PlaneLine.SegmentK
  {
    match Segments(face)
    case None => None
    case Some(segs) =>
      var m := Matching(segs, edge);
      if |m| == 1 then Some(m[0]) else None
  }

  /** The face's copy is one of its segments and equals the edge up to direction. */
  lemma FaceEdgeProperties(face: Polygon3, edge: L3)
    requires edge.kind == PlaneLine.SegmentK
    requires FaceEdge(face, edge).Some?
    ensures Segments(face).Some? && FaceEdge(face, edge).value in Segments(face).value
    ensures FaceEdge(face, edge).value.kind == PlaneLine.SegmentK
    ensures SegmentEq(FaceEdge(face, edge).value, TLine(edge)) == Some(true)
  {
    var m := Matching(Segments(face).value, edge);
    assert m[0] in m;
  }

  /**
   * The five polygons of the chamfer, from the two faces' copies of the edge
   * and their insets: two inset quads, the cut between the insets and two
   * triangular end caps.
   */
  function ChamferPolygons(aEdge: L3, bEdge: L3, aInset: L3, bInset: L3): (r: seq<Polygon3>)
    ensures |r| == 5
  {
    [Polygon3([aEdge.p, P2(aEdge), aInset.p, P2(aInset)]),
     Polygon3([bEdge.p, P2(bEdge), bInset.p, P2(bInset)]),
     Polygon3([P2(aInset), aInset.p, P2(bInset), bInset.p]),
     Polygon3([aInset.p, P2(aEdge), P2(bInset)]),
     Polygon3([aEdge.p, P2(aInset), bInset.p])]
  }

  /** `insets`: the first two polygons. */
  function Insets(polys: seq<Polygon3>): (r: seq<Polygon3>)
    requires |polys| >= 2
    ensures |r| == 2
  {
    polys[0..2]
  }

  /** `endcaps`: every polygon after the cut. */
  function Endcaps(polys: seq<Polygon3>): (r: seq<Polygon3>)
    requires |polys| >= 3
    ensures |r| == |polys| - 3
  {
    polys[3..]
  }

  /**
   * The chamfer adds no new vertex: every corner of its polygons is an end
   * of a face's edge or of an inset. The insets are quads on each face's
   * edge and the end caps are triangles.
   */
  lemma ChamferPolygonsProperties(aEdge: L3, bEdge: L3, aInset: L3, bInset: L3)
    ensures var r := ChamferPolygons(aEdge, bEdge, aInset, bInset);
      (forall i, j :: 0 <= i < |r| && 0 <= j < |r[i].points| ==>
        r[i].points[j] in {aEdge.p, P2(aEdge), bEdge.p, P2(bEdge), aInset.p, P2(aInset), bInset.p, P2(bInset)}) &&
      Insets(r)[0].points[..2] == [aEdge.p, P2(aEdge)] &&
      Insets(r)[1].points[..2] == [bEdge.p, P2(bEdge)] &&
      |Insets(r)[0].points| == 4 && |Insets(r)[1].points| == 4 &&
      |Endcaps(r)| == 2 && |Endcaps(r)[0].points| == 3 && |Endcaps(r)[1].points| == 3
  {
  }
}
