/**
 * The naive edge offset of a simple polygon (petrify/plane.py,
 * `Polygon2.inwards` and `Polygon2.offset`): every edge moves along its
 * inward normal, edges whose corner bisectors meet within the offset
 * distance are dropped, and consecutive surviving edge lines are
 * intersected to give the new corners.
 */
module PlaneOffset {
  import opened Wrappers
  import opened PlanePoint
  import opened PlaneLine
  import opened PlaneUtil
  import opened PlanePolygon
  import Solver

  /** The magnitude `abs(v)`, a square root, comes in as a parameter. */
  ghost predicate IsMagnitude(mag: V2 -> real) {
    forall w :: mag(w) >= 0.0 && mag(w) * mag(w) == MagnitudeSquared(w)
  }

  lemma MagnitudeOf(mag: V2 -> real, w: V2)
    requires IsMagnitude(mag)
    ensures mag(w) >= 0.0 && mag(w) * mag(w) == MagnitudeSquared(w)
  {
  }

  /** `(edge.p1 + edge.p2) / 2` as a point. */
  function Midpoint(edge: L2): V2 {
    Point((edge.p.x + P2(edge).x) / 2.0, (edge.p.y + P2(edge).y) / 2.0)
  }

  /** Two points are equal as the point class compares them: by coordinates. */
  predicate SameXY(a: V2, b: V2) {
    a.x == b.x && a.y == b.y
  }

  /**
   * The number of segments other than `edge` that the ray meets anywhere
   * but at their own far end p2.
   */
  function HitCount(segs: seq<L2>, edge: L2, ray: L2): nat {
    if |segs| == 0 then 0
    else
      var l := segs[0];
      var i := Intersect(l, ray);
      (if !LineEq(l, edge) && i.Some? && !SameXY(i.value, P2(l)) then 1 else 0) + HitCount(segs[1..], edge, ray)
  }

  /**
   * The ray of `inwards(edge)`: the perpendicular `edge.v.cross()` from the
   * midpoint, kept when it crosses the boundary an odd number of times and
   * reversed otherwise. A zero edge gives a ray the constructor refuses
   * (None).
   */
  function InwardRay(poly: Polygon, edge: L2): Option<L2> {
    match Along(RayK, Midpoint(edge), Cross(edge.v))
    case None => None
    case Some(ray) => if HitCount(Segments(poly), edge, ray) % 2 == 1 then Some(ray) else Negate(ray)
  }

  /** `inwards(edge)`: the direction of the inward ray, normalized. */
  function Inwards(poly: Polygon, edge: L2, mag: V2 -> real): Option<V2>
    requires IsMagnitude(mag)
  {
    match InwardRay(poly, edge)
    case None => None
    case Some(r) => Some(Normalized(r.v, mag(r.v)))
  }

  /**
   * The local `magnitude(line, normal, inwards)`: solve
   * w inwards - u line = normal for (w, u) and return w inwards; a singular
   * system raises (None).
   */
  function Magnitude(line: V2, normal: V2, inw: V2): Option<V2> {
    match Solver.Solve(MagnitudeSystem(line, normal, inw))
    case None => None
    case Some(x) => Some(V2(inw.kind, inw.x * x[0], inw.y * x[0]))
  }

  /** The 2 x 3 augmented system [inwards, -line | normal]. */
  function MagnitudeSystem(line: V2, normal: V2, inw: V2): (M: Solver.Matrix)
    ensures Solver.Augmented(M) && |M| == 2
  {
    [[inw.x, -line.x, normal.x], [inw.y, -line.y, normal.y]]
  }

  /** The solved u of the magnitude system (0 when it is singular). */
  function MagnitudeParam(line: V2, normal: V2, inw: V2): real {
    match Solver.Solve(MagnitudeSystem(line, normal, inw))
    case None => 0.0
    case Some(x) => x[1]
  }

  /** The index before i, wrapping around at n. */
  function Prev(i: nat, n: nat): nat
    requires i < n
  {
    if i == 0 then n - 1 else i - 1
  }

  /** The inward normals of the first k segments; None when one of them raises. */
  function InwardsUpTo(poly: Polygon, lines: seq<L2>, mag: V2 -> real, k: nat): (r: Option<seq<V2>>)
    requires IsMagnitude(mag) && k <= |lines|
    ensures r.Some? ==> |r.value| == k
  {
    if k == 0 then Some([])
    else
      match InwardsUpTo(poly, lines, mag, k - 1)
      case None => None
      case Some(s) =>
        match Inwards(poly, lines[k - 1], mag)
        case None => None
        case Some(n) => Some(s + [n])
  }

  /**
   * Whether edge l (normal n, neighbours' normals ai and bi) survives:
   * the corner rays from p1 along ai + n and from p2 along bi + n must not
   * meet, or meet farther than the offset along the motion. None when a
   * ray, the solve or the division raises.
   */
  function KeepEdge(l: L2, ai: V2, n: V2, bi: V2, amountSquared: real): Option<bool> {
    var ra := Along(RayK, l.p, Bisector(ai, n));
    var rb := Along(RayK, P2(l), Bisector(bi, n));
    if ra.None? || rb.None? then None
    else
      var i := Intersect(rb.value, ra.value);
      match Magnitude(l.v, n, ra.value.v)
      case None => None
      case Some(motion) =>
        var m := MagnitudeSquared(motion);
        if i.None? then Some(true)
        else if m == 0.0 then None
        else
          var gap := Vector(i.value.x - ra.value.p.x, i.value.y - ra.value.p.y);
          Some(MagnitudeSquared(gap) / m > amountSquared)
  }

  /** The surviving (edge, normal) pairs among the first k edges. */
  function RemnantUpTo(lines: seq<L2>, inw: seq<V2>, amountSquared: real, k: nat): Option<seq<(L2, V2)>>
    requires |inw| == |lines| && k <= |lines|
  {
    if k == 0 then Some([])
    else
      match RemnantUpTo(lines, inw, amountSquared, k - 1)
      case None => None
      case Some(r) =>
        var i := k - 1;
        match KeepEdge(lines[i], inw[Prev(i, |lines|)], inw[i], inw[Next(i, |lines|)], amountSquared)
        case None => None
        case Some(keep) => Some(if keep then r + [(lines[i], inw[i])] else r)
  }

  /**
   * The corner between surviving edges a and b: where a's line meets b's
   * line, moved by -amount times the motion of b's normal toward the
   * bisector ai + bi. None when the lines are parallel (adding to None) or
   * the solve raises.
   */
  function Corner(a: (L2, V2), b: (L2, V2), amount: real): Option<V2> {
    match CornerStart(a.0, b.0)
    case None => None
    case Some(start) =>
      match Magnitude(b.0.v, b.1, Bisector(a.1, b.1))
      case None => None
      case Some(motion) => Add(start, Planar(Scaled(motion, -amount)))
  }

  /** `motion * k`: a vector scaled coordinate by coordinate, keeping its kind. */
  function Scaled(m: V2, k: real): V2 {
    V2(m.kind, m.x * k, m.y * k)
  }

  /** Where the carrier of edge a meets the carrier of edge b (the point on b's line). */
  function CornerStart(al: L2, bl: L2): Option<V2> {
    var la := Carrier(al);
    var lb := Carrier(bl);
    if la.None? || lb.None? then None else Intersect(lb.value, la.value)
  }

  /** `Line2(edge.p, edge.v)`: the unbounded carrier of an edge. */
  function Carrier(l: L2): Option<L2> {
    Along(LineK, l.p, l.v)
  }

  /** `ai + bi`, the sum of two neighbouring normals. */
  function Bisector(ai: V2, bi: V2): V2 {
    V2(SumKind(ai.kind, bi.kind), ai.x + bi.x, ai.y + bi.y)
  }

  /** The corners for the first k surviving edges, each with its predecessor. */
  function CornersUpTo(rem: seq<(L2, V2)>, amount: real, k: nat): (r: Option<seq<V2>>)
    requires k <= |rem|
    ensures r.Some? ==> |r.value| == k
  {
    if k == 0 then Some([])
    else
      match CornersUpTo(rem, amount, k - 1)
      case None => None
      case Some(pts) =>
        var j := k - 1;
        match Corner(rem[Prev(j, |rem|)], rem[j], amount)
        case None => None
        case Some(q) => Some(pts + [q])
  }

  /** What `offset` does: raise, return None, or return a polygon. */
  datatype Outcome = Failed | NoPolygon | Shape(poly: Polygon)

  /** The surviving edges; None when something raises on the way. */
  function Remnant(poly: Polygon, amount: real, mag: V2 -> real): Option<seq<(L2, V2)>>
    requires IsMagnitude(mag)
  {
    var lines := Segments(poly);
    if |lines| == 0 then None  // `inwards[-1]` of an empty list
    else
      match InwardsUpTo(poly, lines, mag, |lines|)
      case None => None
      case Some(inw) => RemnantUpTo(lines, inw, amount * amount, |lines|)
  }

  /** `offset(amount)` as a value. */
  function OffsetSpec(poly: Polygon, amount: real, mag: V2 -> real): Outcome
    requires IsMagnitude(mag)
  {
    match Remnant(poly, amount, mag)
    case None => Failed
    case Some(rem) =>
      if |rem| == 0 then NoPolygon
      else
        match CornersUpTo(rem, amount, |rem|)
        case None => Failed
        case Some(pts) => Shape(Polygon(pts))
  }

  /** The elimination loop of `offset`: collect the surviving (edge, normal) pairs. */
  method Eliminate(lines: seq<L2>, inw: seq<V2>, amountSquared: real) returns (r: Option<seq<(L2, V2)>>)
    requires |inw| == |lines|
    ensures r == RemnantUpTo(lines, inw, amountSquared, |lines|)
  {
    var remnant: seq<(L2, V2)> := [];
    var i := 0;
    while i < |lines|
      invariant i <= |lines|
      invariant RemnantUpTo(lines, inw, amountSquared, i) == Some(remnant)
    {
      var next := KeepOrDrop(lines, inw, amountSquared, i, remnant);
      if next.None? {
        RemnantFailsOnward(lines, inw, amountSquared, i + 1);
        return None;
      }
      remnant := next.value;
      i := i + 1;
    }
    r := Some(remnant);
  }

  /** One pass of the elimination loop: keep edge i when it survives. */
  method KeepOrDrop(lines: seq<L2>, inw: seq<V2>, amountSquared: real, i: nat, remnant: seq<(L2, V2)>)
    returns (next: Option<seq<(L2, V2)>>)
    requires |inw| == |lines| && i < |lines|
    requires RemnantUpTo(lines, inw, amountSquared, i) == Some(remnant)
    ensures next == RemnantUpTo(lines, inw, amountSquared, i + 1)
  {
    var keep := KeepEdge(lines[i], inw[Prev(i, |lines|)], inw[i], inw[Next(i, |lines|)], amountSquared);
    RemnantStep(lines, inw, amountSquared, i, remnant);
    if keep.None? {
      return None;
    }
    next := if keep.value then Some(remnant + [(lines[i], inw[i])]) else Some(remnant);
  }

  /** One more edge: the remnant grows by that edge when it survives, and fails when it raises. */
  lemma RemnantStep(lines: seq<L2>, inw: seq<V2>, amountSquared: real, i: nat, remnant: seq<(L2, V2)>)
    requires |inw| == |lines| && i < |lines|
    requires RemnantUpTo(lines, inw, amountSquared, i) == Some(remnant)
    ensures var keep := KeepEdge(lines[i], inw[Prev(i, |lines|)], inw[i], inw[Next(i, |lines|)], amountSquared);
      RemnantUpTo(lines, inw, amountSquared, i + 1) ==
        if keep.None? then None
        else if keep.value then Some(remnant + [(lines[i], inw[i])])
        else Some(remnant)
  {
  }

  /** Once an edge raises, the remnant stays None. */
  lemma {:induction false} RemnantFailsOnward(lines: seq<L2>, inw: seq<V2>, amountSquared: real, k: nat)
    requires |inw| == |lines| && 0 < k <= |lines|
    requires RemnantUpTo(lines, inw, amountSquared, k) == None
    ensures RemnantUpTo(lines, inw, amountSquared, |lines|) == None
    decreases |lines| - k
  {
    if k < |lines| {
      RemnantFailsOnward(lines, inw, amountSquared, k + 1);
    }
  }

  /** The corner loop of `offset`: one new point per surviving edge. */
  method Corners(rem: seq<(L2, V2)>, amount: real) returns (r: Option<seq<V2>>)
    ensures r == CornersUpTo(rem, amount, |rem|)
  {
    var points: seq<V2> := [];
    var j := 0;
    while j < |rem|
      invariant j <= |rem|
      invariant CornersUpTo(rem, amount, j) == Some(points)
    {
      var next := AddCorner(rem, amount, j, points);
      if next.None? {
        CornersFailOnward(rem, amount, j + 1);
        return None;
      }
      points := next.value;
      j := j + 1;
    }
    r := Some(points);
  }

  /** One pass of the corner loop: append the corner of edge j with its predecessor. */
  method AddCorner(rem: seq<(L2, V2)>, amount: real, j: nat, points: seq<V2>) returns (next: Option<seq<V2>>)
    requires j < |rem| && CornersUpTo(rem, amount, j) == Some(points)
    ensures next == CornersUpTo(rem, amount, j + 1)
  {
    var q := Corner(rem[Prev(j, |rem|)], rem[j], amount);
    CornersStep(rem, amount, j, points);
    if q.None? {
      return None;
    }
    next := Some(points + [q.value]);
  }

  /** One more corner: the list grows by the corner of edge j, or fails when that corner raises. */
  lemma CornersStep(rem: seq<(L2, V2)>, amount: real, j: nat, points: seq<V2>)
    requires j < |rem| && CornersUpTo(rem, amount, j) == Some(points)
    ensures var q := Corner(rem[Prev(j, |rem|)], rem[j], amount);
      CornersUpTo(rem, amount, j + 1) == if q.None? then None else Some(points + [q.value])
  {
  }

  /** Once a corner raises, the corner list stays None. */
  lemma {:induction false} CornersFailOnward(rem: seq<(L2, V2)>, amount: real, k: nat)
    requires 0 < k <= |rem| && CornersUpTo(rem, amount, k) == None
    ensures CornersUpTo(rem, amount, |rem|) == None
    decreases |rem| - k
  {
    if k < |rem| {
      CornersFailOnward(rem, amount, k + 1);
    }
  }

  /** `offset(amount)`: the normals, the elimination loop, then the corner loop. */
  method Offset(poly: Polygon, amount: real, mag: V2 -> real) returns (r: Outcome)
    requires IsMagnitude(mag)
    ensures r == OffsetSpec(poly, amount, mag)
  {
    var lines := Segments(poly);
    if |lines| == 0 {
      return Failed;
    }
    var inw := InwardsUpTo(poly, lines, mag, |lines|);
    if inw.None? {
      return Failed;
    }
    var remnant := Eliminate(lines, inw.value, amount * amount);
    if remnant.None? {
      return Failed;
    }
    if |remnant.value| == 0 {
      return NoPolygon;
    }
    var points := Corners(remnant.value, amount);
    if points.None? {
      return Failed;
    }
    r := Shape(Polygon(points.value));
  }

  // ---------------------------------------------------------------------
  // Properties

  /** The ray's direction for either parity: the cross of the edge or its negation. */
  lemma CrossPerpendicular(v: V2)
    ensures Dot(Cross(v), v) == 0.0 && Dot(Neg(Cross(v)), v) == 0.0
  {
  }

  lemma DotScaled(r: V2, a: V2, v: V2, d: real)
    requires d != 0.0 && r.x * d == a.x && r.y * d == a.y && Dot(a, v) == 0.0
    ensures Dot(r, v) == 0.0
  {
    assert Dot(r, v) * d == Dot(a, v);
    CancelNonzero(Dot(r, v), d);
  }

  /** Either parity's direction stays perpendicular to the edge. */
  lemma ChosenDirectionPerpendicular(ray: L2, odd: bool, e: V2)
    requires ray.p.kind == PointKind && !IsZero(ray.v) && Dot(ray.v, e) == 0.0
    ensures (if odd then Some(ray) else Negate(ray)).Some?
    ensures Dot((if odd then Some(ray) else Negate(ray)).value.v, e) == 0.0
  {
    NegateReverses(ray);
  }

  /** Only a zero edge leaves `inwards` without a ray. */
  lemma InwardRayExists(poly: Polygon, edge: L2)
    requires edge.v.kind == VectorKind
    ensures InwardRay(poly, edge).Some? <==> !IsZero(edge.v)
  {
    AlongKeeps(RayK, Midpoint(edge), Cross(edge.v));
    if !IsZero(edge.v) {
      NegateReverses(Along(RayK, Midpoint(edge), Cross(edge.v)).value);
    }
  }

  /** The inward ray runs perpendicular to its edge, for either parity. */
  lemma InwardRayPerpendicular(poly: Polygon, edge: L2)
    requires edge.v.kind == VectorKind && InwardRay(poly, edge).Some?
    ensures Dot(InwardRay(poly, edge).value.v, edge.v) == 0.0
  {
    AlongKeeps(RayK, Midpoint(edge), Cross(edge.v));
    var ray := Along(RayK, Midpoint(edge), Cross(edge.v)).value;
    CrossPerpendicular(edge.v);
    var odd := HitCount(Segments(poly), edge, ray) % 2 == 1;
    ChosenDirectionPerpendicular(ray, odd, edge.v);
    assert InwardRay(poly, edge) == (if odd then Some(ray) else Negate(ray));
  }

  /** The inward normal is perpendicular to its edge. */
  lemma InwardsPerpendicular(poly: Polygon, edge: L2, mag: V2 -> real)
    requires IsMagnitude(mag) && edge.v.kind == VectorKind && Inwards(poly, edge, mag).Some?
    ensures Dot(Inwards(poly, edge, mag).value, edge.v) == 0.0
  {
    InwardRayPerpendicular(poly, edge);
    var w := InwardRay(poly, edge).value.v;
    NormalizedPerpendicular(w, edge.v, mag(w));
    assert Inwards(poly, edge, mag) == Some(Normalized(w, mag(w)));
  }

  /** Normalizing keeps a direction perpendicular to whatever it was perpendicular to. */
  lemma NormalizedPerpendicular(w: V2, e: V2, d: real)
    requires Dot(w, e) == 0.0
    ensures Dot(Normalized(w, d), e) == 0.0
  {
    if d != 0.0 {
      DotScaled(Normalized(w, d), w, e, d);
    }
  }

  /** The only nonnegative root of d * d == 4 is 2. */
  lemma RootOfFour(d: real)
    requires d >= 0.0 && d * d == 4.0
    ensures d == 2.0
  {
    assert (d - 2.0) * (d + 2.0) == d * d - 4.0;
    CancelNonzero(d - 2.0, d + 2.0);
  }

  /** The upward ray from (1, 0) meets the left edge at its own end (1, 1). */
  lemma UpRayLeftEdge()
    ensures Intersect(L2(SegmentK, Point(0.0, 0.0), Vector(1.0, 1.0)), L2(RayK, Point(1.0, 0.0), Vector(0.0, 2.0)))
      == Some(Point(1.0, 1.0))
  {
    var l := L2(SegmentK, Point(0.0, 0.0), Vector(1.0, 1.0));
    var r := L2(RayK, Point(1.0, 0.0), Vector(0.0, 2.0));
    assert Det(l, r) == 2.0;
    assert ParamA(l, r) == 1.0;
    assert ParamB(l, r) == 0.5;
  }

  /** The upward ray from (1, 0) meets the right edge at its start (1, 1). */
  lemma UpRayRightEdge()
    ensures Intersect(L2(SegmentK, Point(1.0, 1.0), Vector(1.0, -1.0)), L2(RayK, Point(1.0, 0.0), Vector(0.0, 2.0)))
      == Some(Point(1.0, 1.0))
  {
    var l := L2(SegmentK, Point(1.0, 1.0), Vector(1.0, -1.0));
    var r := L2(RayK, Point(1.0, 0.0), Vector(0.0, 2.0));
    assert Det(l, r) == 2.0;
    assert ParamA(l, r) == 0.0;
    assert ParamB(l, r) == 0.5;
  }

  /** Of the three edges, only the right one counts: the left is met at its p2. */
  lemma UpRayHitsOnce()
    ensures HitCount([L2(SegmentK, Point(2.0, 0.0), Vector(-2.0, 0.0)), L2(SegmentK, Point(0.0, 0.0), Vector(1.0, 1.0)),
                      L2(SegmentK, Point(1.0, 1.0), Vector(1.0, -1.0))],
                     L2(SegmentK, Point(2.0, 0.0), Vector(-2.0, 0.0)), L2(RayK, Point(1.0, 0.0), Vector(0.0, 2.0))) == 1
  {
    UpRayLeftEdge();
    UpRayRightEdge();
    var segs := [L2(SegmentK, Point(2.0, 0.0), Vector(-2.0, 0.0)), L2(SegmentK, Point(0.0, 0.0), Vector(1.0, 1.0)),
                 L2(SegmentK, Point(1.0, 1.0), Vector(1.0, -1.0))];
    assert segs[1..] == [L2(SegmentK, Point(0.0, 0.0), Vector(1.0, 1.0)), L2(SegmentK, Point(1.0, 1.0), Vector(1.0, -1.0))];
    assert segs[1..][1..] == [L2(SegmentK, Point(1.0, 1.0), Vector(1.0, -1.0))];
  }

  /** The perpendicular ray from the midpoint of the triangle's bottom edge. */
  lemma BottomEdgeRay()
    ensures Along(RayK, Midpoint(L2(SegmentK, Point(2.0, 0.0), Vector(-2.0, 0.0))), Cross(Vector(-2.0, 0.0)))
      == Some(L2(RayK, Point(1.0, 0.0), Vector(0.0, 2.0)))
  {
    assert Midpoint(L2(SegmentK, Point(2.0, 0.0), Vector(-2.0, 0.0))) == Point(1.0, 0.0);
    assert Cross(Vector(-2.0, 0.0)) == Vector(0.0, 2.0);
    AlongKeeps(RayK, Point(1.0, 0.0), Vector(0.0, 2.0));
  }

  /** The inward ray of the triangle's bottom edge: from its midpoint, upward (an odd count). */
  lemma InwardRayExample()
    ensures InwardRay(Polygon([Point(2.0, 0.0), Point(0.0, 0.0), Point(1.0, 1.0)]), L2(SegmentK, Point(2.0, 0.0), Vector(-2.0, 0.0)))
      == Some(L2(RayK, Point(1.0, 0.0), Vector(0.0, 2.0)))
  {
    BottomEdgeRay();
    TriangleSegments();
    UpRayHitsOnce();
    InwardRayOdd(Polygon([Point(2.0, 0.0), Point(0.0, 0.0), Point(1.0, 1.0)]), L2(SegmentK, Point(2.0, 0.0), Vector(-2.0, 0.0)),
                 L2(RayK, Point(1.0, 0.0), Vector(0.0, 2.0)),
                 [L2(SegmentK, Point(2.0, 0.0), Vector(-2.0, 0.0)), L2(SegmentK, Point(0.0, 0.0), Vector(1.0, 1.0)),
                  L2(SegmentK, Point(1.0, 1.0), Vector(1.0, -1.0))]);
  }

  /** An odd crossing count keeps the perpendicular ray as it is. */
  lemma InwardRayOdd(poly: Polygon, edge: L2, ray: L2, segs: seq<L2>)
    requires Along(RayK, Midpoint(edge), Cross(edge.v)) == Some(ray)
    requires Segments(poly) == segs && HitCount(segs, edge, ray) == 1
    ensures InwardRay(poly, edge) == Some(ray)
  {
  }

  /** The doctest: the inward normal of the triangle's bottom edge points up. */
  lemma InwardsExample(mag: V2 -> real)
    requires IsMagnitude(mag)
    ensures Inwards(Polygon([Point(2.0, 0.0), Point(0.0, 0.0), Point(1.0, 1.0)]),
                    L2(SegmentK, Point(2.0, 0.0), Vector(-2.0, 0.0)), mag) == Some(Vector(0.0, 1.0))
  {
    assert mag(Vector(0.0, 2.0)) == 2.0 by {
      MagnitudeOf(mag, Vector(0.0, 2.0));
      RootOfFour(mag(Vector(0.0, 2.0)));
    }
    assert Normalized(Vector(0.0, 2.0), 2.0) == Vector(0.0, 1.0);
    InwardRayExample();
    InwardsOfRay(Polygon([Point(2.0, 0.0), Point(0.0, 0.0), Point(1.0, 1.0)]), L2(SegmentK, Point(2.0, 0.0), Vector(-2.0, 0.0)),
                 mag, L2(RayK, Point(1.0, 0.0), Vector(0.0, 2.0)), Vector(0.0, 1.0));
  }

  /** The normal is the ray's direction normalized by its magnitude. */
  lemma InwardsOfRay(poly: Polygon, edge: L2, mag: V2 -> real, ray: L2, n: V2)
    requires IsMagnitude(mag) && InwardRay(poly, edge) == Some(ray) && Normalized(ray.v, mag(ray.v)) == n
    ensures Inwards(poly, edge, mag) == Some(n)
  {
  }

  /** normal + u line. */
  function MovedAlong(normal: V2, u: real, line: V2): V2 {
    Vector(normal.x + u * line.x, normal.y + u * line.y)
  }

  /**
   * The solve behind `magnitude`: its motion is the normal moved along the
   * line, by the solved parameter u.
   */
  lemma MagnitudeMovesAlongLine(line: V2, normal: V2, inw: V2)
    requires Magnitude(line, normal, inw).Some?
    ensures SameXY(Magnitude(line, normal, inw).value, MovedAlong(normal, MagnitudeParam(line, normal, inw), line))
  {
    var M := MagnitudeSystem(line, normal, inw);
    var x := Solver.Solve(M).value;
    Solver.SolveSound(M, x);
    assert Solver.Sum(M[0], x, 0, 2) == inw.x * x[0] + -line.x * x[1];
    assert Solver.Sum(M[1], x, 0, 2) == inw.y * x[0] + -line.y * x[1];
  }

  /** Only the square of the amount decides which edges survive. */
  lemma RemnantIgnoresSign(poly: Polygon, amount: real, mag: V2 -> real)
    requires IsMagnitude(mag)
    ensures Remnant(poly, amount, mag) == Remnant(poly, -amount, mag)
  {
    assert amount * amount == (-amount) * (-amount);
  }

  /**
   * The outcome: None exactly when no edge survives, else one corner per
   * surviving edge.
   */
  lemma OffsetShape(poly: Polygon, amount: real, mag: V2 -> real)
    requires IsMagnitude(mag)
    ensures OffsetSpec(poly, amount, mag) == NoPolygon <==> Remnant(poly, amount, mag) == Some([])
    ensures OffsetSpec(poly, amount, mag).Shape? ==>
      Remnant(poly, amount, mag).Some? &&
      |OffsetSpec(poly, amount, mag).poly.points| == |Remnant(poly, amount, mag).value| > 0
    ensures |poly.points| == 0 ==> OffsetSpec(poly, amount, mag) == Failed
  {
  }

  /**
   * The cross product of q - p with v: zero exactly when q lies on the line
   * through p with direction v (for a nonzero v).
   */
  function Offside(q: V2, p: V2, v: V2): real {
    (q.x - p.x) * v.y - (q.y - p.y) * v.x
  }

  /** The anchor of b's edge moved by -amount along its normal. */
  function MovedAnchor(b: (L2, V2), amount: real): V2 {
    Point(b.0.p.x - amount * b.1.x, b.0.p.y - amount * b.1.y)
  }

  /** A point p + t v is on the line through p along v. */
  lemma AlongIsCollinear(qx: real, qy: real, px: real, py: real, vx: real, vy: real, t: real)
    requires qx == px + t * vx && qy == py + t * vy
    ensures (qx - px) * vy - (qy - py) * vx == 0.0
  {
    assert (qx - px) * vy == t * vx * vy;
    assert (qy - py) * vx == t * vy * vx;
  }

  /** Every point of a line is on it. */
  lemma AtIsCollinear(l: L2, t: real)
    ensures Offside(At(l, t), l.p, l.v) == 0.0
  {
    AlongIsCollinear(At(l, t).x, At(l, t).y, l.p.x, l.p.y, l.v.x, l.v.y, t);
  }

  /** The start of a corner lies on b's own line. */
  lemma StartOnCarrier(a: L2, b: L2)
    requires a.p.kind == PointKind && a.v.kind == VectorKind
    requires b.p.kind == PointKind && b.v.kind == VectorKind
    requires CornerStart(a, b).Some?
    ensures Offside(CornerStart(a, b).value, b.p, b.v) == 0.0
  {
    AlongKeeps(LineK, a.p, a.v);
    AlongKeeps(LineK, b.p, b.v);
    var lb, la := Carrier(b).value, Carrier(a).value;
    IntersectOnBoth(lb, la);
    AtIsCollinear(lb, ParamA(lb, la));
  }

  /** The motion differs from the normal by a multiple of the line. */
  lemma MotionParallel(line: V2, normal: V2, inw: V2)
    requires Magnitude(line, normal, inw).Some?
    ensures Offside(Magnitude(line, normal, inw).value, normal, line) == 0.0
  {
    MagnitudeMovesAlongLine(line, normal, inw);
    var m := Magnitude(line, normal, inw).value;
    AlongIsCollinear(m.x, m.y, normal.x, normal.y, line.x, line.y, MagnitudeParam(line, normal, inw));
  }

  /** The corner is the start plus -amount times the motion. */
  lemma CornerUnfold(a: (L2, V2), b: (L2, V2), amount: real)
    requires Corner(a, b, amount).Some?
    ensures CornerStart(a.0, b.0).Some? && Magnitude(b.0.v, b.1, Bisector(a.1, b.1)).Some?
    ensures Corner(a, b, amount) ==
      Add(CornerStart(a.0, b.0).value, Planar(Scaled(Magnitude(b.0.v, b.1, Bisector(a.1, b.1)).value, -amount)))
  {
  }

  /** Adding k times a motion moves each coordinate by that multiple. */
  lemma AddScaled(s: V2, m: V2, k: real)
    ensures Add(s, Planar(Scaled(m, k))).Some?
    ensures Add(s, Planar(Scaled(m, k))).value.x == s.x + m.x * k
    ensures Add(s, Planar(Scaled(m, k))).value.y == s.y + m.y * k
  {
  }

  /** A start on the line plus -amount times a motion parallel to it off the normal lands on the moved line. */
  lemma CornerAlgebra(q: V2, s: V2, m: V2, b: (L2, V2), amount: real)
    requires q.x == s.x + m.x * -amount && q.y == s.y + m.y * -amount
    requires Offside(s, b.0.p, b.0.v) == 0.0 && Offside(m, b.1, b.0.v) == 0.0
    ensures Offside(q, MovedAnchor(b, amount), b.0.v) == 0.0
  {
    var p, v, n := b.0.p, b.0.v, b.1;
    var sx, sy := s.x - p.x, s.y - p.y;
    var mx, my := m.x - n.x, m.y - n.y;
    assert q.x - (p.x - amount * n.x) == sx - amount * mx;
    assert q.y - (p.y - amount * n.y) == sy - amount * my;
    assert (sx - amount * mx) * v.y - (sy - amount * my) * v.x == (sx * v.y - sy * v.x) - amount * (mx * v.y - my * v.x);
  }

  /**
   * Each new corner lies on the next surviving edge's line moved by
   * -amount along that edge's normal.
   */
  lemma CornerOnMovedLine(a: (L2, V2), b: (L2, V2), amount: real)
    requires a.0.p.kind == PointKind && a.0.v.kind == VectorKind
    requires b.0.p.kind == PointKind && b.0.v.kind == VectorKind
    requires Corner(a, b, amount).Some?
    ensures Offside(Corner(a, b, amount).value, MovedAnchor(b, amount), b.0.v) == 0.0
  {
    var q := Corner(a, b, amount).value;
    CornerUnfold(a, b, amount);
    var s := CornerStart(a.0, b.0).value;
    var m := Magnitude(b.0.v, b.1, Bisector(a.1, b.1)).value;
    AddScaled(s, m, -amount);
    assert Offside(s, b.0.p, b.0.v) == 0.0 by {
      StartOnCarrier(a.0, b.0);
    }
    assert Offside(m, b.1, b.0.v) == 0.0 by {
      MotionParallel(b.0.v, b.1, Bisector(a.1, b.1));
    }
    CornerAlgebra(q, s, m, b, amount);
  }
}
