/**
 * Parts and holding tabs (petrify/machine/part.py): a part's validation, a
 * tab's two offset lines, and where a line crosses a tab.
 */
module Part {
  import opened Wrappers
  import PlanePoint
  import PlaneLine
  import PlaneUtil
  import PlanePolygon

  type V2 = PlanePoint.V2
  type L2 = PlaneLine.L2

  datatype Part = Part(outline: PlanePolygon.Polygon, tabs: seq<Tab>, depth: real)

  /** `Part(outline, tabs, depth)`: None is the AssertionError of a depth that is not positive. */
  function NewPart(outline: PlanePolygon.Polygon, tabs: seq<Tab>, depth: real): (r: Option<Part>)
    ensures r.Some? <==> depth > 0.0
    ensures r.Some? ==> r.value.outline == outline && r.value.tabs == tabs && r.value.depth == depth
  {
    if depth > 0.0 then Some(Part(outline, tabs, depth)) else None
  }

  /** A tab: the line, its width, and the two lines either side of it. */
  datatype Tab = Tab(line: L2, width: real, a: L2, b: L2)

  /** `p + m * k`: the anchor moved k along m (a point plus a vector). */
  function Offset(p: V2, m: V2, k: real): V2 {
    PlanePoint.Add(p, PlanePoint.Planar(PlanePoint.Mul(m, PlanePoint.Num(k)).value)).value
  }

  /**
   * `Tab(line, width)`, with `length` standing for the magnitude of the
   * direction's perpendicular (the square root is not modelled): the unit
   * perpendicular m, and lines of the same class through p + m width and
   * p - m width with the same direction, built by the constructor as
   * written. The perpendicular keeps the direction's class, so a direction
   * of the point class moves the anchor off the point class and the
   * constructor refuses it (None). A zero direction is not refused: its
   * perpendicular normalizes to a zero copy, and both tab lines run through
   * p with the zero direction.
   */
  function NewTab(line: L2, width: real, length: real): (r: Option<Tab>)
    requires line.p.kind == PlanePoint.PointKind
    ensures r.Some? <==> line.v.kind == PlanePoint.VectorKind
    ensures r.Some? ==> r.value.line == line && r.value.width == width
    ensures r.Some? ==> r.value.a.kind == line.kind && r.value.b.kind == line.kind
    ensures r.Some? ==> r.value.a.v == line.v && r.value.b.v == line.v
    ensures r.Some? && PlaneLine.IsZero(line.v) ==>
      r.value.a.p.x == line.p.x == r.value.b.p.x && r.value.a.p.y == line.p.y == r.value.b.p.y
  {
    var m := PlanePoint.Normalized(PlanePoint.Cross(line.v), length);
    var qa, qb := Offset(line.p, m, width), Offset(line.p, m, -width);
    var a := PlaneLine.ConstructAsWritten(line.kind, [PlaneLine.APlanar(qa), PlaneLine.APlanar(line.v)], PlaneLine.NoNorm);
    var b := PlaneLine.ConstructAsWritten(line.kind, [PlaneLine.APlanar(qb), PlaneLine.APlanar(line.v)], PlaneLine.NoNorm);
    AnchorAndVector(line.kind, qa, line.v);
    AnchorAndVector(line.kind, qb, line.v);
    assert qa.kind == qb.kind == PlanePoint.SumKind(PlanePoint.PointKind, line.v.kind);
    NormalizedZero(PlanePoint.Cross(line.v), length);
    ZeroAnchors(line.kind, line.p, m, line.v, width);
    if a.Some? && b.Some? then Some(Tab(line, width, a.value, b.value)) else None
  }

  /** A zero vector normalizes to zero whatever the length. */
  lemma NormalizedZero(c: V2, length: real)
    ensures c.x == 0.0 && c.y == 0.0 ==> PlanePoint.Normalized(c, length).x == 0.0 && PlanePoint.Normalized(c, length).y == 0.0
  {
    var m := PlanePoint.Normalized(c, length);
    if c.x == 0.0 && c.y == 0.0 && length != 0.0 {
      PlanePoint.CancelNonzero(m.x, length);
      PlanePoint.CancelNonzero(m.y, length);
    }
  }

  /** With a zero perpendicular m, both tab lines are built through p. */
  lemma ZeroAnchors(kind: PlaneLine.LineKind, p: V2, m: V2, v: V2, width: real)
    requires p.kind == PlanePoint.PointKind
    ensures m.x == 0.0 && m.y == 0.0 && m.kind == PlanePoint.VectorKind && v.kind == PlanePoint.VectorKind ==>
      var a := PlaneLine.ConstructAsWritten(kind, [PlaneLine.APlanar(Offset(p, m, width)), PlaneLine.APlanar(v)], PlaneLine.NoNorm);
      var b := PlaneLine.ConstructAsWritten(kind, [PlaneLine.APlanar(Offset(p, m, -width)), PlaneLine.APlanar(v)], PlaneLine.NoNorm);
      a.Some? && a.value.p.x == p.x && a.value.p.y == p.y && b.Some? && b.value.p.x == p.x && b.value.p.y == p.y
  {
    if m.x == 0.0 && m.y == 0.0 && m.kind == PlanePoint.VectorKind && v.kind == PlanePoint.VectorKind {
      ZeroOffsetLine(kind, p, m, width, v);
      ZeroOffsetLine(kind, p, m, -width, v);
    }
  }

  lemma OffsetByZero(p: V2, m: V2, k: real)
    requires m.x == 0.0 && m.y == 0.0
    ensures Offset(p, m, k).x == p.x && Offset(p, m, k).y == p.y
  {
  }

  /** Offset by a zero perpendicular, a tab line is built through p itself. */
  lemma ZeroOffsetLine(kind: PlaneLine.LineKind, p: V2, m: V2, k: real, v: V2)
    requires p.kind == PlanePoint.PointKind && m.kind == PlanePoint.VectorKind && v.kind == PlanePoint.VectorKind
    requires m.x == 0.0 && m.y == 0.0
    ensures var l := PlaneLine.ConstructAsWritten(kind, [PlaneLine.APlanar(Offset(p, m, k)), PlaneLine.APlanar(v)], PlaneLine.NoNorm);
      l.Some? && l.value.p.x == p.x && l.value.p.y == p.y
  {
    OffsetByZero(p, m, k);
    AnchorAndVector(kind, Offset(p, m, k), v);
  }

  /**
   * The as-written constructor on an anchor and a vector: it succeeds
   * exactly on a point anchor and stores the two unchanged.
   */
  lemma AnchorAndVector(kind: PlaneLine.LineKind, q: V2, v: V2)
    ensures var r := PlaneLine.ConstructAsWritten(kind, [PlaneLine.APlanar(q), PlaneLine.APlanar(v)], PlaneLine.NoNorm);
      (r.Some? <==> q.kind == PlanePoint.PointKind) &&
      (r.Some? && v.kind == PlanePoint.VectorKind ==> r.value == PlaneLine.L2(kind, q, v))
  {
  }

  /**
   * `tab.intersect(other)`: `other`'s crossing with the first tab line,
   * failing that with the second, else None.
   */
  function Intersect(tab: Tab, other: L2): (r: Option<V2>)
    ensures r.Some? <==> PlaneUtil.Intersect(other, tab.a).Some? || PlaneUtil.Intersect(other, tab.b).Some?
    ensures PlaneUtil.Intersect(other, tab.a).Some? ==> r == PlaneUtil.Intersect(other, tab.a)
    ensures PlaneUtil.Intersect(other, tab.a).None? ==> r == PlaneUtil.Intersect(other, tab.b)
  {
    var hits := [PlaneUtil.Intersect(other, tab.a), PlaneUtil.Intersect(other, tab.b)];
    var found := Somes(hits);
    if found != [] then Some(found[0]) else None
  }

  /** `[p for p in points if p is not None]`. */
  function Somes(os: seq<Option<V2>>): (r: seq<V2>)
    ensures |r| <= |os|
    ensures os != [] && os[0].Some? ==> r != [] && r[0] == os[0].value
    ensures os != [] && os[0].None? ==> r == Somes(os[1..])
    ensures r == [] <==> forall i :: 0 <= i < |os| ==> os[i].None?
  {
    if os == [] then []
    else if os[0].Some? then [os[0].value] + Somes(os[1..])
    else Somes(os[1..])
  }

  // ---------------------------------------------------------------------
  // Properties

  /**
   * The tab lines sit either side of the line: the anchors move by the same
   * amount in opposite senses, each at right angles to the direction.
   */
  lemma TabSymmetric(line: L2, width: real, length: real, t: Tab)
    requires line.p.kind == PlanePoint.PointKind
    requires length > 0.0 && length * length == PlanePoint.MagnitudeSquared(line.v)
    requires NewTab(line, width, length) == Some(t)
    ensures t.a.p.x - line.p.x == line.p.x - t.b.p.x && t.a.p.y - line.p.y == line.p.y - t.b.p.y
    ensures PlanePoint.Dot(PlanePoint.Vector(t.a.p.x - line.p.x, t.a.p.y - line.p.y), line.v) == 0.0
  {
    var m := PlanePoint.Normalized(PlanePoint.Cross(line.v), length);
    TabAnchors(line, width, length, m, t);
    UnitNormal(line.v, length, m);
    OffsetOrthogonal(line.p.x, line.p.y, line.v.x, line.v.y, m.x, m.y, width, t.a.p.x, t.a.p.y);
    OffsetMirror(line.p.x, line.p.y, m.x, m.y, width, t.a.p.x, t.a.p.y, t.b.p.x, t.b.p.y);
  }

  /** The two tab lines are 2 width apart: the perpendicular they move along has unit length. */
  lemma TabApart(line: L2, width: real, length: real, t: Tab)
    requires line.p.kind == PlanePoint.PointKind
    requires length > 0.0 && length * length == PlanePoint.MagnitudeSquared(line.v)
    requires NewTab(line, width, length) == Some(t)
    ensures PlanePoint.MagnitudeSquared(PlanePoint.Vector(t.a.p.x - t.b.p.x, t.a.p.y - t.b.p.y)) == 4.0 * width * width
  {
    var m := PlanePoint.Normalized(PlanePoint.Cross(line.v), length);
    TabAnchors(line, width, length, m, t);
    UnitNormal(line.v, length, m);
    OffsetApart(line.p.x, line.p.y, m.x, m.y, width, t.a.p.x, t.a.p.y, t.b.p.x, t.b.p.y);
  }

  lemma TabAnchors(line: L2, width: real, length: real, m: V2, t: Tab)
    requires line.p.kind == PlanePoint.PointKind
    requires m == PlanePoint.Normalized(PlanePoint.Cross(line.v), length)
    requires NewTab(line, width, length) == Some(t)
    ensures t.a.p.x == line.p.x + m.x * width && t.a.p.y == line.p.y + m.y * width
    ensures t.b.p.x == line.p.x + m.x * -width && t.b.p.y == line.p.y + m.y * -width
  {
  }

  /** Anchors moved by w and -w along a unit m orthogonal to v: the first offset is orthogonal to v. */
  lemma OffsetOrthogonal(px: real, py: real, vx: real, vy: real, mx: real, my: real, w: real, xa: real, ya: real)
    requires mx * vx + my * vy == 0.0
    requires xa == px + mx * w && ya == py + my * w
    ensures (xa - px) * vx + (ya - py) * vy == 0.0
  {
    assert (xa - px) * vx + (ya - py) * vy == w * (mx * vx + my * vy);
  }

  /** The two anchors mirror each other through p. */
  lemma OffsetMirror(px: real, py: real, mx: real, my: real, w: real, xa: real, ya: real, xb: real, yb: real)
    requires xa == px + mx * w && ya == py + my * w && xb == px + mx * -w && yb == py + my * -w
    ensures xa - px == px - xb && ya - py == py - yb
  {
  }

  /** With a unit m, the anchors are 2 w apart. */
  lemma OffsetApart(px: real, py: real, mx: real, my: real, w: real, xa: real, ya: real, xb: real, yb: real)
    requires mx * mx + my * my == 1.0
    requires xa == px + mx * w && ya == py + my * w && xb == px + mx * -w && yb == py + my * -w
    ensures (xa - xb) * (xa - xb) + (ya - yb) * (ya - yb) == 4.0 * w * w
  {
    calc {
      (xa - xb) * (xa - xb) + (ya - yb) * (ya - yb);
      (2.0 * w * mx) * (2.0 * w * mx) + (2.0 * w * my) * (2.0 * w * my);
      4.0 * w * w * (mx * mx + my * my);
    }
  }

  lemma UnitFromSquares(sq: real, d: real, s: real)
    requires d != 0.0
    requires sq * (d * d) == s && s == d * d
    ensures sq == 1.0
  {
    assert ((sq - 1.0) * d) * d == 0.0;
    PlanePoint.CancelNonzero((sq - 1.0) * d, d);
    PlanePoint.CancelNonzero(sq - 1.0, d);
  }

  /** The normalized perpendicular of v, given its length, has unit length and is orthogonal to v. */
  lemma UnitNormal(v: V2, length: real, m: V2)
    requires length > 0.0 && length * length == PlanePoint.MagnitudeSquared(v)
    requires m == PlanePoint.Normalized(PlanePoint.Cross(v), length)
    ensures m.x * m.x + m.y * m.y == 1.0 && m.x * v.x + m.y * v.y == 0.0
  {
    UnitPerpendicular(v.x, v.y, m.x, m.y, length);
  }

  /** The perpendicular of (vx, vy) scaled by 1 / length has unit length and is orthogonal to it. */
  lemma UnitPerpendicular(vx: real, vy: real, mx: real, my: real, d: real)
    requires d > 0.0 && d * d == vx * vx + vy * vy
    requires mx * d == vy && my * d == -vx
    ensures mx * mx + my * my == 1.0
    ensures mx * vx + my * vy == 0.0
  {
    assert (mx * mx + my * my) * (d * d) == (mx * d) * (mx * d) + (my * d) * (my * d);
    UnitFromSquares(mx * mx + my * my, d, (mx * d) * (mx * d) + (my * d) * (my * d));
    assert (mx * vx + my * vy) * d == vy * vx - vx * vy;
    PlanePoint.CancelNonzero(mx * vx + my * vy, d);
  }
}
