/**
 * Lines, rays and segments in the plane (petrify/plane/line.py): an anchor
 * point p and a direction vector v, with the parameter range of each kind.
 */
module PlaneLine {
  import opened Wrappers
  import opened PlanePoint

  /** Line2, Ray2 and LineSegment2 differ only in their parameter range. */
  datatype LineKind = LineK | RayK | SegmentK

  datatype L2 = L2(kind: LineKind, p: V2, v: V2)

  /** A constructor argument: a 2-D vector or point, a number, another line, or anything else. */
  datatype Arg = APlanar(w: V2) | AScalar(s: real) | ALine(l: L2) | AOther

  /** `_u_in`: every u for a line, u >= 0 for a ray, 0 <= u <= 1 for a segment. */
  function UIn(kind: LineKind, u: real): bool {
    match kind
    case LineK => true
    case RayK => u >= 0.0
    case SegmentK => 0.0 <= u <= 1.0
  }

  /** `p2`: the point one direction vector past the anchor. */
  function P2(l: L2): V2 {
    Point(l.p.x + l.v.x, l.p.y + l.v.y)
  }

  function IsZero(v: V2): bool { v.x == 0.0 && v.y == 0.0 }

  /**
   * `__init__` as written: (point, vector, length) scales the vector to the
   * length through its magnitude `norm`, (point, point) takes the difference,
   * (point, vector) copies, (line) copies; any other shape is an
   * AttributeError (None). The zero-direction guard that follows is
   * ineffective (see `Construct`), so it is absent here.
   */
  function ConstructAsWritten(kind: LineKind, args: seq<Arg>, norm: V2 -> real): (r: Option<L2>)
    ensures r.Some? ==> r.value.kind == kind && r.value.p.kind == PointKind
    ensures r.Some? ==> 1 <= |args| <= 3
  {
    if |args| == 3 then
      if args[0].APlanar? && args[0].w.kind == PointKind && args[1].APlanar? && args[2].AScalar? then
        var a, b, s := args[0].w, args[1].w, args[2].s;
        var n := norm(b);
        if n == 0.0 then None
        else Some(L2(kind, a, V2(b.kind, b.x * s / n, b.y * s / n)))
      else None
    else if |args| == 2 then
      if args[0].APlanar? && args[0].w.kind == PointKind && args[1].APlanar? then
        var a, b := args[0].w, args[1].w;
        if b.kind == PointKind then Some(L2(kind, a, Vector(b.x - a.x, b.y - a.y)))
        else Some(L2(kind, a, b))
      else None
    else if |args| == 1 then
      if args[0].ALine? && args[0].l.p.kind == PointKind then Some(L2(kind, args[0].l.p, args[0].l.v))
      else None
    else None
  }

  /**
   * `__init__` with the zero-direction guard taking effect: a line whose
   * direction is the zero vector is refused.
   */
  function Construct(kind: LineKind, args: seq<Arg>, norm: V2 -> real): (r: Option<L2>)
    ensures r.Some? ==> !IsZero(r.value.v) && r.value.kind == kind && r.value.p.kind == PointKind
    ensures r.Some? <==> ConstructAsWritten(kind, args, norm).Some? && !IsZero(ConstructAsWritten(kind, args, norm).value.v)
    ensures r.Some? ==> r == ConstructAsWritten(kind, args, norm)
  {
    match ConstructAsWritten(kind, args, norm)
    case Some(l) => if IsZero(l.v) then None else Some(l)
    case None => None
  }

  /** The norm argument for the forms that never take a length. */
  function NoNorm(w: V2): real { 1.0 }

  /** The two-point form of the constructor. */
  function Through(kind: LineKind, a: V2, b: V2): Option<L2> {
    Construct(kind, [APlanar(a), APlanar(b)], NoNorm)
  }

  /** The point-and-vector form of the constructor. */
  function Along(kind: LineKind, a: V2, v: V2): Option<L2> {
    Construct(kind, [APlanar(a), APlanar(v)], NoNorm)
  }

  /** `__add__`: rebuild the same kind from the moved anchor and the same direction. */
  function Translate(l: L2, w: V2): Option<L2> {
    match Add(l.p, Planar(w))
    case Some(q) => Along(l.kind, q, l.v)
    case None => None
  }

  /** `__mul__` (and `__rmul__`) by a scalar: anchor and direction both scaled. */
  function Scale(l: L2, s: real): Option<L2> {
    Along(l.kind, V2(l.p.kind, l.p.x * s, l.p.y * s), V2(l.v.kind, l.v.x * s, l.v.y * s))
  }

  /** `__neg__`: rebuild from (p2, p1), so the same carrier traversed the other way. */
  function Negate(l: L2): Option<L2> {
    Through(l.kind, P2(l), l.p)
  }

  /** `__eq__`: anchors and directions compare by coordinates; the kind is not compared. */
  function LineEq(a: L2, b: L2): bool {
    a.p.x == b.p.x && a.p.y == b.p.y && a.v.x == b.v.x && a.v.y == b.v.y
  }

  /** `__hash__` hashes (p, v). */
  function LineHash(l: L2): ((real, real), (real, real)) {
    (HashKey(l.p), HashKey(l.v))
  }

  /** A segment object whose `_swap` rewrites its fields in place. */
  class Segment {
    var p: V2
    var v: V2

    constructor (p0: V2, v0: V2)
      ensures p == p0 && v == v0
    {
      p, v := p0, v0;
    }

    function Value(): L2
      reads this
    {
      L2(SegmentK, p, v)
    }

    /** `_swap`: start at the old far end and point back; returns the same object. */
    method Swap() returns (r: Segment)
      modifies this
      ensures r == this
      ensures p == P2(old(Value())) && v == V2(old(v).kind, -old(v).x, -old(v).y)
    {
      p := P2(Value());
      v := V2(v.kind, -v.x, -v.y);
      r := this;
    }
  }

  // ---------------------------------------------------------------------
  // Properties

  /** The ranges nest: a segment parameter is a ray parameter is a line parameter. */
  lemma UInNests(u: real)
    ensures UIn(SegmentK, u) ==> UIn(RayK, u)
    ensures UIn(RayK, u) ==> UIn(LineK, u)
    ensures UIn(SegmentK, u) <==> 0.0 <= u <= 1.0
    ensures UIn(RayK, u) <==> u >= 0.0
  {
  }

  /**
   * As written, the zero-direction check never refuses anything: two equal
   * points give a line whose direction is the zero vector.
   */
  lemma GuardNeverFiresAsWritten(kind: LineKind, a: V2)
    requires a.kind == PointKind
    ensures ConstructAsWritten(kind, [APlanar(a), APlanar(a)], NoNorm) == Some(L2(kind, a, Vector(0.0, 0.0)))
    ensures IsZero(ConstructAsWritten(kind, [APlanar(a), APlanar(a)], NoNorm).value.v)
  {
  }

  /** Two-point construction stores b - a, and p2 gives back b. */
  lemma ThroughReachesEnd(kind: LineKind, a: V2, b: V2)
    requires a.kind == PointKind && b.kind == PointKind && (a.x != b.x || a.y != b.y)
    ensures Through(kind, a, b).Some?
    ensures Through(kind, a, b).value.v == Vector(b.x - a.x, b.y - a.y)
    ensures P2(Through(kind, a, b).value) == b && Through(kind, a, b).value.p == a
  {
  }

  /** The zero-direction guard refuses coincident points; nothing else about the shape changes. */
  lemma ThroughRefusesCoincident(kind: LineKind, a: V2)
    requires a.kind == PointKind
    ensures Through(kind, a, a) == None
  {
  }

  /** The scaled form has the requested length: its squared magnitude is s^2 when norm is the magnitude. */
  lemma ScaledConstruction(kind: LineKind, a: V2, b: V2, s: real, norm: V2 -> real)
    requires a.kind == PointKind && norm(b) != 0.0 && s != 0.0 && !IsZero(b)
    ensures Construct(kind, [APlanar(a), APlanar(b), AScalar(s)], norm).Some?
    ensures Construct(kind, [APlanar(a), APlanar(b), AScalar(s)], norm).value.v.x * norm(b) == b.x * s
    ensures Construct(kind, [APlanar(a), APlanar(b), AScalar(s)], norm).value.v.y * norm(b) == b.y * s
  {
    var n := norm(b);
    assert b.x * s / n * n == b.x * s;
    assert b.y * s / n * n == b.y * s;
    if b.x != 0.0 {
      assert b.x * s != 0.0;
    } else {
      assert b.y * s != 0.0;
    }
  }

  /**
   * `+ w` moves the anchor by w and keeps the kind and the direction (a
   * direction held as a Point2 would be re-read as a second point).
   */
  lemma TranslateKeepsDirection(l: L2, w: V2)
    requires l.p.kind == PointKind && l.v.kind == VectorKind && w.kind == VectorKind && !IsZero(l.v)
    ensures Translate(l, w).Some?
    ensures Translate(l, w).value == L2(l.kind, Point(l.p.x + w.x, l.p.y + w.y), l.v)
  {
  }

  /** Adding a point to the anchor makes it a vector, which the constructor refuses. */
  lemma TranslateByPointFails(l: L2, w: V2)
    requires l.p.kind == PointKind && w.kind == PointKind
    ensures Translate(l, w) == None
  {
  }

  /** The class doctest: Line(Point(1, 1), Point(2, 1)) + Vector(1, 1) == Line(Point(2, 2), Vector(1, 0)). */
  lemma TranslateExample()
    ensures Through(LineK, Point(1.0, 1.0), Point(2.0, 1.0)) == Some(L2(LineK, Point(1.0, 1.0), Vector(1.0, 0.0)))
    ensures Translate(L2(LineK, Point(1.0, 1.0), Vector(1.0, 0.0)), Vector(1.0, 1.0)) == Some(L2(LineK, Point(2.0, 2.0), Vector(1.0, 0.0)))
  {
  }

  /** Scaling by a nonzero factor scales anchor and direction; by zero it leaves no direction. */
  lemma ScaleProperties(l: L2, s: real)
    requires l.p.kind == PointKind && l.v.kind == VectorKind && !IsZero(l.v)
    ensures s != 0.0 ==> Scale(l, s).Some? && Scale(l, s).value.p == Point(l.p.x * s, l.p.y * s)
    ensures s != 0.0 ==> Scale(l, s).value.v == V2(l.v.kind, l.v.x * s, l.v.y * s)
    ensures s == 0.0 ==> Scale(l, s) == None
  {
    if s != 0.0 {
      if l.v.x != 0.0 {
        assert l.v.x * s != 0.0;
      } else {
        assert l.v.y * s != 0.0;
      }
    }
  }

  /**
   * Negation starts at the old p2 and points back to the old anchor, so it
   * is direction-sensitive-unequal to the original and negating twice gives
   * the original back.
   */
  lemma NegateReverses(l: L2)
    requires l.p.kind == PointKind && !IsZero(l.v)
    ensures Negate(l).Some?
    ensures Negate(l).value.p == P2(l) && P2(Negate(l).value) == l.p
    ensures Negate(l).value.v == Vector(-l.v.x, -l.v.y)
    ensures !LineEq(Negate(l).value, l)
    ensures Negate(Negate(l).value).Some? && LineEq(Negate(Negate(l).value).value, l)
  {
  }

  /** The point-and-vector form keeps its arguments, refusing only the zero direction. */
  lemma AlongKeeps(kind: LineKind, a: V2, v: V2)
    requires a.kind == PointKind && v.kind == VectorKind
    ensures Along(kind, a, v).Some? <==> !IsZero(v)
    ensures Along(kind, a, v).Some? ==> Along(kind, a, v).value == L2(kind, a, v)
  {
  }

  /** Equal lines hash alike; equality ignores the kind. */
  lemma EqualLinesHashAlike(a: L2, b: L2)
    ensures LineEq(a, b) ==> LineHash(a) == LineHash(b)
    ensures LineEq(a, L2(RayK, a.p, a.v)) && LineEq(a, L2(SegmentK, a.p, a.v))
  {
  }

  /** `_swap` yields the negated segment: same points, traversed the other way. */
  lemma SwapIsNegation(s: L2)
    requires s.kind == SegmentK && s.p.kind == PointKind && s.v.kind == VectorKind && !IsZero(s.v)
    ensures Negate(s).Some?
    ensures Negate(s).value == L2(SegmentK, P2(s), V2(s.v.kind, -s.v.x, -s.v.y))
  {
  }
}
