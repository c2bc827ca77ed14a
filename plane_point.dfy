/**
 * Two-dimensional vectors and points (petrify/plane/point.py). A Point2 is
 * a Vector2 subclass in the source; here both are one datatype with a
 * `kind` tag, so the class rules of the operators can be stated.
 */
module PlanePoint {
  import opened Wrappers

  datatype Kind = VectorKind | PointKind

  datatype V2 = V2(kind: Kind, x: real, y: real)

  function Vector(x: real, y: real): V2 { V2(VectorKind, x, y) }
  function Point(x: real, y: real): V2 { V2(PointKind, x, y) }

  /**
   * The right operand of a binary operator: a number, a 2-D vector or point,
   * a length-2 tuple or list (what `partial` accepts), any other indexable
   * operand given by its items (a list or tuple of another length, a 3-D
   * vector, an indexable object that is not a list or tuple), or anything else.
   */
  datatype Operand =
    | Num(n: real)
    | Planar(v: V2)
    | Pair(first: real, second: real)
    | Items(values: seq<real>)
    | Other

  /** Same class gives a Vector2, mixed classes a Point2. */
  function SumKind(a: Kind, b: Kind): Kind {
    if a == b then VectorKind else PointKind
  }

  /** `__add__` (and `__radd__`); None is NotImplemented. */
  function Add(a: V2, other: Operand): Option<V2> {
    match other
    case Planar(b) => Some(V2(SumKind(a.kind, b.kind), a.x + b.x, a.y + b.y))
    case Pair(p, q) => Some(Vector(a.x + p, a.y + q))
    case _ => None
  }

  /** `__sub__`; None is NotImplemented. */
  function Sub(a: V2, other: Operand): Option<V2> {
    match other
    case Planar(b) => Some(V2(SumKind(a.kind, b.kind), a.x - b.x, a.y - b.y))
    case Pair(p, q) => Some(Vector(a.x - p, a.y - q))
    case _ => None
  }

  /**
   * `__rsub__`: other - self as a Vector2 whatever the classes. For a pair
   * the source reads `other.x`, which a tuple lacks (AttributeError, None).
   */
  function RSub(a: V2, other: Operand): Option<V2> {
    match other
    case Planar(b) => Some(Vector(b.x - a.x, b.y - a.y))
    case _ => None
  }

  /** `__eq__`: coordinates only, the class is not compared; None is NotImplemented. */
  function Eq(a: V2, other: Operand): Option<bool> {
    match other
    case Planar(b) => Some(a.x == b.x && a.y == b.y)
    case Pair(p, q) => Some(a.x == p && a.y == q)
    case _ => None
  }

  /** `__ne__` is `not __eq__`, and `not NotImplemented` is False. */
  function Ne(a: V2, other: Operand): bool {
    match Eq(a, other)
    case Some(e) => !e
    case None => false
  }

  /** `__hash__` hashes the coordinate pair. */
  function HashKey(a: V2): (real, real) { (a.x, a.y) }

  /** Scalar `*` (and `__rmul__`) keeps the class; None is NotImplemented. */
  function Mul(a: V2, other: Operand): Option<V2> {
    match other
    case Num(s) => Some(V2(a.kind, a.x * s, a.y * s))
    case _ => None
  }

  /** `/` by a scalar keeps the class; None is NotImplemented or a division by zero. */
  function TrueDiv(a: V2, other: Operand): Option<V2> {
    match other
    case Num(s) => if s == 0.0 then None else Some(V2(a.kind, a.x / s, a.y / s))
    case _ => None
  }

  /** `//` by a scalar: each coordinate is the floor of its quotient. */
  function FloorDiv(a: V2, other: Operand): Option<V2> {
    match other
    case Num(s) => if s == 0.0 then None else Some(V2(a.kind, (a.x / s).Floor as real, (a.y / s).Floor as real))
    case _ => None
  }

  /** `__rtruediv__` calls the same helper as `__truediv__`, so s / v divides v by s. */
  function RTrueDiv(a: V2, other: Operand): Option<V2> {
    match other
    case Num(s) => if s == 0.0 then None else Some(V2(a.kind, a.x / s, a.y / s))
    case _ => None
  }

  function Neg(a: V2): V2 { V2(a.kind, -a.x, -a.y) }

  function MagnitudeSquared(a: V2): real { a.x * a.x + a.y * a.y }

  /** `dot`: the component sum of products. */
  function Dot(a: V2, b: V2): real { a.x * b.x + a.y * b.y }

  /** `cross`: the perpendicular (y, -x), same class. */
  function Cross(a: V2): V2 { V2(a.kind, a.y, -a.x) }

  /** `reflected(normal)`: v - 2 (v . n) n, same class as v. */
  function Reflected(a: V2, n: V2): V2 {
    var d := 2.0 * (a.x * n.x + a.y * n.y);
    V2(a.kind, a.x - d * n.x, a.y - d * n.y)
  }

  /**
   * `normalized`, given the magnitude d = sqrt(x^2 + y^2) (square roots are
   * not modelled): divide by d when it is nonzero, else return a copy.
   * Scaling the result back by d gives the original vector.
   */
  function Normalized(a: V2, d: real): (r: V2)
    ensures r.kind == a.kind
    ensures d != 0.0 ==> r.x * d == a.x && r.y * d == a.y
    ensures d == 0.0 ==> r == a
  {
    if d != 0.0 then
      QuotientTimesDivisor(a.x, d);
      QuotientTimesDivisor(a.y, d);
      V2(a.kind, a.x / d, a.y / d)
    else a
  }

  lemma QuotientTimesDivisor(x: real, d: real)
    requires d != 0.0
    ensures (x / d) * d == x
  {
  }

  /** A product with a nonzero factor vanishes only when the other factor does. */
  lemma CancelNonzero(e: real, d: real)
    requires d != 0.0 && e * d == 0.0
    ensures e == 0.0
  {
  }

  lemma MulNonneg(a: real, b: real)
    requires a >= 0.0 && b >= 0.0
    ensures a * b >= 0.0
  {
  }

  /** Python's `round`: to the nearest integer, ties to the even one. */
  function RoundHalfEven(v: real): (r: int)
    ensures -0.5 <= v - r as real <= 0.5
  {
    var f := v.Floor;
    var frac := v - f as real;
    if frac < 0.5 then f
    else if frac > 0.5 then f + 1
    else if f % 2 == 0 then f else f + 1
  }

  /**
   * `snap(grid)`: each coordinate rounded to a multiple of the grid step;
   * None is the ZeroDivisionError of a zero grid.
   */
  function Snap(a: V2, grid: real): (r: Option<V2>)
    ensures r.None? <==> grid == 0.0
    ensures r.Some? ==> r.value.kind == a.kind
  {
    if grid == 0.0 then None else Some(V2(a.kind, SnapTo(a.x, grid), SnapTo(a.y, grid)))
  }

  /** One coordinate rounded to the nearest multiple of `grid`, ties to the even multiple. */
  function SnapTo(v: real, grid: real): real
    requires grid != 0.0
  {
    RoundHalfEven(v / grid) as real * grid
  }

  /** `__getitem__`: index 0 or -2 is x, 1 or -1 is y; anything else is an IndexError (None). */
  function GetItem(a: V2, key: int): (r: Option<real>)
    ensures r.Some? <==> -2 <= key < 2
  {
    if key == 0 || key == -2 then Some(a.x)
    else if key == 1 || key == -1 then Some(a.y)
    else None
  }

  /** Python truthiness of a vector: `len` is always 2, so it is always true. */
  function Truthy(a: V2): bool { true }

  /** What `__nonzero__` computes (a hook Python 3 never calls). */
  function NonZero(a: V2): bool { a.x != 0.0 || a.y != 0.0 }

  /** A vector object whose fields `__iadd__` and `__setitem__` update in place. */
  class MutableV2 {
    var kind: Kind
    var x: real
    var y: real

    constructor (k: Kind, x0: real, y0: real)
      ensures kind == k && x == x0 && y == y0
    {
      kind, x, y := k, x0, y0;
    }

    function Value(): V2
      reads this
    {
      V2(kind, x, y)
    }

    /**
     * `__iadd__`: adds in place and returns the same object. Unlike `+`, the
     * class never changes. Anything that is not a vector is indexed with
     * `other[0]` and then `other[1]`, with no length check: one item updates
     * x before the IndexError (None), three or more items succeed on the
     * first two, and an operand that cannot be indexed fails (a TypeError)
     * before anything changes.
     */
    method IAdd(other: Operand) returns (r: Option<MutableV2>)
      modifies this
      ensures r.Some? <==> other.Planar? || other.Pair? || (other.Items? && |other.values| >= 2)
      ensures r.Some? ==> r.value == this
      ensures kind == old(kind)
      ensures other.Planar? ==> x == old(x) + other.v.x && y == old(y) + other.v.y
      ensures other.Pair? ==> x == old(x) + other.first && y == old(y) + other.second
      ensures other.Items? ==> x == old(x) + (if |other.values| >= 1 then other.values[0] else 0.0)
      ensures other.Items? ==> y == old(y) + (if |other.values| >= 2 then other.values[1] else 0.0)
      ensures other.Num? || other.Other? ==> x == old(x) && y == old(y)
    {
      match other {
        case Planar(v) =>
          x := x + v.x;
          y := y + v.y;
        case Pair(p, q) =>
          x := x + p;
          y := y + q;
        case Items(vs) =>
          if |vs| < 1 {
            return None;
          }
          x := x + vs[0];
          if |vs| < 2 {
            return None;
          }
          y := y + vs[1];
        case _ =>
          return None;
      }
      r := Some(this);
    }

    /** `__setitem__`: the coordinate `GetItem` reads is replaced; a bad index changes nothing. */
    method SetItem(key: int, value: real) returns (ok: bool)
      modifies this
      ensures ok <==> -2 <= key < 2
      ensures ok ==> GetItem(Value(), key) == Some(value)
      ensures ok && (key == 0 || key == -2) ==> y == old(y) && kind == old(kind)
      ensures ok && (key == 1 || key == -1) ==> x == old(x) && kind == old(kind)
      ensures !ok ==> Value() == old(Value())
    {
      if key == 0 || key == -2 {
        x := value;
        ok := true;
      } else if key == 1 || key == -1 {
        y := value;
        ok := true;
      } else {
        ok := false;
      }
    }
  }

  // ---------------------------------------------------------------------
  // Properties

  /**
   * The class table of `+` and `-`: Vector op Vector and Point op Point give
   * a Vector, mixed operands a Point; coordinates add or subtract.
   */
  lemma AddSubClasses(a: V2, b: V2)
    ensures Add(a, Planar(b)).Some? && Sub(a, Planar(b)).Some?
    ensures (Add(a, Planar(b)).value.kind == VectorKind) <==> a.kind == b.kind
    ensures (Sub(a, Planar(b)).value.kind == VectorKind) <==> a.kind == b.kind
    ensures Add(a, Planar(b)).value.x == a.x + b.x && Add(a, Planar(b)).value.y == a.y + b.y
    ensures Sub(a, Planar(b)).value.x == a.x - b.x && Sub(a, Planar(b)).value.y == a.y - b.y
  {
  }

  /** `__radd__` is `__add__`: the sum is the same either way round. */
  lemma AddCommutes(a: V2, b: V2)
    ensures Add(a, Planar(b)) == Add(b, Planar(a))
  {
  }

  /** Subtracting then adding back the same vector restores the coordinates. */
  lemma SubAddInverse(a: V2, b: V2)
    ensures Add(Sub(a, Planar(b)).value, Planar(b)).value.x == a.x
    ensures Add(Sub(a, Planar(b)).value, Planar(b)).value.y == a.y
    ensures b.kind == VectorKind ==> Add(Sub(a, Planar(b)).value, Planar(b)).value == a
  {
  }

  /**
   * The reflected subtraction has the coordinates of the ordinary one with
   * the operands exchanged, but is always a Vector2; a pair is refused.
   */
  lemma RSubReversesSub(a: V2, b: V2, p: real, q: real)
    ensures RSub(a, Planar(b)).Some? && RSub(a, Planar(b)).value.kind == VectorKind
    ensures RSub(a, Planar(b)).value.x == Sub(b, Planar(a)).value.x
    ensures RSub(a, Planar(b)).value.y == Sub(b, Planar(a)).value.y
    ensures RSub(a, Pair(p, q)) == None && Sub(a, Pair(p, q)).Some?
  {
  }

  /** Point + Vector is a Point, Point - Point a Vector (doctests of Point2 and Vector2). */
  lemma ClassExamples()
    ensures Add(Point(1.0, 1.0), Planar(Vector(2.0, 3.0))) == Some(Point(3.0, 4.0))
    ensures Sub(Point(3.0, 4.0), Planar(Point(1.0, 1.0))) == Some(Vector(2.0, 3.0))
    ensures Add(Vector(1.0, 2.0), Planar(Vector(2.0, 2.0))) == Some(Vector(3.0, 4.0))
    ensures Mul(Point(1.0, 2.0), Num(2.0)) == Some(Point(2.0, 4.0))
    ensures TrueDiv(Vector(1.0, 1.0), Num(5.0)) == Some(Vector(0.2, 0.2))
  {
  }

  /**
   * Equality compares coordinates with any 2-D operand or pair, ignores the
   * class, and agrees with the hash.
   */
  lemma EqProperties(a: V2, b: V2)
    ensures Eq(a, Planar(b)) == Some(a.x == b.x && a.y == b.y)
    ensures Eq(a, Planar(b)) == Some(true) ==> HashKey(a) == HashKey(b)
    ensures Eq(a, Planar(b)) == Eq(b, Planar(a))
    ensures Eq(Point(a.x, a.y), Planar(Vector(a.x, a.y))) == Some(true)
    ensures Eq(a, Pair(a.x, a.y)) == Some(true)
    ensures Eq(a, Num(0.0)) == None && !Ne(a, Num(0.0))
  {
  }

  /** Scalar multiplication keeps the class and scales both coordinates; other operands are refused. */
  lemma MulKeepsClass(a: V2, s: real, other: Operand)
    ensures Mul(a, Num(s)).Some? && Mul(a, Num(s)).value == V2(a.kind, a.x * s, a.y * s)
    ensures !other.Num? ==> Mul(a, other) == None
    ensures Mul(Mul(a, Num(s)).value, Num(0.0)).value == V2(a.kind, 0.0, 0.0)
  {
  }

  /** Division by a nonzero scalar undoes multiplication by it. */
  lemma DivUndoesMul(a: V2, s: real)
    requires s != 0.0
    ensures TrueDiv(Mul(a, Num(s)).value, Num(s)).Some? && TrueDiv(Mul(a, Num(s)).value, Num(s)).value == a
  {
    assert a.x * s / s == a.x && a.y * s / s == a.y;
  }

  /** The reflected division: s / v divides v by s rather than s by v. */
  lemma RTrueDivSwapsOperands(a: V2, s: real)
    ensures RTrueDiv(a, Num(s)) == TrueDiv(a, Num(s))
    ensures RTrueDiv(Vector(2.0, 4.0), Num(2.0)) == Some(Vector(1.0, 2.0))
  {
  }

  /** Vector(2, 1) . Vector(2, 3) == 7, and dot is symmetric. */
  lemma DotProperties(a: V2, b: V2)
    ensures Dot(a, b) == Dot(b, a)
    ensures Dot(a, a) == MagnitudeSquared(a) >= 0.0
    ensures Dot(Vector(2.0, 1.0), Vector(2.0, 3.0)) == 7.0
  {
  }

  /** The perpendicular is orthogonal, as long, and a quarter turn: twice negates. */
  lemma CrossProperties(a: V2)
    ensures Dot(a, Cross(a)) == 0.0
    ensures MagnitudeSquared(Cross(a)) == MagnitudeSquared(a)
    ensures Cross(Cross(a)) == Neg(a)
  {
  }

  /**
   * Reflection across a unit normal flips the normal component, keeps the
   * length, and undoes itself; (1, 1) reflected on (0, 1) is (1, -1).
   */
  lemma ReflectedProperties(a: V2, n: V2)
    requires MagnitudeSquared(n) == 1.0
    ensures Dot(Reflected(a, n), n) == -Dot(a, n)
    ensures MagnitudeSquared(Reflected(a, n)) == MagnitudeSquared(a)
    ensures Reflected(Reflected(a, n), n) == a
    ensures Reflected(Vector(1.0, 1.0), Vector(0.0, 1.0)) == Vector(1.0, -1.0)
  {
    var d := Dot(a, n);
    var r := Reflected(a, n);
    assert r.x == a.x - 2.0 * d * n.x && r.y == a.y - 2.0 * d * n.y;
    assert Dot(r, n) == d - 2.0 * d * (n.x * n.x + n.y * n.y);
    assert MagnitudeSquared(r) == MagnitudeSquared(a) - 4.0 * d * d + 4.0 * d * d * (n.x * n.x + n.y * n.y);
  }

  /** Snapping moves each coordinate by at most half a grid step; (1.15, 1.15) snaps to (1.25, 1.25) on 0.25. */
  lemma SnapProperties(a: V2, grid: real)
    requires grid > 0.0
    ensures Snap(a, grid).Some?
    ensures -grid / 2.0 <= Snap(a, grid).value.x - a.x <= grid / 2.0
    ensures -grid / 2.0 <= Snap(a, grid).value.y - a.y <= grid / 2.0
    ensures Snap(Vector(1.15, 1.15), 0.25) == Some(Vector(1.25, 1.25))
  {
    SnapCoordinate(a.x, grid);
    SnapCoordinate(a.y, grid);
    SnapExample();
  }

  lemma SnapExample()
    ensures Snap(Vector(1.15, 1.15), 0.25) == Some(Vector(1.25, 1.25))
  {
    assert 1.15 / 0.25 == 4.6;
    assert (4.6).Floor == 4;
  }

  lemma SnapCoordinate(v: real, grid: real)
    requires grid > 0.0
    ensures -grid / 2.0 <= SnapTo(v, grid) - v <= grid / 2.0
  {
    var q := v / grid;
    var k := RoundHalfEven(q) as real;
    assert v == q * grid;
    assert -0.5 <= k - q <= 0.5;
    MulNonneg(0.5 - (k - q), grid);
    MulNonneg((k - q) + 0.5, grid);
    assert k * grid - v == (k - q) * grid;
  }

  /** Truthiness never looks at the coordinates, although `__nonzero__` would. */
  lemma ZeroVectorIsTruthy()
    ensures Truthy(Vector(0.0, 0.0)) && !NonZero(Vector(0.0, 0.0))
  {
  }
}
