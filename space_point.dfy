/**
 * Three-dimensional vectors and points (petrify/space/point.py). As in the
 * plane, Point3 subclasses Vector3 in the source; here both are one datatype
 * with a `kind` tag so that the class rules can be stated.
 */
module SpacePoint {
  import opened Wrappers
  import PlanePoint

  type Kind = PlanePoint.Kind

  datatype V3 = V3(kind: Kind, x: real, y: real, z: real)

  function Vector(x: real, y: real, z: real): V3 { V3(PlanePoint.VectorKind, x, y, z) }
  function Point(x: real, y: real, z: real): V3 { V3(PlanePoint.PointKind, x, y, z) }

  /** The basis vectors `bx`, `by`, `bz` and the origin point. */
  function Bx(): V3 { Vector(1.0, 0.0, 0.0) }
  function By(): V3 { Vector(0.0, 1.0, 0.0) }
  function Bz(): V3 { Vector(0.0, 0.0, 1.0) }
  function Origin(): V3 { Point(0.0, 0.0, 0.0) }

  /**
   * The right operand of an operator: a number, a 3-D vector or point, a
   * length-3 sequence, any other indexable operand with a length, given by
   * its items (a list or tuple of another length, a 2-D vector), or anything
   * else.
   */
  datatype Operand =
    | Num(n: real)
    | Spatial(v: V3)
    | Triple(a: real, b: real, c: real)
    | Items(values: seq<real>)
    | Other

  /**
   * `__add__` (and `__radd__`): same classes give a Vector3, mixed classes a
   * Point3; a length-3 sequence keeps the class of the vector. Anything else
   * fails the length assertion (None).
   */
  function Add(u: V3, other: Operand): Option<V3> {
    match other
    case Spatial(w) => Some(V3(PlanePoint.SumKind(u.kind, w.kind), u.x + w.x, u.y + w.y, u.z + w.z))
    case Triple(a, b, c) => Some(V3(u.kind, u.x + a, u.y + b, u.z + c))
    case _ => None
  }

  /** `__sub__`, with the same class rules as `__add__`. */
  function Sub(u: V3, other: Operand): Option<V3> {
    match other
    case Spatial(w) => Some(V3(PlanePoint.SumKind(u.kind, w.kind), u.x - w.x, u.y - w.y, u.z - w.z))
    case Triple(a, b, c) => Some(V3(u.kind, u.x - a, u.y - b, u.z - c))
    case _ => None
  }

  /**
   * `__eq__`: a vector of another class is never equal; a length-3 sequence
   * compares component-wise; anything else fails the assertion (None).
   */
  function Eq(u: V3, other: Operand): Option<bool> {
    match other
    case Spatial(w) => Some(u.kind == w.kind && u.x == w.x && u.y == w.y && u.z == w.z)
    case Triple(a, b, c) => Some(u.x == a && u.y == b && u.z == c)
    case _ => None
  }

  /** `__hash__` hashes the coordinate triple. */
  function HashKey(u: V3): (real, real, real) { (u.x, u.y, u.z) }

  /** Scalar `*` (and `__rmul__`) keeps the class; None is NotImplemented. */
  function Mul(u: V3, other: Operand): Option<V3> {
    match other
    case Num(s) => Some(V3(u.kind, u.x * s, u.y * s, u.z * s))
    case _ => None
  }

  /**
   * `/` through `operate`: a scalar divides each coordinate and keeps the
   * class; None is the None `operate` returns for a non-scalar, or a
   * division by zero.
   */
  function TrueDiv(u: V3, other: Operand): Option<V3> {
    match other
    case Num(s) => if s == 0.0 then None else Some(V3(u.kind, u.x / s, u.y / s, u.z / s))
    case _ => None
  }

  function Neg(u: V3): V3 { V3(u.kind, -u.x, -u.y, -u.z) }

  function MagnitudeSquared(u: V3): real { u.x * u.x + u.y * u.y + u.z * u.z }

  /** `dot`: the component sum of products. */
  function Dot(u: V3, w: V3): real { u.x * w.x + u.y * w.y + u.z * w.z }

  /** `cross`: the cross product, always a Vector3 whatever the classes. */
  function Cross(u: V3, w: V3): V3 {
    Vector(u.y * w.z - u.z * w.y, -u.x * w.z + u.z * w.x, u.x * w.y - u.y * w.x)
  }

  /** u - 2 (u . n) n, same class as u. */
  function Reflection(u: V3, n: V3): V3 {
    var d := 2.0 * (u.x * n.x + u.y * n.y + u.z * n.z);
    V3(u.kind, u.x - d * n.x, u.y - d * n.y, u.z - d * n.z)
  }

  /**
   * `reflect(normal)`: the reflection across the plane with that normal;
   * None is the AssertionError of a normal whose squared magnitude is not
   * exactly 1.
   */
  function Reflect(u: V3, n: V3): (r: Option<V3>)
    ensures r.None? <==> MagnitudeSquared(n) != 1.0
  {
    if MagnitudeSquared(n) == 1.0 then Some(Reflection(u, n)) else None
  }

  /**
   * `normalized`: the vector divided by its magnitude d (passed in, square
   * roots are not modelled); a zero magnitude raises (None).
   */
  function Normalized(u: V3, d: real): (r: Option<V3>)
    ensures r.Some? <==> d != 0.0
    ensures r.Some? ==>
      (r.value.kind == u.kind && r.value.x * d == u.x && r.value.y * d == u.y && r.value.z * d == u.z)
  {
    if d == 0.0 then None
    else
      PlanePoint.QuotientTimesDivisor(u.x, d);
      PlanePoint.QuotientTimesDivisor(u.y, d);
      PlanePoint.QuotientTimesDivisor(u.z, d);
      Some(V3(u.kind, u.x / d, u.y / d, u.z / d))
  }

  /**
   * `snap(grid)`: each coordinate rounded (half to even) to a multiple of
   * the grid step; None is the ZeroDivisionError of a zero grid.
   */
  function Snap(u: V3, grid: real): (r: Option<V3>)
    ensures r.None? <==> grid == 0.0
    ensures r.Some? ==> r.value.kind == u.kind
  {
    if grid == 0.0 then None
    else Some(V3(u.kind, PlanePoint.SnapTo(u.x, grid), PlanePoint.SnapTo(u.y, grid), PlanePoint.SnapTo(u.z, grid)))
  }

  /** `__getitem__`: indices 0..2 and -3..-1 as for a tuple; others are an IndexError (None). */
  function GetItem(u: V3, key: int): (r: Option<real>)
    ensures r.Some? <==> -3 <= key < 3
  {
    if key == 0 || key == -3 then Some(u.x)
    else if key == 1 || key == -2 then Some(u.y)
    else if key == 2 || key == -1 then Some(u.z)
    else None
  }

  /** `point()` and `vector()`: the same coordinates under the other class. */
  function AsPoint(u: V3): V3 { Point(u.x, u.y, u.z) }
  function AsVector(u: V3): V3 { Vector(u.x, u.y, u.z) }

  /** A vector object whose fields `normalize`, `__iadd__` and `__setitem__` update in place. */
  class MutableV3 {
    var kind: Kind
    var x: real
    var y: real
    var z: real

    constructor (k: Kind, x0: real, y0: real, z0: real)
      ensures kind == k && x == x0 && y == y0 && z == z0
    {
      kind, x, y, z := k, x0, y0, z0;
    }

    function Value(): V3
      reads this
    {
      V3(kind, x, y, z)
    }

    /**
     * `normalize`, given the magnitude d of the current value: divides in
     * place when d is nonzero, leaves the vector alone otherwise, and
     * returns the same object.
     */
    method Normalize(d: real) returns (r: MutableV3)
      modifies this
      ensures r == this && kind == old(kind)
      ensures d != 0.0 ==> x * d == old(x) && y * d == old(y) && z * d == old(z)
      ensures d == 0.0 ==> Value() == old(Value())
    {
      if d != 0.0 {
        PlanePoint.QuotientTimesDivisor(x, d);
        PlanePoint.QuotientTimesDivisor(y, d);
        PlanePoint.QuotientTimesDivisor(z, d);
        x, y, z := x / d, y / d, z / d;
      }
      r := this;
    }

    /**
     * `__iadd__`: adds in place, keeps the class and returns the same object.
     * Anything that is not a vector is indexed with `other[0]`, `other[1]`
     * and `other[2]` in turn, with no length check: a shorter operand updates
     * the coordinates it has before the IndexError (None), a longer one
     * succeeds on its first three items, and an operand that cannot be
     * indexed fails (a TypeError) before anything changes.
     */
    method IAdd(other: Operand) returns (r: Option<MutableV3>)
      modifies this
      ensures r.Some? <==> other.Spatial? || other.Triple? || (other.Items? && |other.values| >= 3)
      ensures r.Some? ==> r.value == this
      ensures kind == old(kind)
      ensures other.Spatial? ==> x == old(x) + other.v.x && y == old(y) + other.v.y && z == old(z) + other.v.z
      ensures other.Triple? ==> x == old(x) + other.a && y == old(y) + other.b && z == old(z) + other.c
      ensures other.Items? ==> x == old(x) + (if |other.values| >= 1 then other.values[0] else 0.0)
      ensures other.Items? ==> y == old(y) + (if |other.values| >= 2 then other.values[1] else 0.0)
      ensures other.Items? ==> z == old(z) + (if |other.values| >= 3 then other.values[2] else 0.0)
      ensures other.Num? || other.Other? ==> x == old(x) && y == old(y) && z == old(z)
    {
      match other {
        case Spatial(v) =>
          x, y, z := x + v.x, y + v.y, z + v.z;
        case Triple(a, b, c) =>
          x, y, z := x + a, y + b, z + c;
        case Items(vs) =>
          if |vs| < 1 {
            return None;
          }
          x := x + vs[0];
          if |vs| < 2 {
            return None;
          }
          y := y + vs[1];
          if |vs| < 3 {
            return None;
          }
          z := z + vs[2];
        case _ =>
          return None;
      }
      r := Some(this);
    }

    /** `__setitem__`: the coordinate `GetItem` reads is replaced; a bad index changes nothing. */
    method SetItem(key: int, value: real) returns (ok: bool)
      modifies this
      ensures ok <==> -3 <= key < 3
      ensures ok ==> GetItem(Value(), key) == Some(value)
      ensures forall k :: -3 <= k < 3 && k % 3 != key % 3 ==> GetItem(Value(), k) == GetItem(old(Value()), k)
      ensures kind == old(kind)
      ensures !ok ==> Value() == old(Value())
    {
      if key == 0 || key == -3 {
        x := value;
        ok := true;
      } else if key == 1 || key == -2 {
        y := value;
        ok := true;
      } else if key == 2 || key == -1 {
        z := value;
        ok := true;
      } else {
        ok := false;
      }
    }
  }

  // ---------------------------------------------------------------------
  // Properties

  /**
   * The class table of `+` and `-`: same classes give a Vector, mixed ones a
   * Point; a length-3 sequence keeps the left operand's class.
   */
  lemma AddSubClasses(u: V3, w: V3, a: real, b: real, c: real)
    ensures Add(u, Spatial(w)).Some? && Sub(u, Spatial(w)).Some?
    ensures (Add(u, Spatial(w)).value.kind == PlanePoint.VectorKind) <==> u.kind == w.kind
    ensures (Sub(u, Spatial(w)).value.kind == PlanePoint.VectorKind) <==> u.kind == w.kind
    ensures Add(u, Triple(a, b, c)).value.kind == u.kind && Sub(u, Triple(a, b, c)).value.kind == u.kind
    ensures Add(u, Spatial(w)) == Add(w, Spatial(u))
    ensures Add(Sub(u, Spatial(w)).value, Spatial(w)).value.x == u.x
    ensures w.kind == PlanePoint.VectorKind ==> Add(Sub(u, Spatial(w)).value, Spatial(w)).value == u
    ensures Add(u, Other) == None && Sub(u, Num(1.0)) == None
  {
  }

  /** The doctests of Vector3 and Point3. */
  lemma ClassExamples()
    ensures Add(Vector(1.0, 2.0, 3.0), Spatial(Vector(2.0, 2.0, 2.0))) == Some(Vector(3.0, 4.0, 5.0))
    ensures Sub(Vector(1.0, 2.0, 3.0), Spatial(Vector(2.0, 2.0, 2.0))) == Some(Vector(-1.0, 0.0, 1.0))
    ensures Mul(Vector(1.0, 0.0, 1.0), Num(5.0)) == Some(Vector(5.0, 0.0, 5.0))
    ensures TrueDiv(Vector(1.0, 0.0, 1.0), Num(5.0)) == Some(Vector(0.2, 0.0, 0.2))
    ensures Add(Point(1.0, 2.0, 3.0), Spatial(Vector(1.0, 1.0, 1.0))) == Some(Point(2.0, 3.0, 4.0))
    ensures Normalized(Vector(0.0, 0.0, 5.0), 5.0) == Some(Vector(0.0, 0.0, 1.0))
  {
  }

  /**
   * Equality needs the same class: a point never equals the vector with its
   * coordinates. It is symmetric, agrees with the hash, and a length-3
   * sequence compares by coordinates only.
   */
  lemma EqProperties(u: V3, w: V3)
    ensures Eq(u, Spatial(w)) == Some(u == w)
    ensures Eq(u, Spatial(w)) == Eq(w, Spatial(u))
    ensures Eq(u, Spatial(w)) == Some(true) ==> HashKey(u) == HashKey(w)
    ensures Eq(Point(u.x, u.y, u.z), Spatial(Vector(u.x, u.y, u.z))) == Some(false)
    ensures HashKey(Point(u.x, u.y, u.z)) == HashKey(Vector(u.x, u.y, u.z))
    ensures Eq(u, Triple(u.x, u.y, u.z)) == Some(true)
    ensures Eq(u, Other) == None
  {
  }

  /** Scalar multiplication keeps the class; division by a nonzero scalar undoes it. */
  lemma MulDivProperties(u: V3, s: real)
    ensures Mul(u, Num(s)).Some? && Mul(u, Num(s)).value.kind == u.kind
    ensures Mul(u, Spatial(u)) == None && TrueDiv(u, Num(0.0)) == None
    ensures s != 0.0 ==> TrueDiv(Mul(u, Num(s)).value, Num(s)) == Some(u)
  {
    if s != 0.0 {
      var m := Mul(u, Num(s)).value;
      ProductQuotient(u.x, s, m.x);
      ProductQuotient(u.y, s, m.y);
      ProductQuotient(u.z, s, m.z);
      assert TrueDiv(m, Num(s)).value == V3(u.kind, m.x / s, m.y / s, m.z / s);
    }
  }

  /** The dot product is symmetric and v . v is the squared magnitude. */
  lemma DotProperties(u: V3, w: V3)
    ensures Dot(u, w) == Dot(w, u)
    ensures Dot(u, u) == MagnitudeSquared(u) >= 0.0
  {
  }

  /** The cross product is orthogonal to both operands and always a Vector. */
  lemma CrossOrthogonal(u: V3, w: V3)
    ensures Dot(Cross(u, w), u) == 0.0 && Dot(Cross(u, w), w) == 0.0
    ensures Cross(u, w).kind == PlanePoint.VectorKind
  {
    TripleProductVanishes(u.x, u.y, u.z, w.x, w.y, w.z);
    TripleProductVanishes(w.x, w.y, w.z, u.x, u.y, u.z);
  }

  /** The cross product is anti-commutative and zero on a vector with itself. */
  lemma CrossAntiCommutes(u: V3, w: V3)
    ensures Cross(w, u) == Neg(Cross(u, w))
    ensures Cross(u, u) == Vector(0.0, 0.0, 0.0)
  {
    assert Cross(w, u).x == -Cross(u, w).x && Cross(w, u).y == -Cross(u, w).y && Cross(w, u).z == -Cross(u, w).z;
  }

  /** The basis is right-handed: bx x by == bz, by x bz == bx, bz x bx == by. */
  lemma CrossBasis()
    ensures Cross(Bx(), By()) == Bz()
    ensures Cross(By(), Bz()) == Bx()
    ensures Cross(Bz(), Bx()) == By()
  {
    CrossBxBy();
    CrossByBz();
    CrossBzBx();
  }

  lemma CrossBxBy()
    ensures Cross(Bx(), By()) == Bz()
  {
    CrossUnfold(1.0, 0.0, 0.0, 0.0, 1.0, 0.0);
  }

  lemma CrossByBz()
    ensures Cross(By(), Bz()) == Bx()
  {
    CrossUnfold(0.0, 1.0, 0.0, 0.0, 0.0, 1.0);
  }

  lemma CrossBzBx()
    ensures Cross(Bz(), Bx()) == By()
  {
    CrossUnfold(0.0, 0.0, 1.0, 1.0, 0.0, 0.0);
  }

  lemma CrossUnfold(a: real, b: real, c: real, e: real, f: real, g: real)
    ensures Cross(Vector(a, b, c), Vector(e, f, g)) == Vector(b * g - c * f, -a * g + c * e, a * f - b * e)
  {
  }

  /**
   * Reflection across a unit normal flips the normal component, keeps the
   * length and the class, and undoes itself.
   */
  lemma ReflectProperties(u: V3, n: V3)
    requires MagnitudeSquared(n) == 1.0
    ensures Reflect(u, n).Some? && Reflect(u, n).value.kind == u.kind
    ensures Dot(Reflect(u, n).value, n) == -Dot(u, n)
    ensures MagnitudeSquared(Reflect(u, n).value) == MagnitudeSquared(u)
    ensures Reflect(Reflect(u, n).value, n) == Some(u)
  {
    ReflectFlipsNormal(u, n);
    ReflectKeepsLength(u, n);
    ReflectTwice(u, n);
  }

  lemma ReflectFlipsNormal(u: V3, n: V3)
    requires MagnitudeSquared(n) == 1.0
    ensures Dot(Reflection(u, n), n) == -Dot(u, n)
  {
    var d := Dot(u, n);
    var r := Reflection(u, n);
    assert r.x == u.x - 2.0 * d * n.x && r.y == u.y - 2.0 * d * n.y && r.z == u.z - 2.0 * d * n.z;
    assert Dot(r, n) == d - 2.0 * d * (n.x * n.x + n.y * n.y + n.z * n.z);
  }

  lemma ReflectKeepsLength(u: V3, n: V3)
    requires MagnitudeSquared(n) == 1.0
    ensures MagnitudeSquared(Reflection(u, n)) == MagnitudeSquared(u)
  {
    var d := Dot(u, n);
    var r := Reflection(u, n);
    assert r.x == u.x - 2.0 * d * n.x && r.y == u.y - 2.0 * d * n.y && r.z == u.z - 2.0 * d * n.z;
    assert MagnitudeSquared(r) == MagnitudeSquared(u) - 4.0 * d * d + 4.0 * d * d * (n.x * n.x + n.y * n.y + n.z * n.z);
  }

  lemma ReflectTwice(u: V3, n: V3)
    requires MagnitudeSquared(n) == 1.0
    ensures Reflection(Reflection(u, n), n) == u
  {
    var d := Dot(u, n);
    var r := Reflection(u, n);
    ReflectFlipsNormal(u, n);
    assert r.x == u.x - 2.0 * d * n.x && r.y == u.y - 2.0 * d * n.y && r.z == u.z - 2.0 * d * n.z;
    var t := Reflection(r, n);
    assert t.x == r.x + 2.0 * d * n.x && t.y == r.y + 2.0 * d * n.y && t.z == r.z + 2.0 * d * n.z;
  }

  /**
   * Snapping moves each coordinate by at most half a grid step;
   * (1.15, 1.15, 0.9) snaps to (1.25, 1.25, 1.0) on a 0.25 grid.
   */
  lemma SnapProperties(u: V3, grid: real)
    requires grid > 0.0
    ensures Snap(u, grid).Some?
    ensures -grid / 2.0 <= Snap(u, grid).value.x - u.x <= grid / 2.0
    ensures -grid / 2.0 <= Snap(u, grid).value.y - u.y <= grid / 2.0
    ensures -grid / 2.0 <= Snap(u, grid).value.z - u.z <= grid / 2.0
    ensures Snap(Vector(1.15, 1.15, 0.9), 0.25) == Some(Vector(1.25, 1.25, 1.0))
  {
    PlanePoint.SnapCoordinate(u.x, grid);
    PlanePoint.SnapCoordinate(u.y, grid);
    PlanePoint.SnapCoordinate(u.z, grid);
    SnapExample();
  }

  lemma SnapExample()
    ensures Snap(Vector(1.15, 1.15, 0.9), 0.25) == Some(Vector(1.25, 1.25, 1.0))
  {
    assert 1.15 / 0.25 == 4.6 && (4.6).Floor == 4;
    assert 0.9 / 0.25 == 3.6 && (3.6).Floor == 3;
  }

  /** Normalizing by the true magnitude gives a unit vector. */
  lemma NormalizedIsUnit(u: V3, d: real)
    requires d != 0.0 && d * d == MagnitudeSquared(u)
    ensures Normalized(u, d).Some? && MagnitudeSquared(Normalized(u, d).value) == 1.0
  {
    var r := Normalized(u, d).value;
    var m := MagnitudeSquared(r);
    assert u.x == r.x * d && u.y == r.y * d && u.z == r.z * d;
    assert MagnitudeSquared(u) == m * (d * d) by {
      assert u.x * u.x == (r.x * r.x) * (d * d);
      assert u.y * u.y == (r.y * r.y) * (d * d);
      assert u.z * u.z == (r.z * r.z) * (d * d);
    }
    UnitFromScale(m, d, MagnitudeSquared(u));
  }

  lemma UnitFromScale(m: real, d: real, sq: real)
    requires d != 0.0 && sq == m * (d * d) && sq == d * d
    ensures m == 1.0
  {
    assert ((m - 1.0) * d) * d == 0.0;
    PlanePoint.CancelNonzero((m - 1.0) * d, d);
    PlanePoint.CancelNonzero(m - 1.0, d);
  }

  lemma ProductQuotient(x: real, s: real, p: real)
    requires s != 0.0 && p == x * s
    ensures p / s == x
  {
  }

  /** The cross product of (a, b, c) and (e, f, g), dotted with (a, b, c), vanishes. */
  lemma TripleProductVanishes(a: real, b: real, c: real, e: real, f: real, g: real)
    ensures (b * g - c * f) * a + (-a * g + c * e) * b + (a * f - b * e) * c == 0.0
  {
  }
}
