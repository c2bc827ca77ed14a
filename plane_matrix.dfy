/**
 * `Matrix2` (petrify/plane/__init__.py): a 3 x 3 homogeneous transform of
 * the plane with entries
 *
 *     a b c
 *     e f g
 *     i j k
 *
 * The value type `Mat` carries the algebra; the class `Matrix2` is the
 * mutable object whose `*=` and item assignment rewrite its slots.
 */
module PlaneMatrix {
  import opened Wrappers
  import PlanePoint

  datatype Mat = Mat(a: real, b: real, c: real, e: real, f: real, g: real, i: real, j: real, k: real)

  /** A fresh `Matrix2()`: the identity. */
  function Identity(): Mat {
    Mat(1.0, 0.0, 0.0, 0.0, 1.0, 0.0, 0.0, 0.0, 1.0)
  }

  /** `M * N` for two matrices: the row-by-column product. */
  function Mul(m: Mat, n: Mat): Mat {
    Mat(m.a * n.a + m.b * n.e + m.c * n.i,
        m.a * n.b + m.b * n.f + m.c * n.j,
        m.a * n.c + m.b * n.g + m.c * n.k,
        m.e * n.a + m.f * n.e + m.g * n.i,
        m.e * n.b + m.f * n.f + m.g * n.j,
        m.e * n.c + m.f * n.g + m.g * n.k,
        m.i * n.a + m.j * n.e + m.k * n.i,
        m.i * n.b + m.j * n.f + m.k * n.j,
        m.i * n.c + m.j * n.g + m.k * n.k)
  }

  /**
   * `M * P` for a point or vector (and `P * M`, which dispatches to the
   * same code): the linear part applies to both, the translation (c, g)
   * only to a point; the bottom row is never consulted.
   */
  function Apply(m: Mat, w: PlanePoint.V2): (r: PlanePoint.V2)
    ensures r.kind == w.kind
  {
    match w.kind
    case PointKind => PlanePoint.Point(m.a * w.x + m.b * w.y + m.c, m.e * w.x + m.f * w.y + m.g)
    case VectorKind => PlanePoint.Vector(m.a * w.x + m.b * w.y, m.e * w.x + m.f * w.y)
  }

  /** The slots in the column-major order of `__getitem__`. */
  function ColumnMajor(m: Mat): (r: seq<real>)
    ensures |r| == 9
  {
    [m.a, m.e, m.i, m.b, m.f, m.j, m.c, m.g, m.k]
  }

  /** The matrix whose column-major slots are the nine given values. */
  function OfColumnMajor(s: seq<real>): Mat
    requires |s| == 9
  {
    Mat(s[0], s[3], s[6], s[1], s[4], s[7], s[2], s[5], s[8])
  }

  /** Python list indexing: -9 .. 8 are valid, negative keys count from the end. */
  function GetItem(m: Mat, key: int): Option<real> {
    if 0 <= key < 9 then Some(ColumnMajor(m)[key])
    else if -9 <= key < 0 then Some(ColumnMajor(m)[9 + key])
    else None
  }

  /** `__setitem__` with an integer key: rewrite one slot of the column-major list. */
  function WithItem(m: Mat, key: int, value: real): Option<Mat> {
    if 0 <= key < 9 then Some(OfColumnMajor(ColumnMajor(m)[key := value]))
    else if -9 <= key < 0 then Some(OfColumnMajor(ColumnMajor(m)[9 + key := value]))
    else None
  }

  /**
   * `from_values(*values)`: the whole column-major list replaced; unpacking
   * into the nine slots fails unless exactly nine values are given.
   */
  function FromValues(values: seq<real>): Option<Mat> {
    if |values| == 9 then Some(OfColumnMajor(values)) else None
  }

  /** `Matrix2.scale(x, y)`. */
  function Scale(x: real, y: real): Mat {
    Identity().(a := x, f := y)
  }

  /** `Matrix2.translate(x, y)`. */
  function Translate(x: real, y: real): Mat {
    Identity().(c := x, g := y)
  }

  /** `determinant()`: the rule of Sarrus. */
  function Determinant(m: Mat): real {
    m.a * m.f * m.k + m.b * m.g * m.i + m.c * m.e * m.j
    - m.a * m.g * m.j - m.b * m.e * m.k - m.c * m.f * m.i
  }

  /** The adjugate (transposed cofactors) that `inverse` scales by 1 / det. */
  function Adjugate(m: Mat): Mat {
    Mat(m.f * m.k - m.g * m.j, m.c * m.j - m.b * m.k, m.b * m.g - m.c * m.f,
        m.g * m.i - m.e * m.k, m.a * m.k - m.c * m.i, m.c * m.e - m.a * m.g,
        m.e * m.j - m.f * m.i, m.b * m.i - m.a * m.j, m.a * m.f - m.b * m.e)
  }

  function ScaleAll(s: real, m: Mat): Mat {
    Mat(s * m.a, s * m.b, s * m.c, s * m.e, s * m.f, s * m.g, s * m.i, s * m.j, s * m.k)
  }

  function Abs(x: real): real { if x < 0.0 then -x else x }

  /** `inverse()`: the identity when |det| < 0.001, else adjugate / det. */
  function Inverse(m: Mat): Mat {
    var d := Determinant(m);
    if Abs(d) < 0.001 then Identity()
    else ScaleAll(1.0 / d, Adjugate(m))
  }

  /** A matrix whose bottom row is (0, 0, 1), as every constructor here builds. */
  predicate Affine(m: Mat) {
    m.i == 0.0 && m.j == 0.0 && m.k == 1.0
  }

  /** The mutable matrix object. */
  class Matrix2 {
    var a: real, b: real, c: real
    var e: real, f: real, g: real
    var i: real, j: real, k: real

    /** `Matrix2()`: the identity. */
    constructor ()
      ensures Value() == Identity()
    {
      a, b, c := 1.0, 0.0, 0.0;
      e, f, g := 0.0, 1.0, 0.0;
      i, j, k := 0.0, 0.0, 1.0;
    }

    function Value(): Mat
      reads this
    {
      Mat(a, b, c, e, f, g, i, j, k)
    }

    /**
     * `__imul__`: every slot of `other` is read before any is written, so
     * `m *= m` squares m. Returns the same object.
     */
    method IMul(other: Matrix2) returns (r: Matrix2)
      modifies this
      ensures r == this
      ensures Value() == Mul(old(Value()), old(other.Value()))
    {
      var A := Value();
      var B := other.Value();
      var C := Mul(A, B);
      a, b, c := C.a, C.b, C.c;
      e, f, g := C.e, C.f, C.g;
      i, j, k := C.i, C.j, C.k;
      r := this;
    }

    /** `__setitem__` with an integer key; false (an IndexError) leaves the slots alone. */
    method SetItem(key: int, value: real) returns (ok: bool)
      modifies this
      ensures ok <==> -9 <= key < 9
      ensures ok ==> Value() == WithItem(old(Value()), key, value).value
      ensures !ok ==> Value() == old(Value())
    {
      var L := ColumnMajor(Value());
      var idx := if key < 0 then 9 + key else key;
      if idx < 0 || idx >= 9 {
        return false;
      }
      L := L[idx := value];
      a, e, i := L[0], L[1], L[2];
      b, f, j := L[3], L[4], L[5];
      c, g, k := L[6], L[7], L[8];
      ok := true;
    }
  }

  // ---------------------------------------------------------------------
  // Properties

  /** `__getitem__` and `from_values` agree: the column-major list round-trips. */
  lemma ColumnMajorRoundTrip(m: Mat, s: seq<real>)
    requires |s| == 9
    ensures OfColumnMajor(ColumnMajor(m)) == m
    ensures ColumnMajor(OfColumnMajor(s)) == s
    ensures FromValues(ColumnMajor(m)) == Some(m)
    ensures forall key :: 0 <= key < 9 ==> GetItem(FromValues(s).value, key) == Some(s[key])
  {
    assert ColumnMajor(OfColumnMajor(s)) == s;
  }

  /** Only nine values make a matrix. */
  lemma FromValuesNeedsNine(values: seq<real>)
    ensures FromValues(values).Some? <==> |values| == 9
  {
  }

  /**
   * Item assignment then lookup: the written key reads back the value and
   * every other slot is unchanged; a key outside -9 .. 8 is refused.
   */
  lemma SetThenGet(m: Mat, key: int, other: int, value: real)
    ensures WithItem(m, key, value).Some? <==> -9 <= key < 9
    ensures -9 <= key < 9 ==> GetItem(WithItem(m, key, value).value, key) == Some(value)
    ensures -9 <= key < 9 && 0 <= other < 9 && other != (if key < 0 then 9 + key else key) ==>
      GetItem(WithItem(m, key, value).value, other) == GetItem(m, other)
  {
    if -9 <= key < 9 {
      var idx := if key < 0 then 9 + key else key;
      var L := ColumnMajor(m)[idx := value];
      assert ColumnMajor(OfColumnMajor(L)) == L;
    }
  }

  /** The identity is neutral on both sides and fixes every point and vector. */
  lemma IdentityNeutral(m: Mat, w: PlanePoint.V2)
    ensures Mul(Identity(), m) == m && Mul(m, Identity()) == m
    ensures Apply(Identity(), w) == w
  {
  }

  /** The entries of a product, spelled out. */
  lemma MulEntries(m: Mat, n: Mat)
    ensures var P := Mul(m, n);
      P.a == m.a * n.a + m.b * n.e + m.c * n.i && P.b == m.a * n.b + m.b * n.f + m.c * n.j && P.c == m.a * n.c + m.b * n.g + m.c * n.k &&
      P.e == m.e * n.a + m.f * n.e + m.g * n.i && P.f == m.e * n.b + m.f * n.f + m.g * n.j && P.g == m.e * n.c + m.f * n.g + m.g * n.k &&
      P.i == m.i * n.a + m.j * n.e + m.k * n.i && P.j == m.i * n.b + m.j * n.f + m.k * n.j && P.k == m.i * n.c + m.j * n.g + m.k * n.k
  {
    MulTopRow(m, n);
    MulMiddleRow(m, n);
    MulBottomRow(m, n);
  }

  lemma MulTopRow(m: Mat, n: Mat)
    ensures var P := Mul(m, n);
      P.a == m.a * n.a + m.b * n.e + m.c * n.i && P.b == m.a * n.b + m.b * n.f + m.c * n.j && P.c == m.a * n.c + m.b * n.g + m.c * n.k
  {
  }

  lemma MulMiddleRow(m: Mat, n: Mat)
    ensures var P := Mul(m, n);
      P.e == m.e * n.a + m.f * n.e + m.g * n.i && P.f == m.e * n.b + m.f * n.f + m.g * n.j && P.g == m.e * n.c + m.f * n.g + m.g * n.k
  {
  }

  lemma MulBottomRow(m: Mat, n: Mat)
    ensures var P := Mul(m, n);
      P.i == m.i * n.a + m.j * n.e + m.k * n.i && P.j == m.i * n.b + m.j * n.f + m.k * n.j && P.k == m.i * n.c + m.j * n.g + m.k * n.k
  {
  }

  /** The entries of a scaled matrix, spelled out. */
  lemma ScaleAllEntries(s: real, n: Mat)
    ensures ScaleAll(s, n).a == s * n.a && ScaleAll(s, n).b == s * n.b && ScaleAll(s, n).c == s * n.c
    ensures ScaleAll(s, n).e == s * n.e && ScaleAll(s, n).f == s * n.f && ScaleAll(s, n).g == s * n.g
    ensures ScaleAll(s, n).i == s * n.i && ScaleAll(s, n).j == s * n.j && ScaleAll(s, n).k == s * n.k
  {
  }

  /** The adjugate's entries and the determinant, spelled out. */
  lemma AdjugateEntries(m: Mat)
    ensures Adjugate(m).a == m.f * m.k - m.g * m.j && Adjugate(m).b == m.c * m.j - m.b * m.k && Adjugate(m).c == m.b * m.g - m.c * m.f
    ensures Adjugate(m).e == m.g * m.i - m.e * m.k && Adjugate(m).f == m.a * m.k - m.c * m.i && Adjugate(m).g == m.c * m.e - m.a * m.g
    ensures Adjugate(m).i == m.e * m.j - m.f * m.i && Adjugate(m).j == m.b * m.i - m.a * m.j && Adjugate(m).k == m.a * m.f - m.b * m.e
    ensures Determinant(m) == m.a * m.f * m.k + m.b * m.g * m.i + m.c * m.e * m.j - m.a * m.g * m.j - m.b * m.e * m.k - m.c * m.f * m.i
  {
    AdjugateTopRow(m);
    AdjugateMiddleRow(m);
    AdjugateBottomRow(m);
  }

  lemma AdjugateTopRow(m: Mat)
    ensures Adjugate(m).a == m.f * m.k - m.g * m.j
    ensures Adjugate(m).b == m.c * m.j - m.b * m.k
    ensures Adjugate(m).c == m.b * m.g - m.c * m.f
  {
  }

  lemma AdjugateMiddleRow(m: Mat)
    ensures Adjugate(m).e == m.g * m.i - m.e * m.k
    ensures Adjugate(m).f == m.a * m.k - m.c * m.i
    ensures Adjugate(m).g == m.c * m.e - m.a * m.g
  {
  }

  lemma AdjugateBottomRow(m: Mat)
    ensures Adjugate(m).i == m.e * m.j - m.f * m.i
    ensures Adjugate(m).j == m.b * m.i - m.a * m.j
    ensures Adjugate(m).k == m.a * m.f - m.b * m.e
  {
  }

  /**
   * Expansion by cofactors over plain numbers: row r of (a..k) against
   * column c of its adjugate (xa..xk) gives the determinant d when r == c
   * and 0 otherwise.
   */
  lemma CofactorExpansion(a: real, b: real, c: real, e: real, f: real, g: real, i: real, j: real, k: real,
                          xa: real, xb: real, xc: real, xe: real, xf: real, xg: real, xi: real, xj: real, xk: real, d: real)
    requires xa == f * k - g * j && xb == c * j - b * k && xc == b * g - c * f
    requires xe == g * i - e * k && xf == a * k - c * i && xg == c * e - a * g
    requires xi == e * j - f * i && xj == b * i - a * j && xk == a * f - b * e
    requires d == a * f * k + b * g * i + c * e * j - a * g * j - b * e * k - c * f * i
    ensures a * xa + b * xe + c * xi == d && a * xb + b * xf + c * xj == 0.0 && a * xc + b * xg + c * xk == 0.0
    ensures e * xa + f * xe + g * xi == 0.0 && e * xb + f * xf + g * xj == d && e * xc + f * xg + g * xk == 0.0
    ensures i * xa + j * xe + k * xi == 0.0 && i * xb + j * xf + k * xj == 0.0 && i * xc + j * xg + k * xk == d
  {
    CofactorTop(a, b, c, e, f, g, i, j, k, xa, xb, xc, xe, xf, xg, xi, xj, xk, d);
    CofactorMiddle(a, b, c, e, f, g, i, j, k, xa, xb, xc, xe, xf, xg, xi, xj, xk, d);
    CofactorBottom(a, b, c, e, f, g, i, j, k, xa, xb, xc, xe, xf, xg, xi, xj, xk, d);
  }

  /** Row 1 of the expansion. */
  lemma CofactorTop(a: real, b: real, c: real, e: real, f: real, g: real, i: real, j: real, k: real,
                          xa: real, xb: real, xc: real, xe: real, xf: real, xg: real, xi: real, xj: real, xk: real, d: real)
    requires xa == f * k - g * j && xb == c * j - b * k && xc == b * g - c * f
    requires xe == g * i - e * k && xf == a * k - c * i && xg == c * e - a * g
    requires xi == e * j - f * i && xj == b * i - a * j && xk == a * f - b * e
    requires d == a * f * k + b * g * i + c * e * j - a * g * j - b * e * k - c * f * i
    ensures a * xa + b * xe + c * xi == d && a * xb + b * xf + c * xj == 0.0 && a * xc + b * xg + c * xk == 0.0
  {
    assert a * xa + b * xe + c * xi == a * (f * k - g * j) + b * (g * i - e * k) + c * (e * j - f * i);
    assert a * xb + b * xf + c * xj == a * (c * j - b * k) + b * (a * k - c * i) + c * (b * i - a * j);
    assert a * xc + b * xg + c * xk == a * (b * g - c * f) + b * (c * e - a * g) + c * (a * f - b * e);
  }

  /** Row 2 of the expansion. */
  lemma CofactorMiddle(a: real, b: real, c: real, e: real, f: real, g: real, i: real, j: real, k: real,
                          xa: real, xb: real, xc: real, xe: real, xf: real, xg: real, xi: real, xj: real, xk: real, d: real)
    requires xa == f * k - g * j && xb == c * j - b * k && xc == b * g - c * f
    requires xe == g * i - e * k && xf == a * k - c * i && xg == c * e - a * g
    requires xi == e * j - f * i && xj == b * i - a * j && xk == a * f - b * e
    requires d == a * f * k + b * g * i + c * e * j - a * g * j - b * e * k - c * f * i
    ensures e * xa + f * xe + g * xi == 0.0 && e * xb + f * xf + g * xj == d && e * xc + f * xg + g * xk == 0.0
  {
    assert e * xa + f * xe + g * xi == e * (f * k - g * j) + f * (g * i - e * k) + g * (e * j - f * i);
    assert e * xb + f * xf + g * xj == e * (c * j - b * k) + f * (a * k - c * i) + g * (b * i - a * j);
    assert e * xc + f * xg + g * xk == e * (b * g - c * f) + f * (c * e - a * g) + g * (a * f - b * e);
  }

  /** Row 3 of the expansion. */
  lemma CofactorBottom(a: real, b: real, c: real, e: real, f: real, g: real, i: real, j: real, k: real,
                          xa: real, xb: real, xc: real, xe: real, xf: real, xg: real, xi: real, xj: real, xk: real, d: real)
    requires xa == f * k - g * j && xb == c * j - b * k && xc == b * g - c * f
    requires xe == g * i - e * k && xf == a * k - c * i && xg == c * e - a * g
    requires xi == e * j - f * i && xj == b * i - a * j && xk == a * f - b * e
    requires d == a * f * k + b * g * i + c * e * j - a * g * j - b * e * k - c * f * i
    ensures i * xa + j * xe + k * xi == 0.0 && i * xb + j * xf + k * xj == 0.0 && i * xc + j * xg + k * xk == d
  {
    assert i * xa + j * xe + k * xi == i * (f * k - g * j) + j * (g * i - e * k) + k * (e * j - f * i);
    assert i * xb + j * xf + k * xj == i * (c * j - b * k) + j * (a * k - c * i) + k * (b * i - a * j);
    assert i * xc + j * xg + k * xk == i * (b * g - c * f) + j * (c * e - a * g) + k * (a * f - b * e);
  }

  /** The matrix times its adjugate is det times the identity. */
  lemma AdjugateProduct(m: Mat)
    ensures Mul(m, Adjugate(m)) == Mat(Determinant(m), 0.0, 0.0, 0.0, Determinant(m), 0.0, 0.0, 0.0, Determinant(m))
  {
    var A := Adjugate(m);
    AdjugateEntries(m);
    CofactorExpansion(m.a, m.b, m.c, m.e, m.f, m.g, m.i, m.j, m.k,
                      A.a, A.b, A.c, A.e, A.f, A.g, A.i, A.j, A.k, Determinant(m));
    MulEntries(m, A);
  }

  /** A dot product with a scaled column, over plain numbers. */
  lemma ScaledDot(p: real, q: real, r: real, y1: real, y2: real, y3: real, z1: real, z2: real, z3: real, s: real, t: real)
    requires z1 == s * y1 && z2 == s * y2 && z3 == s * y3 && t == p * y1 + q * y2 + r * y3
    ensures p * z1 + q * z2 + r * z3 == s * t
  {
  }

  /**
   * Over plain numbers: with (ia..ik) the adjugate (xa..xk) scaled by s and
   * s * det == 1, the rows of (a..k) against the columns of (ia..ik) give
   * the identity.
   */
  lemma InverseEntries(a: real, b: real, c: real, e: real, f: real, g: real, i: real, j: real, k: real,
                       xa: real, xb: real, xc: real, xe: real, xf: real, xg: real, xi: real, xj: real, xk: real, d: real,
                       s: real, ia: real, ib: real, ic: real, ie: real, if_: real, ig: real, ii: real, ij: real, ik: real)
    requires xa == f * k - g * j && xb == c * j - b * k && xc == b * g - c * f
    requires xe == g * i - e * k && xf == a * k - c * i && xg == c * e - a * g
    requires xi == e * j - f * i && xj == b * i - a * j && xk == a * f - b * e
    requires d == a * f * k + b * g * i + c * e * j - a * g * j - b * e * k - c * f * i
    requires ia == s * xa && ib == s * xb && ic == s * xc && ie == s * xe && if_ == s * xf
    requires ig == s * xg && ii == s * xi && ij == s * xj && ik == s * xk && s * d == 1.0
    ensures a * ia + b * ie + c * ii == 1.0 && a * ib + b * if_ + c * ij == 0.0 && a * ic + b * ig + c * ik == 0.0
    ensures e * ia + f * ie + g * ii == 0.0 && e * ib + f * if_ + g * ij == 1.0 && e * ic + f * ig + g * ik == 0.0
    ensures i * ia + j * ie + k * ii == 0.0 && i * ib + j * if_ + k * ij == 0.0 && i * ic + j * ig + k * ik == 1.0
  {
    CofactorExpansion(a, b, c, e, f, g, i, j, k, xa, xb, xc, xe, xf, xg, xi, xj, xk, d);
    ScaledDot(a, b, c, xa, xe, xi, ia, ie, ii, s, d);
    ScaledDot(a, b, c, xb, xf, xj, ib, if_, ij, s, 0.0);
    ScaledDot(a, b, c, xc, xg, xk, ic, ig, ik, s, 0.0);
    ScaledDot(e, f, g, xa, xe, xi, ia, ie, ii, s, 0.0);
    ScaledDot(e, f, g, xb, xf, xj, ib, if_, ij, s, d);
    ScaledDot(e, f, g, xc, xg, xk, ic, ig, ik, s, 0.0);
    ScaledDot(i, j, k, xa, xe, xi, ia, ie, ii, s, 0.0);
    ScaledDot(i, j, k, xb, xf, xj, ib, if_, ij, s, 0.0);
    ScaledDot(i, j, k, xc, xg, xk, ic, ig, ik, s, d);
  }

  lemma ReciprocalCancels(d: real)
    requires d != 0.0
    ensures (1.0 / d) * d == 1.0
  {
  }

  /**
   * `inverse()`: a nearly singular matrix (|det| < 0.001) gets the identity
   * back; any other matrix times its inverse is the identity.
   */
  lemma InverseProperties(m: Mat)
    ensures Abs(Determinant(m)) < 0.001 ==> Inverse(m) == Identity()
    ensures Abs(Determinant(m)) >= 0.001 ==> Mul(m, Inverse(m)) == Identity()
  {
    if Abs(Determinant(m)) >= 0.001 {
      ScaledAdjugateIsRightInverse(m);
    }
  }

  /** For a nonzero determinant, adjugate / det is a right inverse. */
  lemma ScaledAdjugateIsRightInverse(m: Mat)
    requires Determinant(m) != 0.0
    ensures Mul(m, ScaleAll(1.0 / Determinant(m), Adjugate(m))) == Identity()
  {
    ReciprocalCancels(Determinant(m));
    ScaledAdjugateProduct(m, 1.0 / Determinant(m));
  }

  /** The matrix times s * adjugate is the identity when s * det == 1. */
  lemma ScaledAdjugateProduct(m: Mat, s: real)
    requires s * Determinant(m) == 1.0
    ensures Mul(m, ScaleAll(s, Adjugate(m))) == Identity()
  {
    var A := Adjugate(m);
    var N := ScaleAll(s, A);
    ScaleAllEntries(s, A);
    AdjugateEntries(m);
    InverseEntries(m.a, m.b, m.c, m.e, m.f, m.g, m.i, m.j, m.k,
                   A.a, A.b, A.c, A.e, A.f, A.g, A.i, A.j, A.k, Determinant(m),
                   s, N.a, N.b, N.c, N.e, N.f, N.g, N.i, N.j, N.k);
    MulEntries(m, N);
  }

  /** Applying a matrix to a point, spelled out per coordinate. */
  lemma ApplyEntries(m: Mat, w: PlanePoint.V2)
    ensures Apply(m, w).x == m.a * w.x + m.b * w.y + (if w.kind == PlanePoint.PointKind then m.c else 0.0)
    ensures Apply(m, w).y == m.e * w.x + m.f * w.y + (if w.kind == PlanePoint.PointKind then m.g else 0.0)
  {
  }

  /**
   * Applying a product is applying its factors in turn, for matrices with
   * bottom row (0, 0, 1); products of such matrices keep that row.
   */
  lemma ApplyComposes(m: Mat, n: Mat, w: PlanePoint.V2)
    requires Affine(n)
    ensures Apply(Mul(m, n), w) == Apply(m, Apply(n, w))
    ensures Affine(m) ==> Affine(Mul(m, n))
  {
    var P := Mul(m, n);
    AffineMulEntries(m, n, P);
    if w.kind == PlanePoint.PointKind {
      ComposePoint(m, n, P, w);
    } else {
      ComposeVector(m, n, P, w);
    }
  }

  /** A product with a zero factor. */
  lemma ZeroFactor(x: real, y: real)
    requires y == 0.0
    ensures x * y == 0.0 && y * x == 0.0
  {
  }

  /** The top two rows of a product with an affine right factor, and its bottom row. */
  lemma AffineMulEntries(m: Mat, n: Mat, P: Mat)
    requires Affine(n) && P == Mul(m, n)
    ensures P.a == m.a * n.a + m.b * n.e && P.b == m.a * n.b + m.b * n.f && P.c == m.a * n.c + m.b * n.g + m.c
    ensures P.e == m.e * n.a + m.f * n.e && P.f == m.e * n.b + m.f * n.f && P.g == m.e * n.c + m.f * n.g + m.g
    ensures Affine(m) ==> Affine(P)
  {
    MulEntries(m, n);
    ZeroFactor(m.c, n.i);
    ZeroFactor(m.c, n.j);
    ZeroFactor(m.g, n.i);
    ZeroFactor(m.g, n.j);
    if Affine(m) {
      ZeroFactor(n.a, m.i);
      ZeroFactor(n.b, m.i);
      ZeroFactor(n.c, m.i);
      ZeroFactor(n.e, m.j);
      ZeroFactor(n.f, m.j);
      ZeroFactor(n.g, m.j);
      ZeroFactor(m.k, n.i);
      ZeroFactor(m.k, n.j);
    }
  }

  /** One row of a composed transform applied to a point, over plain numbers. */
  lemma PointRow(ma: real, mb: real, mc: real, na: real, nb: real, nc: real, ne: real, nf: real, ng: real,
                 x: real, y: real, pa: real, pb: real, pc: real, u: real, v: real)
    requires pa == ma * na + mb * ne && pb == ma * nb + mb * nf && pc == ma * nc + mb * ng + mc
    requires u == na * x + nb * y + nc && v == ne * x + nf * y + ng
    ensures pa * x + pb * y + pc == ma * u + mb * v + mc
  {
  }

  /** One row of a composed transform applied to a vector, over plain numbers. */
  lemma VectorRow(ma: real, mb: real, na: real, nb: real, ne: real, nf: real,
                  x: real, y: real, pa: real, pb: real, u: real, v: real)
    requires pa == ma * na + mb * ne && pb == ma * nb + mb * nf
    requires u == na * x + nb * y && v == ne * x + nf * y
    ensures pa * x + pb * y == ma * u + mb * v
  {
  }

  /** A point under P, whose top rows are those of m * n, is the point under n and then m. */
  lemma ComposePoint(m: Mat, n: Mat, P: Mat, w: PlanePoint.V2)
    requires w.kind == PlanePoint.PointKind
    requires P.a == m.a * n.a + m.b * n.e && P.b == m.a * n.b + m.b * n.f && P.c == m.a * n.c + m.b * n.g + m.c
    requires P.e == m.e * n.a + m.f * n.e && P.f == m.e * n.b + m.f * n.f && P.g == m.e * n.c + m.f * n.g + m.g
    ensures Apply(P, w) == Apply(m, Apply(n, w))
  {
    var W := Apply(n, w);
    ComposePointRow(m.a, m.b, m.c, n, P.a, P.b, P.c, w);
    ComposePointRow(m.e, m.f, m.g, n, P.e, P.f, P.g, w);
    assert Apply(P, w).x == Apply(m, W).x && Apply(P, w).y == Apply(m, W).y;
  }

  /** One row (ma, mb, mc) of the left factor, and the same row (pa, pb, pc) of the product, at a point. */
  lemma ComposePointRow(ma: real, mb: real, mc: real, n: Mat, pa: real, pb: real, pc: real, w: PlanePoint.V2)
    requires w.kind == PlanePoint.PointKind
    requires pa == ma * n.a + mb * n.e && pb == ma * n.b + mb * n.f && pc == ma * n.c + mb * n.g + mc
    ensures pa * w.x + pb * w.y + pc == ma * Apply(n, w).x + mb * Apply(n, w).y + mc
  {
    var W := Apply(n, w);
    PointRow(ma, mb, mc, n.a, n.b, n.c, n.e, n.f, n.g, w.x, w.y, pa, pb, pc, W.x, W.y);
  }

  /** The same for a vector, which the translation column does not touch. */
  lemma ComposeVector(m: Mat, n: Mat, P: Mat, w: PlanePoint.V2)
    requires w.kind == PlanePoint.VectorKind
    requires P.a == m.a * n.a + m.b * n.e && P.b == m.a * n.b + m.b * n.f
    requires P.e == m.e * n.a + m.f * n.e && P.f == m.e * n.b + m.f * n.f
    ensures Apply(P, w) == Apply(m, Apply(n, w))
  {
    var W := Apply(n, w);
    ComposeVectorRow(m.a, m.b, n, P.a, P.b, w);
    ComposeVectorRow(m.e, m.f, n, P.e, P.f, w);
    assert Apply(P, w).x == Apply(m, W).x && Apply(P, w).y == Apply(m, W).y;
  }

  /** One row of the left factor and of the product, at a vector. */
  lemma ComposeVectorRow(ma: real, mb: real, n: Mat, pa: real, pb: real, w: PlanePoint.V2)
    requires w.kind == PlanePoint.VectorKind
    requires pa == ma * n.a + mb * n.e && pb == ma * n.b + mb * n.f
    ensures pa * w.x + pb * w.y == ma * Apply(n, w).x + mb * Apply(n, w).y
  {
    var W := Apply(n, w);
    VectorRow(ma, mb, n.a, n.b, n.e, n.f, w.x, w.y, pa, pb, W.x, W.y);
  }

  /** `scale(x, y)` multiplies the coordinates of points and vectors alike; the doctest scales (1, 1) by (2, 3). */
  lemma ScaleApplies(x: real, y: real, w: PlanePoint.V2)
    ensures Apply(Scale(x, y), w) == PlanePoint.V2(w.kind, x * w.x, y * w.y)
    ensures Affine(Scale(x, y))
    ensures Apply(Scale(2.0, 3.0), PlanePoint.Point(1.0, 1.0)) == PlanePoint.Point(2.0, 3.0)
  {
    ApplyEntries(Scale(x, y), w);
  }

  /** `translate(x, y)` moves points and leaves vectors alone; the doctest moves (1, 1) by (2, 3). */
  lemma TranslateApplies(x: real, y: real, w: PlanePoint.V2)
    ensures Apply(Translate(x, y), w) == (if w.kind == PlanePoint.PointKind then PlanePoint.Point(w.x + x, w.y + y) else w)
    ensures Affine(Translate(x, y))
    ensures Apply(Translate(2.0, 3.0), PlanePoint.Point(1.0, 1.0)) == PlanePoint.Point(3.0, 4.0)
  {
    ApplyEntries(Translate(x, y), w);
  }
}
