/**
 * `Matrix3` and `Quaternion` (petrify/space/transform.py). A Matrix3 is a
 * 4 x 4 homogeneous transform with entries
 *
 *     a b c d
 *     e f g h
 *     i j k l
 *     m n o p
 *
 * The value types `Mat4` and `Quat` carry the algebra; the classes
 * `Matrix3` and `QuaternionObject` are the mutable objects whose in-place
 * operators rewrite their slots.
 */
module SpaceTransform {
  import opened Wrappers
  import PlanePoint
  import SpacePoint

  datatype Mat4 = Mat4(a: real, b: real, c: real, d: real,
                       e: real, f: real, g: real, h: real,
                       i: real, j: real, k: real, l: real,
                       m: real, n: real, o: real, p: real)

  /** A fresh `Matrix3()`: the identity. */
  function Identity(): Mat4 {
    Mat4(1.0, 0.0, 0.0, 0.0,
         0.0, 1.0, 0.0, 0.0,
         0.0, 0.0, 1.0, 0.0,
         0.0, 0.0, 0.0, 1.0)
  }

  /** `A * B` for two matrices: the row-by-column product. */
  function Mul(A: Mat4, B: Mat4): Mat4 {
    Mat4(A.a * B.a + A.b * B.e + A.c * B.i + A.d * B.m,
         A.a * B.b + A.b * B.f + A.c * B.j + A.d * B.n,
         A.a * B.c + A.b * B.g + A.c * B.k + A.d * B.o,
         A.a * B.d + A.b * B.h + A.c * B.l + A.d * B.p,
         A.e * B.a + A.f * B.e + A.g * B.i + A.h * B.m,
         A.e * B.b + A.f * B.f + A.g * B.j + A.h * B.n,
         A.e * B.c + A.f * B.g + A.g * B.k + A.h * B.o,
         A.e * B.d + A.f * B.h + A.g * B.l + A.h * B.p,
         A.i * B.a + A.j * B.e + A.k * B.i + A.l * B.m,
         A.i * B.b + A.j * B.f + A.k * B.j + A.l * B.n,
         A.i * B.c + A.j * B.g + A.k * B.k + A.l * B.o,
         A.i * B.d + A.j * B.h + A.k * B.l + A.l * B.p,
         A.m * B.a + A.n * B.e + A.o * B.i + A.p * B.m,
         A.m * B.b + A.n * B.f + A.o * B.j + A.p * B.n,
         A.m * B.c + A.n * B.g + A.o * B.k + A.p * B.o,
         A.m * B.d + A.n * B.h + A.o * B.l + A.p * B.p)
  }

  /**
   * `M * P` for a point or vector: the upper 3 x 3 block applies to both,
   * the translation (d, h, l) only to a point; the bottom row is ignored.
   */
  function Apply(M: Mat4, w: SpacePoint.V3): (r: SpacePoint.V3)
    ensures r.kind == w.kind
  {
    match w.kind
    case PointKind =>
      SpacePoint.Point(M.a * w.x + M.b * w.y + M.c * w.z + M.d,
                       M.e * w.x + M.f * w.y + M.g * w.z + M.h,
                       M.i * w.x + M.j * w.y + M.k * w.z + M.l)
    case VectorKind =>
      SpacePoint.Vector(M.a * w.x + M.b * w.y + M.c * w.z,
                        M.e * w.x + M.f * w.y + M.g * w.z,
                        M.i * w.x + M.j * w.y + M.k * w.z)
  }

  /** The slots in the column-major order of `__getitem__`. */
  function ColumnMajor(M: Mat4): (r: seq<real>)
    ensures |r| == 16
  {
    [M.a, M.e, M.i, M.m, M.b, M.f, M.j, M.n, M.c, M.g, M.k, M.o, M.d, M.h, M.l, M.p]
  }

  /** The matrix whose column-major slots are the sixteen given values. */
  function OfColumnMajor(s: seq<real>): Mat4
    requires |s| == 16
  {
    Mat4(s[0], s[4], s[8], s[12],
         s[1], s[5], s[9], s[13],
         s[2], s[6], s[10], s[14],
         s[3], s[7], s[11], s[15])
  }

  /** `__getitem__` with an integer key: Python list indexing into the column-major slots. */
  function GetItem(M: Mat4, key: int): Option<real> {
    if 0 <= key < 16 then Some(ColumnMajor(M)[key])
    else if -16 <= key < 0 then Some(ColumnMajor(M)[16 + key])
    else None
  }

  /** `__setitem__` with an integer key: one column-major slot rewritten; None is an IndexError. */
  function WithItem(M: Mat4, key: int, value: real): Option<Mat4> {
    if 0 <= key < 16 then Some(OfColumnMajor(ColumnMajor(M)[key := value]))
    else if -16 <= key < 0 then Some(OfColumnMajor(ColumnMajor(M)[16 + key := value]))
    else None
  }

  /**
   * `Matrix3.new(*values)`: the slice assignment replaces the whole list,
   * and unpacking it into the slots fails unless there are sixteen values.
   */
  function New(values: seq<real>): Option<Mat4> {
    if |values| == 16 then Some(OfColumnMajor(values)) else None
  }

  /** `transpose`/`transposed`: rows become columns. */
  function Transpose(M: Mat4): Mat4 {
    Mat4(M.a, M.e, M.i, M.m,
         M.b, M.f, M.j, M.n,
         M.c, M.g, M.k, M.o,
         M.d, M.h, M.l, M.p)
  }

  /** `Matrix3.scale(x, y, z)`. */
  function Scale(x: real, y: real, z: real): Mat4 {
    Identity().(a := x, f := y, k := z)
  }

  /** `Matrix3.translate(x, y, z)`. */
  function Translate(x: real, y: real, z: real): Mat4 {
    Identity().(d := x, h := y, l := z)
  }

  /** `determinant()`: the expansion into products of 2 x 2 minors of the top and bottom row pairs. */
  function Determinant(M: Mat4): real {
    (M.a * M.f - M.e * M.b) * (M.k * M.p - M.o * M.l)
    - (M.a * M.j - M.i * M.b) * (M.g * M.p - M.o * M.h)
    + (M.a * M.n - M.m * M.b) * (M.g * M.l - M.k * M.h)
    + (M.e * M.j - M.i * M.f) * (M.c * M.p - M.o * M.d)
    - (M.e * M.n - M.m * M.f) * (M.c * M.l - M.k * M.d)
    + (M.i * M.n - M.m * M.j) * (M.c * M.h - M.g * M.d)
  }

  /** The adjugate that `inverse` scales by 1 / det, entry by entry as the source writes it. */
  function Adjugate(M: Mat4): Mat4 {
    Mat4(
      M.f * (M.k * M.p - M.o * M.l) + M.j * (M.o * M.h - M.g * M.p) + M.n * (M.g * M.l - M.k * M.h),
      M.j * (M.c * M.p - M.o * M.d) + M.n * (M.k * M.d - M.c * M.l) + M.b * (M.o * M.l - M.k * M.p),
      M.n * (M.c * M.h - M.g * M.d) + M.b * (M.g * M.p - M.o * M.h) + M.f * (M.o * M.d - M.c * M.p),
      M.b * (M.k * M.h - M.g * M.l) + M.f * (M.c * M.l - M.k * M.d) + M.j * (M.g * M.d - M.c * M.h),
      M.g * (M.i * M.p - M.m * M.l) + M.k * (M.m * M.h - M.e * M.p) + M.o * (M.e * M.l - M.i * M.h),
      M.k * (M.a * M.p - M.m * M.d) + M.o * (M.i * M.d - M.a * M.l) + M.c * (M.m * M.l - M.i * M.p),
      M.o * (M.a * M.h - M.e * M.d) + M.c * (M.e * M.p - M.m * M.h) + M.g * (M.m * M.d - M.a * M.p),
      M.c * (M.i * M.h - M.e * M.l) + M.g * (M.a * M.l - M.i * M.d) + M.k * (M.e * M.d - M.a * M.h),
      M.h * (M.i * M.n - M.m * M.j) + M.l * (M.m * M.f - M.e * M.n) + M.p * (M.e * M.j - M.i * M.f),
      M.l * (M.a * M.n - M.m * M.b) + M.p * (M.i * M.b - M.a * M.j) + M.d * (M.m * M.j - M.i * M.n),
      M.p * (M.a * M.f - M.e * M.b) + M.d * (M.e * M.n - M.m * M.f) + M.h * (M.m * M.b - M.a * M.n),
      M.d * (M.i * M.f - M.e * M.j) + M.h * (M.a * M.j - M.i * M.b) + M.l * (M.e * M.b - M.a * M.f),
      M.e * (M.n * M.k - M.j * M.o) + M.i * (M.f * M.o - M.n * M.g) + M.m * (M.j * M.g - M.f * M.k),
      M.i * (M.n * M.c - M.b * M.o) + M.m * (M.b * M.k - M.j * M.c) + M.a * (M.j * M.o - M.n * M.k),
      M.m * (M.f * M.c - M.b * M.g) + M.a * (M.n * M.g - M.f * M.o) + M.e * (M.b * M.o - M.n * M.c),
      M.a * (M.f * M.k - M.j * M.g) + M.e * (M.j * M.c - M.b * M.k) + M.i * (M.b * M.g - M.f * M.c))
  }

  function ScaleAll(s: real, M: Mat4): Mat4 {
    Mat4(Times(s, M.a), Times(s, M.b), Times(s, M.c), Times(s, M.d),
         Times(s, M.e), Times(s, M.f), Times(s, M.g), Times(s, M.h),
         Times(s, M.i), Times(s, M.j), Times(s, M.k), Times(s, M.l),
         Times(s, M.m), Times(s, M.n), Times(s, M.o), Times(s, M.p))
  }

  /** One entry of a scaled matrix. */
  function Times(s: real, x: real): real { s * x }

  /** `inverse()`: the identity when |det| < 0.001, else adjugate / det. */
  function Inverse(M: Mat4): Mat4 {
    var det := Determinant(M);
    if PlaneAbs(det) < 0.001 then Identity()
    else ScaleAll(1.0 / det, Adjugate(M))
  }

  function PlaneAbs(x: real): real { if x < 0.0 then -x else x }

  /** A matrix whose bottom row is (0, 0, 0, 1), as scale and translate build. */
  predicate Affine(M: Mat4) {
    M.m == 0.0 && M.n == 0.0 && M.o == 0.0 && M.p == 1.0
  }

  /**
   * The mutable matrix object. Its sixteen slots are held as one `Mat4`
   * value, which the in-place operations replace.
   */
  class Matrix3 {
    var slots: Mat4

    /** `Matrix3()`: the identity. */
    constructor ()
      ensures slots == Identity()
    {
      slots := Identity();
    }

    /**
     * `__imul__`: every slot of both operands is read before any is
     * written, so `M *= M` squares M. Returns the same object.
     */
    method IMul(other: Matrix3) returns (r: Matrix3)
      modifies this
      ensures r == this
      ensures slots == Mul(old(slots), old(other.slots))
    {
      slots := Mul(slots, other.slots);
      r := this;
    }

    /** `transpose()`: the slots are permuted in place by one tuple assignment. */
    method TransposeInPlace()
      modifies this
      ensures slots == Transpose(old(slots))
    {
      var M := slots;
      slots := Mat4(M.a, M.e, M.i, M.m, M.b, M.f, M.j, M.n, M.c, M.g, M.k, M.o, M.d, M.h, M.l, M.p);
    }

    /** `transposed()`: a transposed copy; the original is left as it was. */
    method Transposed() returns (r: Matrix3)
      ensures fresh(r)
      ensures r.slots == Transpose(slots)
    {
      r := new Matrix3();
      r.slots := slots;
      r.TransposeInPlace();
    }

    /** `__setitem__` with an integer key; false (an IndexError) leaves the slots alone. */
    method SetItem(key: int, value: real) returns (ok: bool)
      modifies this
      ensures ok <==> -16 <= key < 16
      ensures ok ==> slots == WithItem(old(slots), key, value).value
      ensures !ok ==> slots == old(slots)
    {
      var L := ColumnMajor(slots);
      var idx := if key < 0 then 16 + key else key;
      if idx < 0 || idx >= 16 {
        return false;
      }
      L := L[idx := value];
      slots := OfColumnMajor(L);
      ok := true;
    }
  }

  // ---------------------------------------------------------------------
  // Quaternions

  /** A quaternion: w is the real part, (x, y, z) the imaginary parts. */
  datatype Quat = Quat(w: real, x: real, y: real, z: real)

  /** `Quaternion()` and `identity()`: 1. */
  function QIdentity(): Quat { Quat(1.0, 0.0, 0.0, 0.0) }

  /** `A * B` for two quaternions (the Hamilton product). */
  function QMul(A: Quat, B: Quat): Quat {
    Quat(-A.x * B.x - A.y * B.y - A.z * B.z + A.w * B.w,
         A.x * B.w + A.y * B.z - A.z * B.y + A.w * B.x,
         -A.x * B.z + A.y * B.w + A.z * B.x + A.w * B.y,
         A.x * B.y - A.y * B.x + A.z * B.w + A.w * B.z)
  }

  /** `conjugated()`: the imaginary parts negated, the real part kept. */
  function Conjugated(q: Quat): Quat { Quat(q.w, -q.x, -q.y, -q.z) }

  function QMagnitudeSquared(q: Quat): real { q.w * q.w + q.x * q.x + q.y * q.y + q.z * q.z }

  /** The mutable quaternion object. */
  class QuaternionObject {
    var w: real, x: real, y: real, z: real

    constructor ()
      ensures Value() == QIdentity()
    {
      w, x, y, z := 1.0, 0.0, 0.0, 0.0;
    }

    function Value(): Quat
      reads this
    {
      Quat(w, x, y, z)
    }

    /** `__imul__`: the product computed from the old slots; returns the same object. */
    method IMul(other: QuaternionObject) returns (r: QuaternionObject)
      modifies this
      ensures r == this
      ensures Value() == QMul(old(Value()), old(other.Value()))
    {
      var Q := QMul(Value(), other.Value());
      w, x, y, z := Q.w, Q.x, Q.y, Q.z;
      r := this;
    }

    /** `identity()`: reset to 1 in place. */
    method SetIdentity() returns (r: QuaternionObject)
      modifies this
      ensures r == this && Value() == QIdentity()
    {
      w, x, y, z := 1.0, 0.0, 0.0, 0.0;
      r := this;
    }
  }

  // ---------------------------------------------------------------------
  // Properties of the matrix

  /** `__getitem__` and `new` agree: the column-major list round-trips. */
  lemma ColumnMajorRoundTrip(M: Mat4, s: seq<real>)
    requires |s| == 16
    ensures OfColumnMajor(ColumnMajor(M)) == M
    ensures ColumnMajor(OfColumnMajor(s)) == s
    ensures New(ColumnMajor(M)) == Some(M)
    ensures forall key :: 0 <= key < 16 ==> GetItem(New(s).value, key) == Some(s[key])
  {
    assert ColumnMajor(OfColumnMajor(s)) == s;
  }

  /** `new` needs exactly sixteen values. */
  lemma NewNeedsSixteen(values: seq<real>)
    ensures New(values).Some? <==> |values| == 16
  {
  }

  /** A slot that was set reads back; every other slot is unchanged. */
  lemma SetThenGet(M: Mat4, key: int, other: int, value: real)
    ensures WithItem(M, key, value).Some? <==> -16 <= key < 16
    ensures -16 <= key < 16 ==> GetItem(WithItem(M, key, value).value, key) == Some(value)
    ensures -16 <= key < 16 && 0 <= other < 16 && other != (if key < 0 then 16 + key else key) ==>
      GetItem(WithItem(M, key, value).value, other) == GetItem(M, other)
  {
    if -16 <= key < 16 {
      var idx := if key < 0 then 16 + key else key;
      ColumnMajorRoundTrip(M, ColumnMajor(M)[idx := value]);
    }
  }

  /** Transposing twice restores the matrix; the transpose swaps the two column-major orders. */
  lemma TransposeInvolution(M: Mat4)
    ensures Transpose(Transpose(M)) == M
    ensures forall key :: 0 <= key < 16 ==> ColumnMajor(Transpose(M))[key] == ColumnMajor(M)[4 * (key % 4) + key / 4]
  {
    var t, c := ColumnMajor(Transpose(M)), ColumnMajor(M);
    assert t == [M.a, M.b, M.c, M.d, M.e, M.f, M.g, M.h, M.i, M.j, M.k, M.l, M.m, M.n, M.o, M.p];
    forall key | 0 <= key < 16
      ensures t[key] == c[4 * (key % 4) + key / 4]
    {
      SlotCases(key);
    }
  }

  /** The sixteen slots, one by one. */
  lemma SlotCases(key: int)
    requires 0 <= key < 16
    ensures key == 0 || key == 1 || key == 2 || key == 3 || key == 4 || key == 5 || key == 6 || key == 7 ||
            key == 8 || key == 9 || key == 10 || key == 11 || key == 12 || key == 13 || key == 14 || key == 15
  {
  }

  /** The identity is neutral for the product and leaves points and vectors alone. */
  lemma IdentityNeutral(M: Mat4, w: SpacePoint.V3)
    ensures Mul(Identity(), M) == M && Mul(M, Identity()) == M
    ensures Apply(Identity(), w) == w
  {
  }

  /** The homogeneous weight of a point (1) or a vector (0). */
  function Weight(w: SpacePoint.V3): real {
    match w.kind
    case PointKind => 1.0
    case VectorKind => 0.0
  }

  /** Applying a matrix, spelled out per coordinate. */
  lemma ApplyEntries(M: Mat4, w: SpacePoint.V3)
    ensures Apply(M, w).x == M.a * w.x + M.b * w.y + M.c * w.z + Weight(w) * M.d
    ensures Apply(M, w).y == M.e * w.x + M.f * w.y + M.g * w.z + Weight(w) * M.h
    ensures Apply(M, w).z == M.i * w.x + M.j * w.y + M.k * w.z + Weight(w) * M.l
  {
  }

  /** One coordinate of a composed transform over plain numbers. */
  lemma ComposeCoordinate(ma: real, mb: real, mc: real, md: real,
                          na: real, nb: real, nc: real, nd: real,
                          ne: real, nf: real, ng: real, nh: real,
                          ni: real, nj: real, nk: real, nl: real,
                          x: real, y: real, z: real, t: real,
                          pa: real, pb: real, pc: real, pd: real, u: real, v: real, s: real)
    requires pa == ma * na + mb * ne + mc * ni && pb == ma * nb + mb * nf + mc * nj
    requires pc == ma * nc + mb * ng + mc * nk && pd == ma * nd + mb * nh + mc * nl + md
    requires u == na * x + nb * y + nc * z + t * nd
    requires v == ne * x + nf * y + ng * z + t * nh
    requires s == ni * x + nj * y + nk * z + t * nl
    ensures pa * x + pb * y + pc * z + t * pd == ma * u + mb * v + mc * s + t * md
  {
  }

  lemma MulEntries(A: Mat4, B: Mat4)
    ensures Mul(A, B).a == A.a * B.a + A.b * B.e + A.c * B.i + A.d * B.m
    ensures Mul(A, B).b == A.a * B.b + A.b * B.f + A.c * B.j + A.d * B.n
    ensures Mul(A, B).c == A.a * B.c + A.b * B.g + A.c * B.k + A.d * B.o
    ensures Mul(A, B).d == A.a * B.d + A.b * B.h + A.c * B.l + A.d * B.p
    ensures Mul(A, B).e == A.e * B.a + A.f * B.e + A.g * B.i + A.h * B.m
    ensures Mul(A, B).f == A.e * B.b + A.f * B.f + A.g * B.j + A.h * B.n
    ensures Mul(A, B).g == A.e * B.c + A.f * B.g + A.g * B.k + A.h * B.o
    ensures Mul(A, B).h == A.e * B.d + A.f * B.h + A.g * B.l + A.h * B.p
    ensures Mul(A, B).i == A.i * B.a + A.j * B.e + A.k * B.i + A.l * B.m
    ensures Mul(A, B).j == A.i * B.b + A.j * B.f + A.k * B.j + A.l * B.n
    ensures Mul(A, B).k == A.i * B.c + A.j * B.g + A.k * B.k + A.l * B.o
    ensures Mul(A, B).l == A.i * B.d + A.j * B.h + A.k * B.l + A.l * B.p
    ensures Mul(A, B).m == A.m * B.a + A.n * B.e + A.o * B.i + A.p * B.m
    ensures Mul(A, B).n == A.m * B.b + A.n * B.f + A.o * B.j + A.p * B.n
    ensures Mul(A, B).o == A.m * B.c + A.n * B.g + A.o * B.k + A.p * B.o
    ensures Mul(A, B).p == A.m * B.d + A.n * B.h + A.o * B.l + A.p * B.p
  {
    MulRow0(A, B);
    MulRow1(A, B);
    MulRow2(A, B);
    MulRow3(A, B);
  }

  /** The entries of the top row of a product. */
  lemma MulRow0(A: Mat4, B: Mat4)
    ensures Mul(A, B).a == A.a * B.a + A.b * B.e + A.c * B.i + A.d * B.m
    ensures Mul(A, B).b == A.a * B.b + A.b * B.f + A.c * B.j + A.d * B.n
    ensures Mul(A, B).c == A.a * B.c + A.b * B.g + A.c * B.k + A.d * B.o
    ensures Mul(A, B).d == A.a * B.d + A.b * B.h + A.c * B.l + A.d * B.p
  {
  }

  /** The entries of the second row of a product. */
  lemma MulRow1(A: Mat4, B: Mat4)
    ensures Mul(A, B).e == A.e * B.a + A.f * B.e + A.g * B.i + A.h * B.m
    ensures Mul(A, B).f == A.e * B.b + A.f * B.f + A.g * B.j + A.h * B.n
    ensures Mul(A, B).g == A.e * B.c + A.f * B.g + A.g * B.k + A.h * B.o
    ensures Mul(A, B).h == A.e * B.d + A.f * B.h + A.g * B.l + A.h * B.p
  {
  }

  /** The entries of the third row of a product. */
  lemma MulRow2(A: Mat4, B: Mat4)
    ensures Mul(A, B).i == A.i * B.a + A.j * B.e + A.k * B.i + A.l * B.m
    ensures Mul(A, B).j == A.i * B.b + A.j * B.f + A.k * B.j + A.l * B.n
    ensures Mul(A, B).k == A.i * B.c + A.j * B.g + A.k * B.k + A.l * B.o
    ensures Mul(A, B).l == A.i * B.d + A.j * B.h + A.k * B.l + A.l * B.p
  {
  }

  /** The entries of the bottom row of a product. */
  lemma MulRow3(A: Mat4, B: Mat4)
    ensures Mul(A, B).m == A.m * B.a + A.n * B.e + A.o * B.i + A.p * B.m
    ensures Mul(A, B).n == A.m * B.b + A.n * B.f + A.o * B.j + A.p * B.n
    ensures Mul(A, B).o == A.m * B.c + A.n * B.g + A.o * B.k + A.p * B.o
    ensures Mul(A, B).p == A.m * B.d + A.n * B.h + A.o * B.l + A.p * B.p
  {
  }

  /**
   * Applying a product is applying its factors in turn, when the right
   * factor has bottom row (0, 0, 0, 1); products of such matrices keep it.
   */
  lemma ApplyComposes(A: Mat4, B: Mat4, w: SpacePoint.V3)
    requires Affine(B)
    ensures Apply(Mul(A, B), w) == Apply(A, Apply(B, w))
    ensures Affine(A) ==> Affine(Mul(A, B))
  {
    ComposesX(A, B, w);
    ComposesY(A, B, w);
    ComposesZ(A, B, w);
    MulEntries(A, B);
  }

  lemma ComposesX(A: Mat4, B: Mat4, w: SpacePoint.V3)
    requires Affine(B)
    ensures Apply(Mul(A, B), w).x == Apply(A, Apply(B, w)).x
  {
    var P := Mul(A, B);
    var W := Apply(B, w);
    var t := Weight(w);
    MulEntries(A, B);
    ApplyEntries(B, w);
    ApplyEntries(A, W);
    ApplyEntries(P, w);
    ComposeCoordinate(A.a, A.b, A.c, A.d, B.a, B.b, B.c, B.d, B.e, B.f, B.g, B.h, B.i, B.j, B.k, B.l,
                      w.x, w.y, w.z, t, P.a, P.b, P.c, P.d, W.x, W.y, W.z);
  }

  lemma ComposesY(A: Mat4, B: Mat4, w: SpacePoint.V3)
    requires Affine(B)
    ensures Apply(Mul(A, B), w).y == Apply(A, Apply(B, w)).y
  {
    var P := Mul(A, B);
    var W := Apply(B, w);
    var t := Weight(w);
    MulEntries(A, B);
    ApplyEntries(B, w);
    ApplyEntries(A, W);
    ApplyEntries(P, w);
    ComposeCoordinate(A.e, A.f, A.g, A.h, B.a, B.b, B.c, B.d, B.e, B.f, B.g, B.h, B.i, B.j, B.k, B.l,
                      w.x, w.y, w.z, t, P.e, P.f, P.g, P.h, W.x, W.y, W.z);
  }

  lemma ComposesZ(A: Mat4, B: Mat4, w: SpacePoint.V3)
    requires Affine(B)
    ensures Apply(Mul(A, B), w).z == Apply(A, Apply(B, w)).z
  {
    var P := Mul(A, B);
    var W := Apply(B, w);
    var t := Weight(w);
    MulEntries(A, B);
    ApplyEntries(B, w);
    ApplyEntries(A, W);
    ApplyEntries(P, w);
    ComposeCoordinate(A.i, A.j, A.k, A.l, B.a, B.b, B.c, B.d, B.e, B.f, B.g, B.h, B.i, B.j, B.k, B.l,
                      w.x, w.y, w.z, t, P.i, P.j, P.k, P.l, W.x, W.y, W.z);
  }

  /** The determinant spelled out in the slots. */
  lemma DeterminantExpanded(M: Mat4)
    ensures Determinant(M) == (M.a * M.f - M.e * M.b) * (M.k * M.p - M.o * M.l) - (M.a * M.j - M.i * M.b) * (M.g * M.p - M.o * M.h) + (M.a * M.n - M.m * M.b) * (M.g * M.l - M.k * M.h)
      + (M.e * M.j - M.i * M.f) * (M.c * M.p - M.o * M.d) - (M.e * M.n - M.m * M.f) * (M.c * M.l - M.k * M.d) + (M.i * M.n - M.m * M.j) * (M.c * M.h - M.g * M.d)
  {
  }

  /**
   * Row r of the matrix dotted with column c of the adjugate is det when
   * r == c and 0 otherwise: first over plain numbers, one entry per lemma,
   * then for a matrix.
   */
  lemma Cofactor00(a: real, b: real, c: real, d: real, e: real, f: real, g: real, h: real,
      i: real, j: real, k: real, l: real, m: real, n: real, o: real, p: real,
      xa: real, xe: real, xi: real, xm: real, det: real)
    requires xa == f * (k * p - o * l) + j * (o * h - g * p) + n * (g * l - k * h)
    requires xe == g * (i * p - m * l) + k * (m * h - e * p) + o * (e * l - i * h)
    requires xi == h * (i * n - m * j) + l * (m * f - e * n) + p * (e * j - i * f)
    requires xm == e * (n * k - j * o) + i * (f * o - n * g) + m * (j * g - f * k)
    requires det == (a * f - e * b) * (k * p - o * l) - (a * j - i * b) * (g * p - o * h) + (a * n - m * b) * (g * l - k * h)
      + (e * j - i * f) * (c * p - o * d) - (e * n - m * f) * (c * l - k * d) + (i * n - m * j) * (c * h - g * d)
    ensures a * xa + b * xe + c * xi + d * xm == det
  {
  }

  lemma Cofactor10(a: real, b: real, c: real, d: real, e: real, f: real, g: real, h: real,
      i: real, j: real, k: real, l: real, m: real, n: real, o: real, p: real,
      xa: real, xe: real, xi: real, xm: real)
    requires xa == f * (k * p - o * l) + j * (o * h - g * p) + n * (g * l - k * h)
    requires xe == g * (i * p - m * l) + k * (m * h - e * p) + o * (e * l - i * h)
    requires xi == h * (i * n - m * j) + l * (m * f - e * n) + p * (e * j - i * f)
    requires xm == e * (n * k - j * o) + i * (f * o - n * g) + m * (j * g - f * k)
    ensures e * xa + f * xe + g * xi + h * xm == 0.0
  {
  }

  lemma Cofactor20(a: real, b: real, c: real, d: real, e: real, f: real, g: real, h: real,
      i: real, j: real, k: real, l: real, m: real, n: real, o: real, p: real,
      xa: real, xe: real, xi: real, xm: real)
    requires xa == f * (k * p - o * l) + j * (o * h - g * p) + n * (g * l - k * h)
    requires xe == g * (i * p - m * l) + k * (m * h - e * p) + o * (e * l - i * h)
    requires xi == h * (i * n - m * j) + l * (m * f - e * n) + p * (e * j - i * f)
    requires xm == e * (n * k - j * o) + i * (f * o - n * g) + m * (j * g - f * k)
    ensures i * xa + j * xe + k * xi + l * xm == 0.0
  {
  }

  lemma Cofactor30(a: real, b: real, c: real, d: real, e: real, f: real, g: real, h: real,
      i: real, j: real, k: real, l: real, m: real, n: real, o: real, p: real,
      xa: real, xe: real, xi: real, xm: real)
    requires xa == f * (k * p - o * l) + j * (o * h - g * p) + n * (g * l - k * h)
    requires xe == g * (i * p - m * l) + k * (m * h - e * p) + o * (e * l - i * h)
    requires xi == h * (i * n - m * j) + l * (m * f - e * n) + p * (e * j - i * f)
    requires xm == e * (n * k - j * o) + i * (f * o - n * g) + m * (j * g - f * k)
    ensures m * xa + n * xe + o * xi + p * xm == 0.0
  {
  }

  lemma Cofactor01(a: real, b: real, c: real, d: real, e: real, f: real, g: real, h: real,
      i: real, j: real, k: real, l: real, m: real, n: real, o: real, p: real,
      xb: real, xf: real, xj: real, xn: real)
    requires xb == j * (c * p - o * d) + n * (k * d - c * l) + b * (o * l - k * p)
    requires xf == k * (a * p - m * d) + o * (i * d - a * l) + c * (m * l - i * p)
    requires xj == l * (a * n - m * b) + p * (i * b - a * j) + d * (m * j - i * n)
    requires xn == i * (n * c - b * o) + m * (b * k - j * c) + a * (j * o - n * k)
    ensures a * xb + b * xf + c * xj + d * xn == 0.0
  {
  }

  lemma Cofactor11(a: real, b: real, c: real, d: real, e: real, f: real, g: real, h: real,
      i: real, j: real, k: real, l: real, m: real, n: real, o: real, p: real,
      xb: real, xf: real, xj: real, xn: real, det: real)
    requires xb == j * (c * p - o * d) + n * (k * d - c * l) + b * (o * l - k * p)
    requires xf == k * (a * p - m * d) + o * (i * d - a * l) + c * (m * l - i * p)
    requires xj == l * (a * n - m * b) + p * (i * b - a * j) + d * (m * j - i * n)
    requires xn == i * (n * c - b * o) + m * (b * k - j * c) + a * (j * o - n * k)
    requires det == (a * f - e * b) * (k * p - o * l) - (a * j - i * b) * (g * p - o * h) + (a * n - m * b) * (g * l - k * h)
      + (e * j - i * f) * (c * p - o * d) - (e * n - m * f) * (c * l - k * d) + (i * n - m * j) * (c * h - g * d)
    ensures e * xb + f * xf + g * xj + h * xn == det
  {
  }

  lemma Cofactor21(a: real, b: real, c: real, d: real, e: real, f: real, g: real, h: real,
      i: real, j: real, k: real, l: real, m: real, n: real, o: real, p: real,
      xb: real, xf: real, xj: real, xn: real)
    requires xb == j * (c * p - o * d) + n * (k * d - c * l) + b * (o * l - k * p)
    requires xf == k * (a * p - m * d) + o * (i * d - a * l) + c * (m * l - i * p)
    requires xj == l * (a * n - m * b) + p * (i * b - a * j) + d * (m * j - i * n)
    requires xn == i * (n * c - b * o) + m * (b * k - j * c) + a * (j * o - n * k)
    ensures i * xb + j * xf + k * xj + l * xn == 0.0
  {
  }

  lemma Cofactor31(a: real, b: real, c: real, d: real, e: real, f: real, g: real, h: real,
      i: real, j: real, k: real, l: real, m: real, n: real, o: real, p: real,
      xb: real, xf: real, xj: real, xn: real)
    requires xb == j * (c * p - o * d) + n * (k * d - c * l) + b * (o * l - k * p)
    requires xf == k * (a * p - m * d) + o * (i * d - a * l) + c * (m * l - i * p)
    requires xj == l * (a * n - m * b) + p * (i * b - a * j) + d * (m * j - i * n)
    requires xn == i * (n * c - b * o) + m * (b * k - j * c) + a * (j * o - n * k)
    ensures m * xb + n * xf + o * xj + p * xn == 0.0
  {
  }

  lemma Cofactor02(a: real, b: real, c: real, d: real, e: real, f: real, g: real, h: real,
      i: real, j: real, k: real, l: real, m: real, n: real, o: real, p: real,
      xc: real, xg: real, xk: real, xo: real)
    requires xc == n * (c * h - g * d) + b * (g * p - o * h) + f * (o * d - c * p)
    requires xg == o * (a * h - e * d) + c * (e * p - m * h) + g * (m * d - a * p)
    requires xk == p * (a * f - e * b) + d * (e * n - m * f) + h * (m * b - a * n)
    requires xo == m * (f * c - b * g) + a * (n * g - f * o) + e * (b * o - n * c)
    ensures a * xc + b * xg + c * xk + d * xo == 0.0
  {
  }

  lemma Cofactor12(a: real, b: real, c: real, d: real, e: real, f: real, g: real, h: real,
      i: real, j: real, k: real, l: real, m: real, n: real, o: real, p: real,
      xc: real, xg: real, xk: real, xo: real)
    requires xc == n * (c * h - g * d) + b * (g * p - o * h) + f * (o * d - c * p)
    requires xg == o * (a * h - e * d) + c * (e * p - m * h) + g * (m * d - a * p)
    requires xk == p * (a * f - e * b) + d * (e * n - m * f) + h * (m * b - a * n)
    requires xo == m * (f * c - b * g) + a * (n * g - f * o) + e * (b * o - n * c)
    ensures e * xc + f * xg + g * xk + h * xo == 0.0
  {
  }

  lemma Cofactor22(a: real, b: real, c: real, d: real, e: real, f: real, g: real, h: real,
      i: real, j: real, k: real, l: real, m: real, n: real, o: real, p: real,
      xc: real, xg: real, xk: real, xo: real, det: real)
    requires xc == n * (c * h - g * d) + b * (g * p - o * h) + f * (o * d - c * p)
    requires xg == o * (a * h - e * d) + c * (e * p - m * h) + g * (m * d - a * p)
    requires xk == p * (a * f - e * b) + d * (e * n - m * f) + h * (m * b - a * n)
    requires xo == m * (f * c - b * g) + a * (n * g - f * o) + e * (b * o - n * c)
    requires det == (a * f - e * b) * (k * p - o * l) - (a * j - i * b) * (g * p - o * h) + (a * n - m * b) * (g * l - k * h)
      + (e * j - i * f) * (c * p - o * d) - (e * n - m * f) * (c * l - k * d) + (i * n - m * j) * (c * h - g * d)
    ensures i * xc + j * xg + k * xk + l * xo == det
  {
  }

  lemma Cofactor32(a: real, b: real, c: real, d: real, e: real, f: real, g: real, h: real,
      i: real, j: real, k: real, l: real, m: real, n: real, o: real, p: real,
      xc: real, xg: real, xk: real, xo: real)
    requires xc == n * (c * h - g * d) + b * (g * p - o * h) + f * (o * d - c * p)
    requires xg == o * (a * h - e * d) + c * (e * p - m * h) + g * (m * d - a * p)
    requires xk == p * (a * f - e * b) + d * (e * n - m * f) + h * (m * b - a * n)
    requires xo == m * (f * c - b * g) + a * (n * g - f * o) + e * (b * o - n * c)
    ensures m * xc + n * xg + o * xk + p * xo == 0.0
  {
  }

  lemma Cofactor03(a: real, b: real, c: real, d: real, e: real, f: real, g: real, h: real,
      i: real, j: real, k: real, l: real, m: real, n: real, o: real, p: real,
      xd: real, xh: real, xl: real, xp: real)
    requires xd == b * (k * h - g * l) + f * (c * l - k * d) + j * (g * d - c * h)
    requires xh == c * (i * h - e * l) + g * (a * l - i * d) + k * (e * d - a * h)
    requires xl == d * (i * f - e * j) + h * (a * j - i * b) + l * (e * b - a * f)
    requires xp == a * (f * k - j * g) + e * (j * c - b * k) + i * (b * g - f * c)
    ensures a * xd + b * xh + c * xl + d * xp == 0.0
  {
  }

  lemma Cofactor13(a: real, b: real, c: real, d: real, e: real, f: real, g: real, h: real,
      i: real, j: real, k: real, l: real, m: real, n: real, o: real, p: real,
      xd: real, xh: real, xl: real, xp: real)
    requires xd == b * (k * h - g * l) + f * (c * l - k * d) + j * (g * d - c * h)
    requires xh == c * (i * h - e * l) + g * (a * l - i * d) + k * (e * d - a * h)
    requires xl == d * (i * f - e * j) + h * (a * j - i * b) + l * (e * b - a * f)
    requires xp == a * (f * k - j * g) + e * (j * c - b * k) + i * (b * g - f * c)
    ensures e * xd + f * xh + g * xl + h * xp == 0.0
  {
  }

  lemma Cofactor23(a: real, b: real, c: real, d: real, e: real, f: real, g: real, h: real,
      i: real, j: real, k: real, l: real, m: real, n: real, o: real, p: real,
      xd: real, xh: real, xl: real, xp: real)
    requires xd == b * (k * h - g * l) + f * (c * l - k * d) + j * (g * d - c * h)
    requires xh == c * (i * h - e * l) + g * (a * l - i * d) + k * (e * d - a * h)
    requires xl == d * (i * f - e * j) + h * (a * j - i * b) + l * (e * b - a * f)
    requires xp == a * (f * k - j * g) + e * (j * c - b * k) + i * (b * g - f * c)
    ensures i * xd + j * xh + k * xl + l * xp == 0.0
  {
  }

  lemma Cofactor33(a: real, b: real, c: real, d: real, e: real, f: real, g: real, h: real,
      i: real, j: real, k: real, l: real, m: real, n: real, o: real, p: real,
      xd: real, xh: real, xl: real, xp: real, det: real)
    requires xd == b * (k * h - g * l) + f * (c * l - k * d) + j * (g * d - c * h)
    requires xh == c * (i * h - e * l) + g * (a * l - i * d) + k * (e * d - a * h)
    requires xl == d * (i * f - e * j) + h * (a * j - i * b) + l * (e * b - a * f)
    requires xp == a * (f * k - j * g) + e * (j * c - b * k) + i * (b * g - f * c)
    requires det == (a * f - e * b) * (k * p - o * l) - (a * j - i * b) * (g * p - o * h) + (a * n - m * b) * (g * l - k * h)
      + (e * j - i * f) * (c * p - o * d) - (e * n - m * f) * (c * l - k * d) + (i * n - m * j) * (c * h - g * d)
    ensures m * xd + n * xh + o * xl + p * xp == det
  {
  }

  lemma MatrixCofactor00(M: Mat4)
    ensures M.a * Adjugate(M).a + M.b * Adjugate(M).e + M.c * Adjugate(M).i + M.d * Adjugate(M).m == Determinant(M)
  {
    DeterminantExpanded(M);
    Cofactor00(M.a, M.b, M.c, M.d, M.e, M.f, M.g, M.h, M.i, M.j, M.k, M.l, M.m, M.n, M.o, M.p,
      Adjugate(M).a, Adjugate(M).e, Adjugate(M).i, Adjugate(M).m, Determinant(M));
  }

  lemma MatrixCofactor10(M: Mat4)
    ensures M.e * Adjugate(M).a + M.f * Adjugate(M).e + M.g * Adjugate(M).i + M.h * Adjugate(M).m == 0.0
  {
    Cofactor10(M.a, M.b, M.c, M.d, M.e, M.f, M.g, M.h, M.i, M.j, M.k, M.l, M.m, M.n, M.o, M.p,
      Adjugate(M).a, Adjugate(M).e, Adjugate(M).i, Adjugate(M).m);
  }

  lemma MatrixCofactor20(M: Mat4)
    ensures M.i * Adjugate(M).a + M.j * Adjugate(M).e + M.k * Adjugate(M).i + M.l * Adjugate(M).m == 0.0
  {
    Cofactor20(M.a, M.b, M.c, M.d, M.e, M.f, M.g, M.h, M.i, M.j, M.k, M.l, M.m, M.n, M.o, M.p,
      Adjugate(M).a, Adjugate(M).e, Adjugate(M).i, Adjugate(M).m);
  }

  lemma MatrixCofactor30(M: Mat4)
    ensures M.m * Adjugate(M).a + M.n * Adjugate(M).e + M.o * Adjugate(M).i + M.p * Adjugate(M).m == 0.0
  {
    Cofactor30(M.a, M.b, M.c, M.d, M.e, M.f, M.g, M.h, M.i, M.j, M.k, M.l, M.m, M.n, M.o, M.p,
      Adjugate(M).a, Adjugate(M).e, Adjugate(M).i, Adjugate(M).m);
  }

  lemma MatrixCofactor01(M: Mat4)
    ensures M.a * Adjugate(M).b + M.b * Adjugate(M).f + M.c * Adjugate(M).j + M.d * Adjugate(M).n == 0.0
  {
    Cofactor01(M.a, M.b, M.c, M.d, M.e, M.f, M.g, M.h, M.i, M.j, M.k, M.l, M.m, M.n, M.o, M.p,
      Adjugate(M).b, Adjugate(M).f, Adjugate(M).j, Adjugate(M).n);
  }

  lemma MatrixCofactor11(M: Mat4)
    ensures M.e * Adjugate(M).b + M.f * Adjugate(M).f + M.g * Adjugate(M).j + M.h * Adjugate(M).n == Determinant(M)
  {
    DeterminantExpanded(M);
    Cofactor11(M.a, M.b, M.c, M.d, M.e, M.f, M.g, M.h, M.i, M.j, M.k, M.l, M.m, M.n, M.o, M.p,
      Adjugate(M).b, Adjugate(M).f, Adjugate(M).j, Adjugate(M).n, Determinant(M));
  }

  lemma MatrixCofactor21(M: Mat4)
    ensures M.i * Adjugate(M).b + M.j * Adjugate(M).f + M.k * Adjugate(M).j + M.l * Adjugate(M).n == 0.0
  {
    Cofactor21(M.a, M.b, M.c, M.d, M.e, M.f, M.g, M.h, M.i, M.j, M.k, M.l, M.m, M.n, M.o, M.p,
      Adjugate(M).b, Adjugate(M).f, Adjugate(M).j, Adjugate(M).n);
  }

  lemma MatrixCofactor31(M: Mat4)
    ensures M.m * Adjugate(M).b + M.n * Adjugate(M).f + M.o * Adjugate(M).j + M.p * Adjugate(M).n == 0.0
  {
    Cofactor31(M.a, M.b, M.c, M.d, M.e, M.f, M.g, M.h, M.i, M.j, M.k, M.l, M.m, M.n, M.o, M.p,
      Adjugate(M).b, Adjugate(M).f, Adjugate(M).j, Adjugate(M).n);
  }

  lemma MatrixCofactor02(M: Mat4)
    ensures M.a * Adjugate(M).c + M.b * Adjugate(M).g + M.c * Adjugate(M).k + M.d * Adjugate(M).o == 0.0
  {
    Cofactor02(M.a, M.b, M.c, M.d, M.e, M.f, M.g, M.h, M.i, M.j, M.k, M.l, M.m, M.n, M.o, M.p,
      Adjugate(M).c, Adjugate(M).g, Adjugate(M).k, Adjugate(M).o);
  }

  lemma MatrixCofactor12(M: Mat4)
    ensures M.e * Adjugate(M).c + M.f * Adjugate(M).g + M.g * Adjugate(M).k + M.h * Adjugate(M).o == 0.0
  {
    Cofactor12(M.a, M.b, M.c, M.d, M.e, M.f, M.g, M.h, M.i, M.j, M.k, M.l, M.m, M.n, M.o, M.p,
      Adjugate(M).c, Adjugate(M).g, Adjugate(M).k, Adjugate(M).o);
  }

  lemma MatrixCofactor22(M: Mat4)
    ensures M.i * Adjugate(M).c + M.j * Adjugate(M).g + M.k * Adjugate(M).k + M.l * Adjugate(M).o == Determinant(M)
  {
    DeterminantExpanded(M);
    Cofactor22(M.a, M.b, M.c, M.d, M.e, M.f, M.g, M.h, M.i, M.j, M.k, M.l, M.m, M.n, M.o, M.p,
      Adjugate(M).c, Adjugate(M).g, Adjugate(M).k, Adjugate(M).o, Determinant(M));
  }

  lemma MatrixCofactor32(M: Mat4)
    ensures M.m * Adjugate(M).c + M.n * Adjugate(M).g + M.o * Adjugate(M).k + M.p * Adjugate(M).o == 0.0
  {
    Cofactor32(M.a, M.b, M.c, M.d, M.e, M.f, M.g, M.h, M.i, M.j, M.k, M.l, M.m, M.n, M.o, M.p,
      Adjugate(M).c, Adjugate(M).g, Adjugate(M).k, Adjugate(M).o);
  }

  lemma MatrixCofactor03(M: Mat4)
    ensures M.a * Adjugate(M).d + M.b * Adjugate(M).h + M.c * Adjugate(M).l + M.d * Adjugate(M).p == 0.0
  {
    Cofactor03(M.a, M.b, M.c, M.d, M.e, M.f, M.g, M.h, M.i, M.j, M.k, M.l, M.m, M.n, M.o, M.p,
      Adjugate(M).d, Adjugate(M).h, Adjugate(M).l, Adjugate(M).p);
  }

  lemma MatrixCofactor13(M: Mat4)
    ensures M.e * Adjugate(M).d + M.f * Adjugate(M).h + M.g * Adjugate(M).l + M.h * Adjugate(M).p == 0.0
  {
    Cofactor13(M.a, M.b, M.c, M.d, M.e, M.f, M.g, M.h, M.i, M.j, M.k, M.l, M.m, M.n, M.o, M.p,
      Adjugate(M).d, Adjugate(M).h, Adjugate(M).l, Adjugate(M).p);
  }

  lemma MatrixCofactor23(M: Mat4)
    ensures M.i * Adjugate(M).d + M.j * Adjugate(M).h + M.k * Adjugate(M).l + M.l * Adjugate(M).p == 0.0
  {
    Cofactor23(M.a, M.b, M.c, M.d, M.e, M.f, M.g, M.h, M.i, M.j, M.k, M.l, M.m, M.n, M.o, M.p,
      Adjugate(M).d, Adjugate(M).h, Adjugate(M).l, Adjugate(M).p);
  }

  lemma MatrixCofactor33(M: Mat4)
    ensures M.m * Adjugate(M).d + M.n * Adjugate(M).h + M.o * Adjugate(M).l + M.p * Adjugate(M).p == Determinant(M)
  {
    DeterminantExpanded(M);
    Cofactor33(M.a, M.b, M.c, M.d, M.e, M.f, M.g, M.h, M.i, M.j, M.k, M.l, M.m, M.n, M.o, M.p,
      Adjugate(M).d, Adjugate(M).h, Adjugate(M).l, Adjugate(M).p, Determinant(M));
  }

  /** The matrix times its adjugate is det times the identity. */
  lemma AdjugateProduct(M: Mat4)
    ensures Mul(M, Adjugate(M)) == ScaleAll(Determinant(M), Identity())
  {
    MulEntries(M, Adjugate(M));
    MatrixCofactor00(M);
    MatrixCofactor10(M);
    MatrixCofactor20(M);
    MatrixCofactor30(M);
    MatrixCofactor01(M);
    MatrixCofactor11(M);
    MatrixCofactor21(M);
    MatrixCofactor31(M);
    MatrixCofactor02(M);
    MatrixCofactor12(M);
    MatrixCofactor22(M);
    MatrixCofactor32(M);
    MatrixCofactor03(M);
    MatrixCofactor13(M);
    MatrixCofactor23(M);
    MatrixCofactor33(M);
  }

  /** Scaling a row-by-column sum of four products. */
  lemma ScaledDot4(p0: real, p1: real, p2: real, p3: real, y0: real, y1: real, y2: real, y3: real,
                   z0: real, z1: real, z2: real, z3: real, s: real, t: real, u: real)
    requires z0 == Times(s, y0)
    requires z1 == Times(s, y1)
    requires z2 == Times(s, y2)
    requires z3 == Times(s, y3)
    requires t == p0 * y0 + p1 * y1 + p2 * y2 + p3 * y3
    requires u == p0 * z0 + p1 * z1 + p2 * z2 + p3 * z3
    ensures u == Times(s, t)
  {
  }

  /** A scalar factor on the right operand comes out of the product. */
  lemma MulScaleRight(M: Mat4, X: Mat4, s: real)
    ensures Mul(M, ScaleAll(s, X)) == ScaleAll(s, Mul(M, X))
  {
    ScaledProduct00(M, X, s); ScaledProduct01(M, X, s); ScaledProduct02(M, X, s); ScaledProduct03(M, X, s);
    ScaledProduct10(M, X, s); ScaledProduct11(M, X, s); ScaledProduct12(M, X, s); ScaledProduct13(M, X, s);
    ScaledProduct20(M, X, s); ScaledProduct21(M, X, s); ScaledProduct22(M, X, s); ScaledProduct23(M, X, s);
    ScaledProduct30(M, X, s); ScaledProduct31(M, X, s); ScaledProduct32(M, X, s); ScaledProduct33(M, X, s);
  }

  // One lemma per entry of MulScaleRight: each entry is a scaled dot product.

  lemma ScaledProduct00(M: Mat4, X: Mat4, s: real)
    ensures Mul(M, ScaleAll(s, X)).a == ScaleAll(s, Mul(M, X)).a
  {
    var N := ScaleAll(s, X);
    MulEntries(M, X);
    MulEntries(M, N);
    ScaledDot4(M.a, M.b, M.c, M.d, X.a, X.e, X.i, X.m, N.a, N.e, N.i, N.m, s, Mul(M, X).a, Mul(M, N).a);
  }

  lemma ScaledProduct01(M: Mat4, X: Mat4, s: real)
    ensures Mul(M, ScaleAll(s, X)).b == ScaleAll(s, Mul(M, X)).b
  {
    var N := ScaleAll(s, X);
    MulEntries(M, X);
    MulEntries(M, N);
    ScaledDot4(M.a, M.b, M.c, M.d, X.b, X.f, X.j, X.n, N.b, N.f, N.j, N.n, s, Mul(M, X).b, Mul(M, N).b);
  }

  lemma ScaledProduct02(M: Mat4, X: Mat4, s: real)
    ensures Mul(M, ScaleAll(s, X)).c == ScaleAll(s, Mul(M, X)).c
  {
    var N := ScaleAll(s, X);
    MulEntries(M, X);
    MulEntries(M, N);
    ScaledDot4(M.a, M.b, M.c, M.d, X.c, X.g, X.k, X.o, N.c, N.g, N.k, N.o, s, Mul(M, X).c, Mul(M, N).c);
  }

  lemma ScaledProduct03(M: Mat4, X: Mat4, s: real)
    ensures Mul(M, ScaleAll(s, X)).d == ScaleAll(s, Mul(M, X)).d
  {
    var N := ScaleAll(s, X);
    MulEntries(M, X);
    MulEntries(M, N);
    ScaledDot4(M.a, M.b, M.c, M.d, X.d, X.h, X.l, X.p, N.d, N.h, N.l, N.p, s, Mul(M, X).d, Mul(M, N).d);
  }

  lemma ScaledProduct10(M: Mat4, X: Mat4, s: real)
    ensures Mul(M, ScaleAll(s, X)).e == ScaleAll(s, Mul(M, X)).e
  {
    var N := ScaleAll(s, X);
    MulEntries(M, X);
    MulEntries(M, N);
    ScaledDot4(M.e, M.f, M.g, M.h, X.a, X.e, X.i, X.m, N.a, N.e, N.i, N.m, s, Mul(M, X).e, Mul(M, N).e);
  }

  lemma ScaledProduct11(M: Mat4, X: Mat4, s: real)
    ensures Mul(M, ScaleAll(s, X)).f == ScaleAll(s, Mul(M, X)).f
  {
    var N := ScaleAll(s, X);
    MulEntries(M, X);
    MulEntries(M, N);
    ScaledDot4(M.e, M.f, M.g, M.h, X.b, X.f, X.j, X.n, N.b, N.f, N.j, N.n, s, Mul(M, X).f, Mul(M, N).f);
  }

  lemma ScaledProduct12(M: Mat4, X: Mat4, s: real)
    ensures Mul(M, ScaleAll(s, X)).g == ScaleAll(s, Mul(M, X)).g
  {
    var N := ScaleAll(s, X);
    MulEntries(M, X);
    MulEntries(M, N);
    ScaledDot4(M.e, M.f, M.g, M.h, X.c, X.g, X.k, X.o, N.c, N.g, N.k, N.o, s, Mul(M, X).g, Mul(M, N).g);
  }

  lemma ScaledProduct13(M: Mat4, X: Mat4, s: real)
    ensures Mul(M, ScaleAll(s, X)).h == ScaleAll(s, Mul(M, X)).h
  {
    var N := ScaleAll(s, X);
    MulEntries(M, X);
    MulEntries(M, N);
    ScaledDot4(M.e, M.f, M.g, M.h, X.d, X.h, X.l, X.p, N.d, N.h, N.l, N.p, s, Mul(M, X).h, Mul(M, N).h);
  }

  lemma ScaledProduct20(M: Mat4, X: Mat4, s: real)
    ensures Mul(M, ScaleAll(s, X)).i == ScaleAll(s, Mul(M, X)).i
  {
    var N := ScaleAll(s, X);
    MulEntries(M, X);
    MulEntries(M, N);
    ScaledDot4(M.i, M.j, M.k, M.l, X.a, X.e, X.i, X.m, N.a, N.e, N.i, N.m, s, Mul(M, X).i, Mul(M, N).i);
  }

  lemma ScaledProduct21(M: Mat4, X: Mat4, s: real)
    ensures Mul(M, ScaleAll(s, X)).j == ScaleAll(s, Mul(M, X)).j
  {
    var N := ScaleAll(s, X);
    MulEntries(M, X);
    MulEntries(M, N);
    ScaledDot4(M.i, M.j, M.k, M.l, X.b, X.f, X.j, X.n, N.b, N.f, N.j, N.n, s, Mul(M, X).j, Mul(M, N).j);
  }

  lemma ScaledProduct22(M: Mat4, X: Mat4, s: real)
    ensures Mul(M, ScaleAll(s, X)).k == ScaleAll(s, Mul(M, X)).k
  {
    var N := ScaleAll(s, X);
    MulEntries(M, X);
    MulEntries(M, N);
    ScaledDot4(M.i, M.j, M.k, M.l, X.c, X.g, X.k, X.o, N.c, N.g, N.k, N.o, s, Mul(M, X).k, Mul(M, N).k);
  }

  lemma ScaledProduct23(M: Mat4, X: Mat4, s: real)
    ensures Mul(M, ScaleAll(s, X)).l == ScaleAll(s, Mul(M, X)).l
  {
    var N := ScaleAll(s, X);
    MulEntries(M, X);
    MulEntries(M, N);
    ScaledDot4(M.i, M.j, M.k, M.l, X.d, X.h, X.l, X.p, N.d, N.h, N.l, N.p, s, Mul(M, X).l, Mul(M, N).l);
  }

  lemma ScaledProduct30(M: Mat4, X: Mat4, s: real)
    ensures Mul(M, ScaleAll(s, X)).m == ScaleAll(s, Mul(M, X)).m
  {
    var N := ScaleAll(s, X);
    MulEntries(M, X);
    MulEntries(M, N);
    ScaledDot4(M.m, M.n, M.o, M.p, X.a, X.e, X.i, X.m, N.a, N.e, N.i, N.m, s, Mul(M, X).m, Mul(M, N).m);
  }

  lemma ScaledProduct31(M: Mat4, X: Mat4, s: real)
    ensures Mul(M, ScaleAll(s, X)).n == ScaleAll(s, Mul(M, X)).n
  {
    var N := ScaleAll(s, X);
    MulEntries(M, X);
    MulEntries(M, N);
    ScaledDot4(M.m, M.n, M.o, M.p, X.b, X.f, X.j, X.n, N.b, N.f, N.j, N.n, s, Mul(M, X).n, Mul(M, N).n);
  }

  lemma ScaledProduct32(M: Mat4, X: Mat4, s: real)
    ensures Mul(M, ScaleAll(s, X)).o == ScaleAll(s, Mul(M, X)).o
  {
    var N := ScaleAll(s, X);
    MulEntries(M, X);
    MulEntries(M, N);
    ScaledDot4(M.m, M.n, M.o, M.p, X.c, X.g, X.k, X.o, N.c, N.g, N.k, N.o, s, Mul(M, X).o, Mul(M, N).o);
  }

  lemma ScaledProduct33(M: Mat4, X: Mat4, s: real)
    ensures Mul(M, ScaleAll(s, X)).p == ScaleAll(s, Mul(M, X)).p
  {
    var N := ScaleAll(s, X);
    MulEntries(M, X);
    MulEntries(M, N);
    ScaledDot4(M.m, M.n, M.o, M.p, X.d, X.h, X.l, X.p, N.d, N.h, N.l, N.p, s, Mul(M, X).p, Mul(M, N).p);
  }

  lemma ReciprocalCancels(d: real)
    requires d != 0.0
    ensures (1.0 / d) * d == 1.0
  {
  }

  /**
   * `inverse()`: a nearly singular matrix (|det| < 0.001) gets the identity
   * back; any other matrix times its inverse is the identity.
   */
  lemma InverseProperties(M: Mat4)
    ensures PlaneAbs(Determinant(M)) < 0.001 ==> Inverse(M) == Identity()
    ensures PlaneAbs(Determinant(M)) >= 0.001 ==> Mul(M, Inverse(M)) == Identity()
  {
    var D := Determinant(M);
    if PlaneAbs(D) >= 0.001 {
      ReciprocalCancels(D);
      MulScaleRight(M, Adjugate(M), 1.0 / D);
      AdjugateProduct(M);
      ScaleIdentity(1.0 / D, D);
    }
  }

  /** s * (d * I) is I when s * d == 1. */
  lemma ScaleIdentity(s: real, d: real)
    requires s * d == 1.0
    ensures ScaleAll(s, ScaleAll(d, Identity())) == Identity()
  {
  }

  /**
   * `scale(x, y, z)` multiplies the coordinates of points and vectors
   * alike; the doctest scales (1, 1, 1) by (1, 2, 1).
   */
  lemma ScaleApplies(x: real, y: real, z: real, w: SpacePoint.V3)
    ensures Apply(Scale(x, y, z), w) == SpacePoint.V3(w.kind, x * w.x, y * w.y, z * w.z)
    ensures Affine(Scale(x, y, z))
    ensures Apply(Scale(1.0, 2.0, 1.0), SpacePoint.Point(1.0, 1.0, 1.0)) == SpacePoint.Point(1.0, 2.0, 1.0)
  {
    ApplyEntries(Scale(x, y, z), w);
  }

  /**
   * `translate(x, y, z)` moves points and leaves vectors alone; the doctest
   * moves (1, 1, 1) by (1, 2, 1) to (2, 3, 2).
   */
  lemma TranslateApplies(x: real, y: real, z: real, w: SpacePoint.V3)
    ensures Apply(Translate(x, y, z), w) ==
      (if w.kind == PlanePoint.PointKind then SpacePoint.Point(w.x + x, w.y + y, w.z + z) else w)
    ensures Affine(Translate(x, y, z))
    ensures Apply(Translate(1.0, 2.0, 1.0), SpacePoint.Point(1.0, 1.0, 1.0)) == SpacePoint.Point(2.0, 3.0, 2.0)
  {
    ApplyEntries(Translate(x, y, z), w);
  }

  // ---------------------------------------------------------------------
  // Properties of the quaternion product

  /** 1 is neutral, and conjugation undoes itself and reverses products. */
  lemma QuaternionProperties(A: Quat, B: Quat)
    ensures QMul(QIdentity(), A) == A && QMul(A, QIdentity()) == A
    ensures Conjugated(Conjugated(A)) == A
    ensures Conjugated(QMul(A, B)) == QMul(Conjugated(B), Conjugated(A))
  {
    QIdentityNeutral(A);
    ConjugateReversesRealPart(A, B);
    ConjugateReversesImaginaryParts(A, B);
  }

  lemma QIdentityNeutral(A: Quat)
    ensures QMul(QIdentity(), A) == A && QMul(A, QIdentity()) == A
  {
  }

  lemma ConjugateReversesRealPart(A: Quat, B: Quat)
    ensures Conjugated(QMul(A, B)).w == QMul(Conjugated(B), Conjugated(A)).w
  {
  }

  lemma ConjugateReversesImaginaryParts(A: Quat, B: Quat)
    ensures Conjugated(QMul(A, B)).x == QMul(Conjugated(B), Conjugated(A)).x
    ensures Conjugated(QMul(A, B)).y == QMul(Conjugated(B), Conjugated(A)).y
    ensures Conjugated(QMul(A, B)).z == QMul(Conjugated(B), Conjugated(A)).z
  {
  }

  /** A quaternion times its conjugate is its squared magnitude, a real number. */
  lemma ConjugateProduct(q: Quat)
    ensures QMul(q, Conjugated(q)) == Quat(QMagnitudeSquared(q), 0.0, 0.0, 0.0)
  {
  }
}
