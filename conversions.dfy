/**
 * The inch/millimetre factors of petrify/conversions.py, as spatial vectors
 * that scale each axis.
 */
module Conversions {
  import PlanePoint
  import SpacePoint

  /** Millimetres per inch. */
  const MmPerIn: real := 25.4

  /** `in_to_mm`: each axis scaled from inches to millimetres. */
  function InToMm(): (r: SpacePoint.V3)
    ensures r.kind == PlanePoint.VectorKind
    ensures r.x == MmPerIn && r.y == MmPerIn && r.z == MmPerIn
  {
    SpacePoint.Vector(MmPerIn, MmPerIn, MmPerIn)
  }

  /** `mm_to_in`: each axis scaled from millimetres to inches. */
  function MmToIn(): (r: SpacePoint.V3)
    ensures r.kind == PlanePoint.VectorKind
    ensures r.x * MmPerIn == 1.0 && r.y * MmPerIn == 1.0 && r.z * MmPerIn == 1.0
  {
    SpacePoint.Vector(1.0 / MmPerIn, 1.0 / MmPerIn, 1.0 / MmPerIn)
  }

  /** `10 ** place` for a nonnegative number of places. */
  function Scale(place: nat): (r: real)
    ensures r >= 1.0
  {
    if place == 0 then 1.0 else 10.0 * Scale(place - 1)
  }

  /**
   * `round(v, place)`: to the nearest multiple of 10^-place, ties to even.
   * The result lies within half a step 10^-place of v.
   */
  function Round(v: real, place: nat): (r: real)
    ensures -0.5 <= (v - r) * Scale(place) <= 0.5
  {
    var s := Scale(place);
    RoundByWithinHalfStep(v, s);
    RoundBy(v, s)
  }

  /** v rounded to the nearest multiple of 1 / s, ties to even. */
  function RoundBy(v: real, s: real): real
    requires s != 0.0
  {
    PlanePoint.RoundHalfEven(v * s) as real / s
  }

  /** `rounded(place)`: every coordinate rounded; the class is kept. */
  function Rounded(u: SpacePoint.V3, place: nat): (r: SpacePoint.V3)
    ensures r.kind == u.kind
  {
    SpacePoint.V3(u.kind, Round(u.x, place), Round(u.y, place), Round(u.z, place))
  }

  /** Componentwise product of two vectors. */
  function Hadamard(u: SpacePoint.V3, w: SpacePoint.V3): SpacePoint.V3 {
    SpacePoint.Vector(u.x * w.x, u.y * w.y, u.z * w.z)
  }

  // ---------------------------------------------------------------------
  // Properties

  /** Powers of ten multiply by adding places: 10^(a + b) = 10^a 10^b. */
  lemma {:induction false} ScaleAdds(a: nat, b: nat)
    ensures Scale(a + b) == Scale(a) * Scale(b)
    decreases a
  {
    if a > 0 {
      ScaleAdds(a - 1, b);
      assert Scale(a + b) == 10.0 * Scale(a - 1 + b);
    }
  }

  /** Rounding by a positive factor s moves v by at most half of 1 / s, onto a multiple of 1 / s. */
  lemma RoundByWithinHalfStep(v: real, s: real)
    requires s > 0.0
    ensures -0.5 <= (v - RoundBy(v, s)) * s <= 0.5
    ensures (RoundBy(v, s) * s).Floor as real == RoundBy(v, s) * s
  {
    var k := PlanePoint.RoundHalfEven(v * s);
    var q := RoundBy(v, s);
    assert q == k as real / s;
    PlanePoint.QuotientTimesDivisor(k as real, s);
    assert q * s == k as real;
    assert (v - q) * s == v * s - q * s;
  }

  /** The two factors undo each other on every axis. */
  lemma Inverse(p: SpacePoint.V3)
    ensures Hadamard(Hadamard(p, InToMm()), MmToIn()) == SpacePoint.Vector(p.x, p.y, p.z)
    ensures Hadamard(InToMm(), MmToIn()) == SpacePoint.Vector(1.0, 1.0, 1.0)
  {
    var m := MmToIn();
    assert (p.x * MmPerIn) * m.x == p.x * (m.x * MmPerIn);
    assert (p.y * MmPerIn) * m.y == p.y * (m.y * MmPerIn);
    assert (p.z * MmPerIn) * m.z == p.z * (m.z * MmPerIn);
  }

  /** Rounded to four places, an inch per millimetre is 0.0394 on every axis. */
  lemma RoundedExample()
    ensures Rounded(MmToIn(), 4) == SpacePoint.Vector(0.0394, 0.0394, 0.0394)
  {
    assert Scale(4) == 10000.0;
    var q := (1.0 / MmPerIn) * 10000.0;
    assert 393.5 < q < 394.0;
    assert PlanePoint.RoundHalfEven(q) == 394;
  }
}
