/**
 * Engravings (petrify/machine/engrave.py): a polygon cut to a depth, and
 * its scaling.
 */
module Engrave {
  import opened Wrappers
  import PlanePoint

  /** `Engrave(polygon, depth)`, over any polygon type P. */
  datatype Engrave<P> = Engrave(polygon: P, depth: real)

  /** None is the AssertionError of a depth that is not positive. */
  function NewEngrave<P>(polygon: P, depth: real): (r: Option<Engrave<P>>)
    ensures r.Some? <==> depth > 0.0
    ensures r.Some? ==> r.value.polygon == polygon && r.value.depth == depth
  {
    if depth > 0.0 then Some(Engrave(polygon, depth)) else None
  }

  /** The outcome of `e * v`. */
  datatype Scaled<P> = Result(e: Engrave<P>) | NotImplemented | Refused

  /**
   * `e * v` and `v * e`: for a scalar, the polygon (by `scale`, the
   * polygon's own multiplication) and the depth both scaled, refused when
   * the new depth is not positive; NotImplemented for anything else.
   */
  function Scale<P>(e: Engrave<P>, v: PlanePoint.Operand, scale: (P, real) -> P): (r: Scaled<P>)
    requires e.depth > 0.0
    ensures r.NotImplemented? <==> !v.Num?
    ensures r.Refused? <==> v.Num? && v.n <= 0.0
    ensures r.Result? ==> r.e.polygon == scale(e.polygon, v.n) && r.e.depth == e.depth * v.n
  {
    if !v.Num? then NotImplemented
    else
      match NewEngrave(scale(e.polygon, v.n), e.depth * v.n)
      case Some(s) => Result(s)
      case None => Refused
  }

  /** Scaling by s and then by t is scaling by s t, when the polygon's own scaling composes. */
  lemma ScaleComposes<P>(e: Engrave<P>, s: real, t: real, scale: (P, real) -> P)
    requires e.depth > 0.0 && s > 0.0 && t > 0.0
    requires scale(scale(e.polygon, s), t) == scale(e.polygon, s * t)
    ensures Scale(e, PlanePoint.Num(s), scale).Result?
    ensures Scale(Scale(e, PlanePoint.Num(s), scale).e, PlanePoint.Num(t), scale) == Scale(e, PlanePoint.Num(s * t), scale)
  {
    var d := e.depth * s;
    assert d > 0.0 by {
      assert e.depth * s > 0.0 * s;
    }
    assert d * t == e.depth * (s * t);
  }
}
