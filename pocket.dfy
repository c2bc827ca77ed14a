/**
 * Pockets (petrify/machine/pocket.py): an area cleared to a depth, its
 * holes and outer boundaries.
 */
module Pocket {
  import opened Wrappers
  import PlanePoint
  import PlanePolygon

  /** The polygon a pocket is given: a complex polygon or any other one. */
  datatype Outline = ComplexOutline(c: PlanePolygon.Complex) | PlainOutline(p: PlanePolygon.Polygon)

  datatype Pocket = Pocket(
    polygon: Outline,
    interior: seq<PlanePolygon.Polygon>,
    exterior: seq<PlanePolygon.Polygon>,
    depth: real,
    start: Option<PlanePoint.V2>)

  /**
   * `Pocket(polygon, depth, start=None)`: None is the AssertionError of a
   * depth that is not positive.
   */
  function NewPocket(polygon: Outline, depth: real, start: Option<PlanePoint.V2>): (r: Option<Pocket>)
    ensures r.Some? <==> depth > 0.0
    ensures r.Some? ==> r.value.polygon == polygon && r.value.depth == depth && r.value.start == start
    ensures r.Some? && polygon.ComplexOutline? ==>
      r.value.interior == polygon.c.interior && r.value.exterior == polygon.c.exterior
    ensures r.Some? && polygon.PlainOutline? ==> r.value.interior == [] && r.value.exterior == [polygon.p]
  {
    if depth <= 0.0 then None
    else
      match polygon
      case ComplexOutline(c) => Some(Pocket(polygon, c.interior, c.exterior, depth, start))
      case PlainOutline(p) => Some(Pocket(polygon, [], [p], depth, start))
  }

  /**
   * Every polygon of the outline is among the pocket's boundaries, and no
   * other is.
   */
  lemma PocketBoundaries(polygon: Outline, depth: real, start: Option<PlanePoint.V2>)
    requires depth > 0.0
    ensures var k := NewPocket(polygon, depth, start).value;
      k.exterior + k.interior ==
        (if polygon.ComplexOutline? then polygon.c.exterior + polygon.c.interior else [polygon.p])
  {
  }
}
