/**
 * The list construction of petrify/solid.py: the perpendicular helper, the
 * projection of planar slices into space, the quads that join consecutive
 * slices of an extrusion, and the Box and PolygonExtrusion shapes built on it.
 */
module Solid {
  import opened Wrappers
  import opened SpacePoint
  import PlanePoint
  import SpaceShapes

  // ---------------------------------------------------------------------
  // perpendicular

  /** `perpendicular(axis)`, as written. */
  function Perpendicular(axis: V3): (r: V3)
    ensures r.kind == PlanePoint.VectorKind
  {
    if axis.x == 0.0 && axis.y == 0.0 then Vector(1.0, -1.0, 0.0)
    else if axis.z == 0.0 then Vector(-axis.y, axis.x, 0.0)
    else Vector(axis.y, axis.x, -2.0 * axis.x * axis.y)
  }

  /**
   * On every axis whose coordinates are 0 or 1 (the axes the unit test
   * tries) the result is orthogonal to the axis.
   */
  lemma PerpendicularOnUnitAxes(axis: V3)
    requires axis.x == 0.0 || axis.x == 1.0
    requires axis.y == 0.0 || axis.y == 1.0
    requires axis.z == 0.0 || axis.z == 1.0
    ensures Dot(Perpendicular(axis), axis) == 0.0
  {
  }

  /** The third branch misses orthogonality: the axis (1, 1, 2) gives a dot product of -2. */
  lemma PerpendicularFailsAsWritten(axis: V3)
    requires axis.x == 1.0 && axis.y == 1.0 && axis.z == 2.0
    ensures Perpendicular(axis) == Vector(1.0, 1.0, -2.0)
    ensures Dot(Perpendicular(axis), axis) == -2.0
  {
  }

  /** `perpendicular` with the third component divided by z, as orthogonality needs. */
  function PerpendicularCorrected(axis: V3): (r: V3)
    ensures r.kind == PlanePoint.VectorKind
  {
    if axis.x == 0.0 && axis.y == 0.0 then Vector(1.0, -1.0, 0.0)
    else if axis.z == 0.0 then Vector(-axis.y, axis.x, 0.0)
    else Vector(axis.y, axis.x, -2.0 * axis.x * axis.y / axis.z)
  }

  /**
   * The corrected helper is orthogonal to every axis and never the zero
   * vector; it agrees with the code as written whenever z is 0 or 1 or the
   * axis lies on the z axis.
   */
  lemma PerpendicularCorrectedOrthogonal(axis: V3)
    ensures Dot(PerpendicularCorrected(axis), axis) == 0.0
    ensures PerpendicularCorrected(axis) != Vector(0.0, 0.0, 0.0)
    ensures (axis.x == 0.0 && axis.y == 0.0) || axis.z == 0.0 || axis.z == 1.0 ==>
      PerpendicularCorrected(axis) == Perpendicular(axis)
  {
    if !(axis.x == 0.0 && axis.y == 0.0) && axis.z != 0.0 {
      var w := -2.0 * axis.x * axis.y;
      PlanePoint.QuotientTimesDivisor(w, axis.z);
      assert (w / axis.z) * axis.z == w;
    }
  }

  // ---------------------------------------------------------------------
  // Projection and Slice

  /** A basis for building solids: the origin and the images of x, y and the slice height. */
  datatype Projection = Projection(origin: V3, basisX: V3, basisY: V3, basisZ: V3)

  /** `Projection.unit`: the origin and the three unit axes. */
  function UnitProjection(): Projection {
    Projection(Origin(), Bx(), By(), Bz())
  }

  /**
   * `convert(point, dz)`: origin + x bx + y by + dz bz with the class rules of
   * the space operators, then made a point.
   */
  function Convert(pr: Projection, p: PlanePoint.V2, dz: real): (r: V3)
    ensures r.kind == PlanePoint.PointKind
  {
    var tx := Mul(pr.basisX, Num(p.x)).value;
    var ty := Mul(pr.basisY, Num(p.y)).value;
    var tz := Mul(pr.basisZ, Num(dz)).value;
    var v := Add(Add(Add(pr.origin, Spatial(tx)).value, Spatial(ty)).value, Spatial(tz)).value;
    AsPoint(v)
  }

  /** The coordinates `convert` produces, component by component. */
  lemma ConvertCoordinates(pr: Projection, p: PlanePoint.V2, dz: real)
    ensures Convert(pr, p, dz).x == pr.origin.x + p.x * pr.basisX.x + p.y * pr.basisY.x + dz * pr.basisZ.x
    ensures Convert(pr, p, dz).y == pr.origin.y + p.x * pr.basisX.y + p.y * pr.basisY.y + dz * pr.basisZ.y
    ensures Convert(pr, p, dz).z == pr.origin.z + p.x * pr.basisX.z + p.y * pr.basisY.z + dz * pr.basisZ.z
  {
  }

  /** Under the unit projection a planar point (x, y) at height dz becomes the point (x, y, dz). */
  lemma ConvertUnit(p: PlanePoint.V2, dz: real)
    ensures Convert(UnitProjection(), p, dz) == Point(p.x, p.y, dz)
  {
  }

  /** A planar polygon placed at the level dz. */
  datatype Slice = Slice(points: seq<PlanePoint.V2>, dz: real)

  /** `Slice.project`: every point converted at the slice's level, in order. */
  function SliceProject(sl: Slice, pr: Projection): (r: seq<V3>)
    ensures |r| == |sl.points|
  {
    seq(|sl.points|, i requires 0 <= i < |sl.points| => Convert(pr, sl.points[i], sl.dz))
  }

  /** Under the unit projection a slice becomes its own points lifted to its level, in order. */
  lemma SliceProjectUnit(sl: Slice)
    ensures |SliceProject(sl, UnitProjection())| == |sl.points|
    ensures forall i :: 0 <= i < |sl.points| ==>
      SliceProject(sl, UnitProjection())[i] == Point(sl.points[i].x, sl.points[i].y, sl.dz)
  {
    forall i | 0 <= i < |sl.points|
      ensures SliceProject(sl, UnitProjection())[i] == Point(sl.points[i].x, sl.points[i].y, sl.dz)
    {
      ConvertUnit(sl.points[i], sl.dz);
    }
  }

  // ---------------------------------------------------------------------
  // Extrusion

  /**
   * The assertion of `Extrusion.__init__`: the set of slice sizes has exactly
   * one element, so there is a slice and all of them have the same size.
   */
  predicate SameCounts(slices: seq<Slice>) {
    |slices| > 0 && forall i :: 0 <= i < |slices| ==> |slices[i].points| == |slices[0].points|
  }

  /** A list of points in reverse order. */
  function Reversed(s: seq<V3>): (r: seq<V3>)
    ensures |r| == |s|
    ensures forall i :: 0 <= i < |s| ==> r[i] == s[|s| - 1 - i]
  {
    seq(|s|, i requires 0 <= i < |s| => s[|s| - 1 - i])
  }

  /**
   * Quad i of `ring`: the pairs (bottom i, top i) and (bottom i + 1, top i + 1),
   * wrapping around, give bottom i, bottom i + 1, top i + 1, top i.
   */
  function Quad(bottom: seq<V3>, top: seq<V3>, i: int): seq<V3>
    requires |bottom| == |top|
    requires 0 <= i < |bottom|
  {
    [bottom[i], bottom[(i + 1) % |bottom|], top[(i + 1) % |top|], top[i]]
  }

  /** `ring(a, b)` on the projected points: one quad per index. */
  function Ring(bottom: seq<V3>, top: seq<V3>): (r: seq<seq<V3>>)
    requires |bottom| == |top|
    ensures |r| == |bottom|
  {
    seq(|bottom|, i requires 0 <= i < |bottom| => Quad(bottom, top, i))
  }

  /** The reversed quads of every ring between consecutive slices, in order. */
  function Middle(pr: Projection, slices: seq<Slice>): (r: seq<seq<V3>>)
    requires SameCounts(slices)
    decreases |slices|
  {
    if |slices| < 2 then []
    else
      var ring := Ring(SliceProject(slices[0], pr), SliceProject(slices[1], pr));
      seq(|ring|, i requires 0 <= i < |ring| => Reversed(ring[i])) + Middle(pr, slices[1..])
  }

  /**
   * The point lists `generate_polygons` hands to `Polygon`: the bottom
   * slice, the reversed ring quads, then the reversed top slice.
   */
  function Faces(pr: Projection, slices: seq<Slice>): (r: seq<seq<V3>>)
    requires SameCounts(slices)
    ensures |r| == |Middle(pr, slices)| + 2
  {
    [SliceProject(slices[0], pr)] + Middle(pr, slices) + [Reversed(SliceProject(slices[|slices| - 1], pr))]
  }

  /**
   * `generate_polygons`: a `Polygon3` for every face. With empty slices and
   * at least two of them `ring` indexes an empty list (IndexError, None);
   * otherwise it is None when the plane construction of `Polygon3.__init__`
   * raises on some face.
   */
  function GeneratePolygons(pr: Projection, slices: seq<Slice>): Option<seq<SpaceShapes.Polygon3>>
    requires SameCounts(slices)
  {
    if |slices[0].points| == 0 && |slices| >= 2 then None
    else
      var polys := Faces(pr, slices);
      if forall i :: 0 <= i < |polys| ==> SpaceShapes.PlaneAccepts(polys[i]) then
        Some(seq(|polys|, i requires 0 <= i < |polys| => SpaceShapes.Polygon3(polys[i])))
      else None
  }

  /** An extrusion: its projection, its slices and the polygons of its surface. */
  datatype Extrusion = Extrusion(projection: Projection, slices: seq<Slice>, polygons: seq<SpaceShapes.Polygon3>)

  /** `Extrusion(projection, slices)`: None when the size assertion fails or generation raises. */
  function NewExtrusion(pr: Projection, slices: seq<Slice>): (r: Option<Extrusion>)
    ensures r.Some? ==> r.value.projection == pr && r.value.slices == slices
  {
    if !SameCounts(slices) then None
    else match GeneratePolygons(pr, slices)
      case None => None
      case Some(ps) => Some(Extrusion(pr, slices, ps))
  }

  /** The ring between two slices of n points holds n quads; n slices give n - 1 rings. */
  lemma {:induction false} MiddleCount(pr: Projection, slices: seq<Slice>)
    requires SameCounts(slices)
    ensures |Middle(pr, slices)| == |slices[0].points| * (|slices| - 1)
    decreases |slices|
  {
    if |slices| >= 2 {
      assert SameCounts(slices[1..]) && slices[1..][0] == slices[1];
      MiddleCount(pr, slices[1..]);
      var n, k := |slices[0].points|, |slices|;
      assert n * (k - 1) == n + n * (k - 2);
    }
  }

  /**
   * Entry j n + i of the middle polygons is quad i of the ring between
   * slices j and j + 1, reversed.
   */
  lemma {:induction false} MiddleAt(pr: Projection, slices: seq<Slice>, j: int, i: int)
    requires SameCounts(slices)
    requires 0 <= j < |slices| - 1
    requires 0 <= i < |slices[0].points|
    ensures |slices[0].points| * j + i < |Middle(pr, slices)|
    ensures Middle(pr, slices)[|slices[0].points| * j + i] ==
      Reversed(Quad(SliceProject(slices[j], pr), SliceProject(slices[j + 1], pr), i))
    decreases j
  {
    var n := |slices[0].points|;
    if j == 0 {
      assert n * j + i == i;
      MiddleHead(pr, slices, i);
    } else {
      var rest := slices[1..];
      MiddleShift(pr, slices, j, i);
      MiddleAt(pr, rest, j - 1, i);
      assert rest[j - 1] == slices[j] && rest[j] == slices[j + 1];
    }
  }

  /** Entry j n + i, past the first ring, is entry (j - 1) n + i of the remaining slices. */
  lemma MiddleShift(pr: Projection, slices: seq<Slice>, j: int, i: int)
    requires SameCounts(slices)
    requires 1 <= j < |slices| - 1
    requires 0 <= i < |slices[0].points|
    ensures SameCounts(slices[1..]) && |slices[1..][0].points| == |slices[0].points|
    ensures |slices[0].points| * j + i < |Middle(pr, slices)|
    ensures Middle(pr, slices)[|slices[0].points| * j + i] ==
      Middle(pr, slices[1..])[|slices[0].points| * (j - 1) + i]
  {
    var n := |slices[0].points|;
    assert slices[1..][0] == slices[1];
    MiddleCount(pr, slices);
    IndexBelow(n, j, i, |slices| - 1);
    IndexShift(n, j, i);
    MiddleTail(pr, slices, n * j + i);
  }

  /** The first n middle polygons are the reversed quads of the first ring. */
  lemma MiddleHead(pr: Projection, slices: seq<Slice>, i: int)
    requires SameCounts(slices)
    requires |slices| >= 2
    requires 0 <= i < |slices[0].points|
    ensures i < |Middle(pr, slices)|
    ensures Middle(pr, slices)[i] == Reversed(Quad(SliceProject(slices[0], pr), SliceProject(slices[1], pr), i))
  {
  }

  /** Past the first ring, the middle polygons are those of the remaining slices. */
  lemma MiddleTail(pr: Projection, slices: seq<Slice>, t: int)
    requires SameCounts(slices)
    requires |slices| >= 2
    requires |slices[0].points| <= t < |Middle(pr, slices)|
    ensures SameCounts(slices[1..])
    ensures Middle(pr, slices)[t] == Middle(pr, slices[1..])[t - |slices[0].points|]
  {
    assert slices[1..][0] == slices[1];
  }

  /** Row-major indices stay below the table size: n j + i < n m for j < m and i < n. */
  lemma {:induction false} IndexBelow(n: int, j: int, i: int, m: int)
    requires 0 <= j < m && 0 <= i < n
    ensures n * j + i < n * m
    decreases m - j
  {
    assert n * (j + 1) == n * j + n;
    if j + 1 < m {
      IndexBelow(n, j + 1, i, m);
    }
  }

  /** The index of row j is one row past the index of row j - 1. */
  lemma IndexShift(n: int, j: int, i: int)
    ensures n * j + i == n + (n * (j - 1) + i)
  {
  }

  /**
   * A generated extrusion of k slices of n points has 2 + n (k - 1)
   * polygons: the bottom slice first and the top slice reversed last.
   */
  lemma GeneratePolygonsShape(pr: Projection, slices: seq<Slice>, ps: seq<SpaceShapes.Polygon3>)
    requires SameCounts(slices)
    requires GeneratePolygons(pr, slices) == Some(ps)
    ensures |ps| == 2 + |slices[0].points| * (|slices| - 1)
    ensures ps[0].points == SliceProject(slices[0], pr)
    ensures ps[|ps| - 1].points == Reversed(SliceProject(slices[|slices| - 1], pr))
  {
    MiddleCount(pr, slices);
  }

  /**
   * Between them, polygon 1 + j n + i is quad i of the ring between slices
   * j and j + 1, reversed.
   */
  lemma GeneratePolygonsRing(pr: Projection, slices: seq<Slice>, ps: seq<SpaceShapes.Polygon3>, j: int, i: int)
    requires SameCounts(slices)
    requires GeneratePolygons(pr, slices) == Some(ps)
    requires 0 <= j < |slices| - 1
    requires 0 <= i < |slices[0].points|
    ensures 1 + |slices[0].points| * j + i < |ps| - 1
    ensures ps[1 + |slices[0].points| * j + i].points ==
      Reversed(Quad(SliceProject(slices[j], pr), SliceProject(slices[j + 1], pr), i))
  {
    MiddleAt(pr, slices, j, i);
  }

  /**
   * Generation fails exactly when a slice has fewer than two points, or
   * when it has two and the first point of the bottom face or of the
   * reversed top face is the origin, where `normalized` divides by zero.
   */
  lemma GeneratePolygonsFails(pr: Projection, slices: seq<Slice>)
    requires SameCounts(slices)
    ensures GeneratePolygons(pr, slices).None? <==>
      |slices[0].points| < 2 ||
      (|slices[0].points| == 2 &&
        (MagnitudeSquared(SliceProject(slices[0], pr)[0]) == 0.0 ||
         MagnitudeSquared(SliceProject(slices[|slices| - 1], pr)[1]) == 0.0))
  {
    var n := |slices[0].points|;
    var polys := Faces(pr, slices);
    var bottom, top := SliceProject(slices[0], pr), Reversed(SliceProject(slices[|slices| - 1], pr));
    assert polys[0] == bottom && polys[|polys| - 1] == top;
    MiddleQuads(pr, slices);
    if n >= 2 {
      forall i | 0 < i < |polys| - 1
        ensures SpaceShapes.PlaneAccepts(polys[i])
      {
        assert polys[i] == Middle(pr, slices)[i - 1];
      }
      assert SpaceShapes.PlaneAccepts(bottom) <==> n >= 3 || MagnitudeSquared(bottom[0]) != 0.0;
      assert SpaceShapes.PlaneAccepts(top) <==> n >= 3 || MagnitudeSquared(top[0]) != 0.0;
    } else if |slices| == 1 {
      assert !SpaceShapes.PlaneAccepts(polys[0]);
    } else if n == 1 {
      assert !SpaceShapes.PlaneAccepts(polys[0]);
    }
  }

  /** Every ring quad has four corners, all of them points. */
  lemma {:induction false} MiddleQuads(pr: Projection, slices: seq<Slice>)
    requires SameCounts(slices)
    ensures forall q: seq<V3> :: q in Middle(pr, slices) ==> |q| == 4 && q[0].kind == PlanePoint.PointKind
    decreases |slices|
  {
    if |slices| >= 2 {
      assert SameCounts(slices[1..]);
      MiddleQuads(pr, slices[1..]);
    }
  }

  /** The last ring quad wraps around: it joins the last index back to index 0. */
  lemma QuadWraps(bottom: seq<V3>, top: seq<V3>)
    requires |bottom| == |top| > 0
    ensures Quad(bottom, top, |bottom| - 1) == [bottom[|bottom| - 1], bottom[0], top[0], top[|top| - 1]]
  {
  }

  /** `Extrusion` rejects slices of different sizes and an empty slice list. */
  lemma NewExtrusionRejects(pr: Projection, slices: seq<Slice>)
    ensures !SameCounts(slices) ==> NewExtrusion(pr, slices).None?
    ensures slices == [] ==> NewExtrusion(pr, slices).None?
  {
  }

  // ---------------------------------------------------------------------
  // Box

  /** The projection a Box uses: origin (0, 0, 0) and the unit axes, all vectors. */
  function BoxProjection(): Projection {
    Projection(Vector(0.0, 0.0, 0.0), Vector(1.0, 0.0, 0.0), Vector(0.0, 1.0, 0.0), Vector(0.0, 0.0, 1.0))
  }

  /** The footprint of a box: (ox, oy), (ox, ey), (ex, ey), (ex, oy). */
  function Footprint(origin: V3, extent: V3): (r: seq<PlanePoint.V2>)
    ensures |r| == 4
  {
    [PlanePoint.Point(origin.x, origin.y), PlanePoint.Point(origin.x, extent.y),
     PlanePoint.Point(extent.x, extent.y), PlanePoint.Point(extent.x, origin.y)]
  }

  /** A box: its origin, its extent and its extrusion. */
  datatype Box = Box(origin: V3, extent: V3, body: Extrusion)

  /** The slices of a box: the footprint at the origin's and the extent's levels. */
  function BoxSlices(origin: V3, extent: V3): seq<Slice> {
    [Slice(Footprint(origin, extent), origin.z), Slice(Footprint(origin, extent), extent.z)]
  }

  /** `Box(origin, size)`: extent = origin + size, then the extrusion of the footprint. */
  function NewBox(origin: V3, size: V3): (r: Box)
    ensures r.origin == origin
    ensures NewExtrusion(BoxProjection(), BoxSlices(r.origin, r.extent)) == Some(r.body)
  {
    var extent := Add(origin, Spatial(size)).value;
    var slices := BoxSlices(origin, extent);
    assert SameCounts(slices);
    GeneratePolygonsFails(BoxProjection(), slices);
    Box(origin, extent, NewExtrusion(BoxProjection(), slices).value)
  }

  /** `Box.size()`: extent - origin. */
  function Size(b: Box): V3 {
    Sub(b.extent, Spatial(b.origin)).value
  }

  /**
   * The size of a box is the size it was built with: the same coordinates,
   * and the same vector for a point or vector origin and a vector size.
   */
  lemma BoxSize(origin: V3, size: V3)
    ensures Size(NewBox(origin, size)).x == size.x
    ensures Size(NewBox(origin, size)).y == size.y
    ensures Size(NewBox(origin, size)).z == size.z
    ensures size.kind == PlanePoint.VectorKind ==> Size(NewBox(origin, size)) == size
  {
  }

  /**
   * A box has six faces: the bottom footprint at the origin's level, four
   * side quads, and the footprint reversed at the extent's level.
   */
  lemma BoxFaces(origin: V3, size: V3)
    ensures |NewBox(origin, size).body.polygons| == 6
    ensures NewBox(origin, size).body.polygons[0].points ==
      [Point(origin.x, origin.y, origin.z), Point(origin.x, NewBox(origin, size).extent.y, origin.z),
       Point(NewBox(origin, size).extent.x, NewBox(origin, size).extent.y, origin.z),
       Point(NewBox(origin, size).extent.x, origin.y, origin.z)]
    ensures NewBox(origin, size).body.polygons[5].points ==
      [Point(NewBox(origin, size).extent.x, origin.y, NewBox(origin, size).extent.z),
       Point(NewBox(origin, size).extent.x, NewBox(origin, size).extent.y, NewBox(origin, size).extent.z),
       Point(origin.x, NewBox(origin, size).extent.y, NewBox(origin, size).extent.z),
       Point(origin.x, origin.y, NewBox(origin, size).extent.z)]
  {
    var b := NewBox(origin, size);
    var slices := BoxSlices(origin, b.extent);
    GeneratePolygonsShape(BoxProjection(), slices, b.body.polygons);
    BoxLevel(origin, b.extent, origin.z);
    BoxLevel(origin, b.extent, b.extent.z);
  }

  /**
   * The first side face of a box: quad 0 of the ring, from the origin corner
   * along y at the bottom and back at the top, reversed.
   */
  lemma BoxSideFace(origin: V3, size: V3)
    ensures |NewBox(origin, size).body.polygons| == 6
    ensures NewBox(origin, size).body.polygons[1].points ==
      [Point(origin.x, origin.y, NewBox(origin, size).extent.z),
       Point(origin.x, NewBox(origin, size).extent.y, NewBox(origin, size).extent.z),
       Point(origin.x, NewBox(origin, size).extent.y, origin.z),
       Point(origin.x, origin.y, origin.z)]
  {
    var b := NewBox(origin, size);
    var slices := BoxSlices(origin, b.extent);
    GeneratePolygonsShape(BoxProjection(), slices, b.body.polygons);
    GeneratePolygonsRing(BoxProjection(), slices, b.body.polygons, 0, 0);
    BoxLevel(origin, b.extent, origin.z);
    BoxLevel(origin, b.extent, b.extent.z);
  }

  /** The footprint projected by the box projection at level z. */
  lemma BoxLevel(origin: V3, extent: V3, z: real)
    ensures SliceProject(Slice(Footprint(origin, extent), z), BoxProjection()) ==
      [Point(origin.x, origin.y, z), Point(origin.x, extent.y, z), Point(extent.x, extent.y, z), Point(extent.x, origin.y, z)]
  {
  }

  // ---------------------------------------------------------------------
  // PolygonExtrusion

  /** A polygon extrusion: its footprint, the stored height and its extrusion. */
  datatype PolygonExtrusion = PolygonExtrusion(footprint: seq<PlanePoint.V2>, height: real, body: Extrusion)

  /**
   * `PolygonExtrusion(projection, footprint, height)` as written: the top
   * slice is placed at level 1 whatever the height. An empty footprint makes
   * `ring` raise (None).
   */
  function NewPolygonExtrusion(pr: Projection, footprint: seq<PlanePoint.V2>, height: real): Option<PolygonExtrusion> {
    match NewExtrusion(pr, [Slice(footprint, 0.0), Slice(footprint, 1.0)])
    case None => None
    case Some(e) => Some(PolygonExtrusion(footprint, height, e))
  }

  /** `PolygonExtrusion` with the top slice at the stored height, as its documentation describes. */
  function NewPolygonExtrusionCorrected(pr: Projection, footprint: seq<PlanePoint.V2>, height: real): Option<PolygonExtrusion> {
    match NewExtrusion(pr, [Slice(footprint, 0.0), Slice(footprint, height)])
    case None => None
    case Some(e) => Some(PolygonExtrusion(footprint, height, e))
  }

  /**
   * As written, under the unit projection the top face sits at z = 1 for
   * every height: a height of 2 still gives a solid one unit tall.
   */
  lemma PolygonExtrusionTopAsWritten(footprint: seq<PlanePoint.V2>, height: real)
    requires |footprint| >= 3
    ensures NewPolygonExtrusion(UnitProjection(), footprint, height).Some?
    ensures forall q :: q in NewPolygonExtrusion(UnitProjection(), footprint, height).value.body.polygons[|footprint| + 1].points ==> q.z == 1.0
  {
    TopLevel(UnitProjection(), footprint, 1.0);
  }

  /** Corrected: under the unit projection the top face sits at z = height. */
  lemma PolygonExtrusionTopCorrected(footprint: seq<PlanePoint.V2>, height: real)
    requires |footprint| >= 3
    ensures NewPolygonExtrusionCorrected(UnitProjection(), footprint, height).Some?
    ensures forall q :: q in NewPolygonExtrusionCorrected(UnitProjection(), footprint, height).value.body.polygons[|footprint| + 1].points ==> q.z == height
  {
    TopLevel(UnitProjection(), footprint, height);
  }

  /** The last polygon of a two-slice extrusion under the unit projection lies at the top slice's level. */
  lemma TopLevel(pr: Projection, footprint: seq<PlanePoint.V2>, top: real)
    requires pr == UnitProjection()
    requires |footprint| >= 3
    ensures NewExtrusion(pr, [Slice(footprint, 0.0), Slice(footprint, top)]).Some?
    ensures |NewExtrusion(pr, [Slice(footprint, 0.0), Slice(footprint, top)]).value.polygons| == |footprint| + 2
    ensures forall q :: q in NewExtrusion(pr, [Slice(footprint, 0.0), Slice(footprint, top)]).value.polygons[|footprint| + 1].points ==> q.z == top
  {
    var slices := [Slice(footprint, 0.0), Slice(footprint, top)];
    assert SameCounts(slices);
    GeneratePolygonsFails(pr, slices);
    var ps := GeneratePolygons(pr, slices).value;
    GeneratePolygonsShape(pr, slices, ps);
    SliceProjectUnit(slices[1]);
  }
}
