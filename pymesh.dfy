/**
 * The face list of petrify/engines/pymesh.py: every polygon is cut into a
 * fan of triangles whose vertex indices point into one vertex array holding
 * the points of all polygons, polygon after polygon.
 */
module PyMesh {
  import SpaceShapes

  /** A triangle as three vertex indices. */
  type Face = (int, int, int)

  /**
   * `triangulate(size)`: the fan (0, a, a + 1) for a = 1 .. size - 2, so
   * size - 2 triangles, and none below three points.
   */
  function Triangulate(size: int): (r: seq<Face>)
    ensures |r| == if size < 2 then 0 else size - 2
    ensures forall k :: 0 <= k < |r| ==> r[k] == (0, k + 1, k + 2)
  {
    var n := if size < 2 then 0 else size - 2;
    seq(n, k requires 0 <= k < n => (0, k + 1, k + 2))
  }

  /** Every fan triangle has increasing indices below the size. */
  lemma TriangulateInRange(size: int)
    ensures forall f :: f in Triangulate(size) ==> 0 == f.0 < f.1 < f.2 < size
  {
    forall f | f in Triangulate(size)
      ensures 0 == f.0 < f.1 < f.2 < size
    {
      var k :| 0 <= k < |Triangulate(size)| && Triangulate(size)[k] == f;
    }
  }

  /** Each index of the faces moved up by ix. */
  function Shift(faces: seq<Face>, ix: int): (r: seq<Face>)
    ensures |r| == |faces|
  {
    seq(|faces|, k requires 0 <= k < |faces| => (faces[k].0 + ix, faces[k].1 + ix, faces[k].2 + ix))
  }

  /** The number of points of all the polygons. */
  function Total(ps: seq<SpaceShapes.Polygon3>): (r: int)
    ensures r >= 0
  {
    if ps == [] then 0 else Total(ps[..|ps| - 1]) + |ps[|ps| - 1].points|
  }

  /** The number of fan triangles of all the polygons. */
  function TriangleCount(ps: seq<SpaceShapes.Polygon3>): int {
    if ps == [] then 0
    else TriangleCount(ps[..|ps| - 1]) + |Triangulate(|ps[|ps| - 1].points|)|
  }

  /**
   * The reference definition of `facet`: the faces of the earlier polygons,
   * then the fan of the last one shifted past their points.
   */
  function Facets(ps: seq<SpaceShapes.Polygon3>): seq<Face> {
    if ps == [] then []
    else Facets(ps[..|ps| - 1]) + Shift(Triangulate(|ps[|ps| - 1].points|), Total(ps[..|ps| - 1]))
  }

  /**
   * `facet(polygons)`: for each polygon, its fan shifted by the number of
   * points before it, then that number grows by the polygon's size.
   */
  method Facet(ps: seq<SpaceShapes.Polygon3>) returns (faces: seq<Face>)
    ensures faces == Facets(ps)
  {
    faces := [];
    var ix := 0;
    var i := 0;
    while i < |ps|
      invariant 0 <= i <= |ps|
      invariant faces == Facets(ps[..i])
      invariant ix == Total(ps[..i])
    {
      var count := |ps[i].points|;
      faces := AppendFan(faces, Triangulate(count), ix);
      assert ps[..i + 1][..i] == ps[..i];
      ix := ix + count;
      i := i + 1;
    }
    assert ps[..i] == ps;
  }

  /** The inner loop of `facet`: each triangle of the fan, shifted by ix, appended in order. */
  method AppendFan(faces: seq<Face>, fan: seq<Face>, ix: int) returns (r: seq<Face>)
    ensures r == faces + Shift(fan, ix)
  {
    r := faces;
    var k := 0;
    while k < |fan|
      invariant 0 <= k <= |fan|
      invariant r == faces + Shift(fan, ix)[..k]
    {
      r := r + [(fan[k].0 + ix, fan[k].1 + ix, fan[k].2 + ix)];
      assert Shift(fan, ix)[..k + 1] == Shift(fan, ix)[..k] + [Shift(fan, ix)[k]];
      k := k + 1;
    }
    assert Shift(fan, ix)[..k] == Shift(fan, ix);
  }

  /** There is one face per fan triangle: the sum of max(len - 2, 0) over the polygons. */
  lemma {:induction false} FacetsCount(ps: seq<SpaceShapes.Polygon3>)
    ensures |Facets(ps)| == TriangleCount(ps)
  {
    if ps != [] {
      FacetsCount(ps[..|ps| - 1]);
    }
  }

  /**
   * Every face has three increasing indices below the total number of
   * points, so all of them address the shared vertex array.
   */
  lemma {:induction false} FacetsInRange(ps: seq<SpaceShapes.Polygon3>)
    ensures forall f :: f in Facets(ps) ==> 0 <= f.0 < f.1 < f.2 < Total(ps)
  {
    if ps != [] {
      var init := ps[..|ps| - 1];
      var last := |ps[|ps| - 1].points|;
      FacetsInRange(init);
      TriangulateInRange(last);
      var fan := Shift(Triangulate(last), Total(init));
      forall f | f in fan
        ensures Total(init) <= f.0 < f.1 < f.2 < Total(init) + last
      {
        var k :| 0 <= k < |fan| && fan[k] == f;
        assert Triangulate(last)[k] in Triangulate(last);
      }
    }
  }

  /**
   * The fan of the last polygon starts at the number of points before it:
   * its first face is (t, t + 1, t + 2) with t the points of the others.
   */
  lemma FacetsLastFan(ps: seq<SpaceShapes.Polygon3>)
    requires ps != [] && |ps[|ps| - 1].points| >= 3
    ensures |Facets(ps)| > 0
    ensures Facets(ps)[|Facets(ps[..|ps| - 1])|] ==
      (Total(ps[..|ps| - 1]), Total(ps[..|ps| - 1]) + 1, Total(ps[..|ps| - 1]) + 2)
  {
  }

  /** Two squares and a triangle: faces (0,1,2) (0,2,3) (4,5,6) (4,6,7) (8,9,10). */
  lemma FacetExample(a: SpaceShapes.Polygon3, b: SpaceShapes.Polygon3, c: SpaceShapes.Polygon3)
    requires |a.points| == 4 && |b.points| == 4 && |c.points| == 3
    ensures Facets([a, b, c]) == [(0, 1, 2), (0, 2, 3), (4, 5, 6), (4, 6, 7), (8, 9, 10)]
  {
    assert [a, b, c][..2] == [a, b];
    assert [a, b][..1] == [a];
    assert [a][..0] == [];
    assert Total([a]) == 4;
    assert Total([a, b]) == 8;
    assert Facets([a]) == [(0, 1, 2), (0, 2, 3)];
    assert Facets([a, b]) == [(0, 1, 2), (0, 2, 3), (4, 5, 6), (4, 6, 7)];
  }
}
