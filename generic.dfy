/**
 * The generic constructors of petrify/generic.py: `Vector` and `Point`
 * choose the planar or the spatial class by argument count; `Polygon`,
 * `Line`, `Ray` and `LineSegment` choose by the common embedding of their
 * arguments, which `embedding_from` insists is unique.
 */
module Generic {
  import opened Wrappers
  import PlanePoint
  import SpacePoint

  /** The module an argument belongs to: `plane`, `space` or anything else. */
  datatype Embedding = Plane | Space | Elsewhere

  /** The outcome of an arity dispatch; NotImplemented is returned, not raised. */
  datatype Coords = Planar(v2: PlanePoint.V2) | Spatial(v3: SpacePoint.V3) | NotImplemented

  /** `Vector(*args)`. */
  function Vector(args: seq<real>): (r: Coords)
    ensures r.Planar? <==> |args| == 2
    ensures r.Spatial? <==> |args| == 3
    ensures r.Planar? ==> r.v2 == PlanePoint.Vector(args[0], args[1])
    ensures r.Spatial? ==> r.v3 == SpacePoint.Vector(args[0], args[1], args[2])
  {
    if |args| == 2 then Planar(PlanePoint.Vector(args[0], args[1]))
    else if |args| == 3 then Spatial(SpacePoint.Vector(args[0], args[1], args[2]))
    else NotImplemented
  }

  /** `Point(*args)`. */
  function Point(args: seq<real>): (r: Coords)
    ensures r.Planar? <==> |args| == 2
    ensures r.Spatial? <==> |args| == 3
    ensures r.Planar? ==> r.v2 == PlanePoint.Point(args[0], args[1])
    ensures r.Spatial? ==> r.v3 == SpacePoint.Point(args[0], args[1], args[2])
  {
    if |args| == 2 then Planar(PlanePoint.Point(args[0], args[1]))
    else if |args| == 3 then Spatial(SpacePoint.Point(args[0], args[1], args[2]))
    else NotImplemented
  }

  /** The set of embeddings the arguments carry. */
  function Embeddings<A>(args: seq<A>, embedding: A -> Embedding): set<Embedding> {
    set i | 0 <= i < |args| :: embedding(args[i])
  }

  /**
   * `embedding_from(args)`: the one embedding all arguments share; an empty
   * or mixed argument list fails the assertion (None).
   */
  function EmbeddingFrom<A>(args: seq<A>, embedding: A -> Embedding): Option<Embedding> {
    var embeds := Embeddings(args, embedding);
    if |embeds| == 1 then Some(embedding(args[0])) else None
  }

  /** The concrete classes the generic constructors hand their arguments to. */
  datatype Class = Polygon2 | Polygon3 | Line2 | Line3 | Ray2 | Ray3 | LineSegment2 | LineSegment3

  /** A class applied to the given arguments, or NotImplemented. */
  datatype Made<T> = Made(klass: Class, args: T) | Unsupported

  /** `create(Klass2, Klass3, e, args)`. */
  function Create<T>(klass2: Class, klass3: Class, e: Embedding, args: T): (r: Made<T>)
    ensures e == Plane ==> r == Made(klass2, args)
    ensures e == Space ==> r == Made(klass3, args)
    ensures e == Elsewhere ==> r == Unsupported
  {
    match e
    case Plane => Made(klass2, args)
    case Space => Made(klass3, args)
    case Elsewhere => Unsupported
  }

  /** Dispatch on the arguments' embedding; the assertion failing is None. */
  function Dispatch<A, T>(klass2: Class, klass3: Class, args: seq<A>, embedding: A -> Embedding, passed: T): Option<Made<T>> {
    match EmbeddingFrom(args, embedding)
    case None => None
    case Some(e) => Some(Create(klass2, klass3, e, passed))
  }

  /** `Polygon(points)`: the class receives the point list as its one argument. */
  function Polygon<A>(points: seq<A>, embedding: A -> Embedding): Option<Made<seq<A>>> {
    Dispatch(Polygon2, Polygon3, points, embedding, points)
  }

  /** `Line(*args)`. */
  function Line<A>(args: seq<A>, embedding: A -> Embedding): Option<Made<seq<A>>> {
    Dispatch(Line2, Line3, args, embedding, args)
  }

  /** `Ray(*args)`. */
  function Ray<A>(args: seq<A>, embedding: A -> Embedding): Option<Made<seq<A>>> {
    Dispatch(Ray2, Ray3, args, embedding, args)
  }

  /** `LineSegment(*args)`. */
  function LineSegment<A>(args: seq<A>, embedding: A -> Embedding): Option<Made<seq<A>>> {
    Dispatch(LineSegment2, LineSegment3, args, embedding, args)
  }

  // ---------------------------------------------------------------------
  // Properties

  /** All arguments carry the embedding e. */
  predicate AllIn<A>(args: seq<A>, embedding: A -> Embedding, e: Embedding) {
    forall i :: 0 <= i < |args| ==> embedding(args[i]) == e
  }

  /**
   * `embedding_from` succeeds exactly when the arguments are nonempty and
   * all share one embedding, and then returns that embedding.
   */
  lemma EmbeddingFromUnique<A>(args: seq<A>, embedding: A -> Embedding)
    ensures EmbeddingFrom(args, embedding).Some? <==> |args| > 0 && AllIn(args, embedding, embedding(args[0]))
    ensures EmbeddingFrom(args, embedding).Some? ==> EmbeddingFrom(args, embedding).value == embedding(args[0])
  {
    var embeds := Embeddings(args, embedding);
    if |args| == 0 {
      assert embeds == {};
    } else if AllIn(args, embedding, embedding(args[0])) {
      assert embeds == {embedding(args[0])};
    } else {
      var i :| 0 <= i < |args| && embedding(args[i]) != embedding(args[0]);
      var a, b := embedding(args[0]), embedding(args[i]);
      assert a in embeds && b in embeds;
      var rest := embeds - {a};
      assert embeds == rest + {a};
      assert b in rest;
      assert |embeds| == |rest| + 1;
    }
  }

  /** Arguments from two different embeddings make every generic constructor fail. */
  lemma MixedRefused<A>(args: seq<A>, embedding: A -> Embedding, i: int, j: int)
    requires 0 <= i < |args| && 0 <= j < |args| && embedding(args[i]) != embedding(args[j])
    ensures Polygon(args, embedding).None? && Line(args, embedding).None?
    ensures Ray(args, embedding).None? && LineSegment(args, embedding).None?
  {
    EmbeddingFromUnique(args, embedding);
  }

  /**
   * Nonempty arguments all in the plane go to the planar class, all in space
   * to the spatial class, unchanged; any other common module is NotImplemented.
   */
  lemma UniformDispatch<A>(args: seq<A>, embedding: A -> Embedding, e: Embedding)
    requires |args| > 0 && AllIn(args, embedding, e)
    ensures e == Plane ==>
              Polygon(args, embedding) == Some(Made(Polygon2, args))
              && Line(args, embedding) == Some(Made(Line2, args))
              && Ray(args, embedding) == Some(Made(Ray2, args))
              && LineSegment(args, embedding) == Some(Made(LineSegment2, args))
    ensures e == Space ==>
              Polygon(args, embedding) == Some(Made(Polygon3, args))
              && Line(args, embedding) == Some(Made(Line3, args))
              && Ray(args, embedding) == Some(Made(Ray3, args))
              && LineSegment(args, embedding) == Some(Made(LineSegment3, args))
    ensures e == Elsewhere ==> Line(args, embedding) == Some(Unsupported)
  {
    EmbeddingFromUnique(args, embedding);
  }

  /** No arguments at all also fail the assertion. */
  lemma EmptyRefused<A>(args: seq<A>, embedding: A -> Embedding)
    requires |args| == 0
    ensures Polygon(args, embedding).None? && Line(args, embedding).None?
  {
    EmbeddingFromUnique(args, embedding);
  }
}
