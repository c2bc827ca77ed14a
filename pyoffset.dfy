/**
 * The pure-Python offset engine (petrify/engines/pyoffset.py): every
 * interior polygon is offset by -amount, every exterior one by +amount, and
 * the polygons whose offset vanishes are dropped.
 */
module PyOffset {
  import opened Wrappers
  import opened PlanePoint
  import opened PlanePolygon
  import opened PlaneOffset

  /** The offset of each polygon of ps by v, in order. */
  function Outcomes(ps: seq<Polygon>, v: real, mag: V2 -> real): seq<Outcome>
    requires IsMagnitude(mag)
  {
    seq(|ps|, i requires 0 <= i < |ps| => OffsetSpec(ps[i], v, mag))
  }

  /**
   * The list comprehension and filter of `off`: the polygons among the
   * outcomes, in order; None when one of the offsets raised.
   */
  function Collect(outs: seq<Outcome>): Option<seq<Polygon>> {
    if |outs| == 0 then Some([])
    else
      match Collect(outs[1..])
      case None => None
      case Some(rest) =>
        match outs[0]
        case Failed => None
        case NoPolygon => Some(rest)
        case Shape(q) => Some([q] + rest)
  }

  /** `off(ps, v)`. */
  function OffsetEach(ps: seq<Polygon>, v: real, mag: V2 -> real): Option<seq<Polygon>>
    requires IsMagnitude(mag)
  {
    Collect(Outcomes(ps, v, mag))
  }

  /** `offset(polygon, amount)` on a complex polygon. */
  function OffsetComplex(c: Complex, amount: real, mag: V2 -> real): Option<Complex>
    requires IsMagnitude(mag)
  {
    match OffsetEach(c.interior, -amount, mag)
    case None => None
    case Some(inner) =>
      match OffsetEach(c.exterior, amount, mag)
      case None => None
      case Some(outer) => Some(Complex(inner, outer))
  }

  /** The indices of the outcomes that are polygons, in order. */
  function Survivors(outs: seq<Outcome>): seq<nat> {
    if |outs| == 0 then []
    else
      var shifted := Bumped(Survivors(outs[1..]));
      if outs[0].Shape? then [0] + shifted else shifted
  }

  /** Each index one further on. */
  function Bumped(s: seq<nat>): (r: seq<nat>)
    ensures |r| == |s|
  {
    seq(|s|, k requires 0 <= k < |s| => s[k] + 1)
  }

  predicate Increasing(s: seq<nat>) {
    forall j, k :: 0 <= j < k < |s| ==> s[j] < s[k]
  }

  // ---------------------------------------------------------------------
  // Properties

  /** Collecting fails exactly when one offset failed. */
  lemma {:induction false} CollectFails(outs: seq<Outcome>)
    ensures Collect(outs).None? <==> Failed in outs
  {
    if |outs| > 0 {
      CollectFails(outs[1..]);
      assert outs == [outs[0]] + outs[1..];
    }
  }

  /**
   * The survivor indices increase, stay below the length, and an index
   * survives exactly when its outcome is a polygon.
   */
  lemma {:induction false} SurvivorsExact(outs: seq<Outcome>)
    ensures |Survivors(outs)| <= |outs|
    ensures Increasing(Survivors(outs))
    ensures forall k :: 0 <= k < |Survivors(outs)| ==> Survivors(outs)[k] < |outs|
    ensures forall i :: 0 <= i < |outs| ==> (i in Survivors(outs) <==> outs[i].Shape?)
  {
    if |outs| > 0 {
      var tail := outs[1..];
      SurvivorsExact(tail);
      var rest := Survivors(tail);
      BumpedOrder(rest, |tail|);
      forall i | 0 <= i < |outs|
        ensures i in Survivors(outs) <==> outs[i].Shape?
      {
        if i > 0 {
          assert outs[i] == tail[i - 1];
          BumpedMember(rest, i);
        } else {
          BumpedMember(rest, 0);
        }
      }
    }
  }

  /** Bumping keeps indices increasing and moves the bound up by one; 0 may go in front. */
  lemma BumpedOrder(s: seq<nat>, n: nat)
    requires Increasing(s) && forall k :: 0 <= k < |s| ==> s[k] < n
    ensures Increasing(Bumped(s)) && Increasing([0] + Bumped(s))
    ensures forall k :: 0 <= k < |s| ==> Bumped(s)[k] < n + 1
  {
    var b := Bumped(s);
    assert forall k :: 0 <= k < |b| ==> b[k] == s[k] + 1 > 0;
    var z := [0] + b;
    assert forall k :: 1 <= k < |z| ==> z[k] == b[k - 1];
  }

  /** i is a bumped index exactly when i - 1 is an index; 0 never is. */
  lemma BumpedMember(s: seq<nat>, i: nat)
    ensures i in Bumped(s) <==> i > 0 && i - 1 in s
  {
    var b := Bumped(s);
    if i in b {
      var k :| 0 <= k < |b| && b[k] == i;
      assert s[k] == i - 1;
    }
    if i > 0 && i - 1 in s {
      var k :| 0 <= k < |s| && s[k] == i - 1;
      assert b[k] == i;
    }
  }

  /**
   * When nothing failed, the result holds the polygon of each survivor, in
   * order: the k-th result is the polygon of the k-th surviving outcome.
   */
  lemma {:induction false} CollectKeepsOrder(outs: seq<Outcome>)
    requires Collect(outs).Some?
    ensures |Collect(outs).value| == |Survivors(outs)|
    ensures forall k :: 0 <= k < |Survivors(outs)| ==>
      0 <= Survivors(outs)[k] < |outs| && outs[Survivors(outs)[k]] == Shape(Collect(outs).value[k])
  {
    if |outs| > 0 {
      var tail := outs[1..];
      CollectKeepsOrder(tail);
      var rest := Survivors(tail);
      var shifted := Bumped(rest);
      var out := Collect(tail).value;
      if outs[0].Shape? {
        assert Survivors(outs) == [0] + shifted;
        assert Collect(outs).value == [outs[0].poly] + out;
        forall k | 1 <= k < |Survivors(outs)|
          ensures 0 <= Survivors(outs)[k] < |outs| && outs[Survivors(outs)[k]] == Shape(Collect(outs).value[k])
        {
          assert Survivors(outs)[k] == rest[k - 1] + 1;
          assert outs[rest[k - 1] + 1] == tail[rest[k - 1]];
        }
      } else {
        assert Survivors(outs) == shifted;
        assert Collect(outs).value == out;
        forall k | 0 <= k < |Survivors(outs)|
          ensures 0 <= Survivors(outs)[k] < |outs| && outs[Survivors(outs)[k]] == Shape(Collect(outs).value[k])
        {
          assert outs[rest[k] + 1] == tail[rest[k]];
        }
      }
    }
  }

  /**
   * The interior list is offset by -amount and the exterior by +amount, each
   * kept in its own list with no reclassification; the result fails exactly
   * when one of the offsets fails.
   */
  lemma OffsetComplexProperties(c: Complex, amount: real, mag: V2 -> real)
    requires IsMagnitude(mag)
    ensures OffsetComplex(c, amount, mag).None? <==>
      Failed in Outcomes(c.interior, -amount, mag) || Failed in Outcomes(c.exterior, amount, mag)
    ensures OffsetComplex(c, amount, mag).Some? ==>
      OffsetComplex(c, amount, mag).value.interior == Collect(Outcomes(c.interior, -amount, mag)).value &&
      OffsetComplex(c, amount, mag).value.exterior == Collect(Outcomes(c.exterior, amount, mag)).value
  {
    CollectFails(Outcomes(c.interior, -amount, mag));
    CollectFails(Outcomes(c.exterior, amount, mag));
  }

  /** Each outcome is the offset of the polygon at the same position. */
  lemma OutcomeAt(ps: seq<Polygon>, v: real, mag: V2 -> real, i: int)
    requires IsMagnitude(mag) && 0 <= i < |ps|
    ensures |Outcomes(ps, v, mag)| == |ps|
    ensures Outcomes(ps, v, mag)[i] == OffsetSpec(ps[i], v, mag)
  {
  }
}
