/**
 * `frange` (petrify/machine/util.py, repeated in petrify/machine/feed.py):
 * a float range from a towards b by step, counted up front, which never
 * yields b from the count and yields it at the end when asked to.
 */
module Frange {
  import opened Wrappers

  /** The ix-th value of the range. */
  function At(a: real, step: real, ix: int): real {
    a + (ix as real) * step
  }

  /** `math.floor((b - a) / step) if a != b else 1`. */
  function Count(a: real, b: real, step: real): int
    requires a == b || step != 0.0
  {
    if a != b then ((b - a) / step).Floor else 1
  }

  /** The values of the counted loop over the first n indices, b skipped. */
  function Counted(a: real, b: real, step: real, n: nat): (r: seq<real>)
    ensures |r| <= n
  {
    if n == 0 then []
    else Counted(a, b, step, n - 1) + (if At(a, step, n - 1) != b then [At(a, step, n - 1)] else [])
  }

  /** Everything `frange(a, b, step, inclusive)` yields. */
  function Frange(a: real, b: real, step: real, inclusive: bool): seq<real>
    requires a == b || step != 0.0
  {
    var count := Count(a, b, step);
    Counted(a, b, step, if count > 0 then count else 0) + (if inclusive then [b] else [])
  }

  /**
   * The generator run to the end. A zero step with a != b raises
   * ZeroDivisionError (None).
   */
  method FrangeValues(a: real, b: real, step: real, inclusive: bool) returns (r: Option<seq<real>>)
    ensures r.None? <==> a != b && step == 0.0
    ensures r.Some? ==> r.value == Frange(a, b, step, inclusive)
  {
    if a != b && step == 0.0 {
      return None;
    }
    var count := if a != b then ((b - a) / step).Floor else 1;
    var values := CountedValues(a, b, step, count);
    if inclusive {
      values := values + [b];
    }
    r := Some(values);
  }

  /** The counted loop: `a + ix * step` for each index below count, b skipped. */
  method CountedValues(a: real, b: real, step: real, count: int) returns (values: seq<real>)
    ensures values == Counted(a, b, step, if count > 0 then count else 0)
  {
    values := [];
    var ix := 0;
    while ix < count
      invariant 0 <= ix
      invariant ix == 0 || ix <= count
      invariant values == Counted(a, b, step, ix)
    {
      var v := a + (ix as real * step);
      assert v == At(a, step, ix);
      assert Counted(a, b, step, ix + 1) == Counted(a, b, step, ix) + (if v != b then [v] else []);
      if v != b {
        values := values + [v];
      }
      ix := ix + 1;
    }
  }

  // ---------------------------------------------------------------------
  // Properties

  /** The counted values are exactly the At(ix) below n that differ from b, in index order. */
  lemma {:induction false} CountedMembers(a: real, b: real, step: real, n: nat, v: real)
    ensures v in Counted(a, b, step, n) <==> exists ix :: 0 <= ix < n && At(a, step, ix) == v && v != b
  {
    if n > 0 {
      CountedMembers(a, b, step, n - 1, v);
      if v in Counted(a, b, step, n) && v !in Counted(a, b, step, n - 1) {
        assert At(a, step, n - 1) == v;
      }
    }
  }

  /** Without `inclusive` b is never yielded; with it, b comes last. */
  lemma EndValue(a: real, b: real, step: real)
    requires a == b || step != 0.0
    ensures b !in Frange(a, b, step, false)
    ensures Frange(a, b, step, true) == Frange(a, b, step, false) + [b]
  {
    var count := Count(a, b, step);
    CountedMembers(a, b, step, if count > 0 then count else 0, b);
  }

  /** frange(a, a, ...) is [a] when inclusive and empty otherwise. */
  lemma EmptyRange(a: real, step: real, inclusive: bool)
    ensures Frange(a, a, step, inclusive) == if inclusive then [a] else []
  {
    assert Counted(a, a, step, 1) == [];
  }

  lemma BelowQuotient(ix: int, q: real, step: real, d: real)
    requires 0 <= ix && ix < q.Floor && step != 0.0 && q == d / step
    ensures (ix as real) * step < d <==> step > 0.0
    ensures (ix as real) * step > d <==> step < 0.0
  {
    assert (ix as real) < q;
    assert q * step == d;
    if step > 0.0 {
      assert (ix as real) * step < q * step;
    } else {
      assert (ix as real) * step > q * step;
    }
  }

  /**
   * With a positive step every counted value lies in [a, b); with a
   * negative one, in (b, a].
   */
  lemma Bounds(a: real, b: real, step: real, v: real)
    requires a != b && step != 0.0
    requires v in Counted(a, b, step, if Count(a, b, step) > 0 then Count(a, b, step) else 0)
    ensures step > 0.0 ==> a <= v < b
    ensures step < 0.0 ==> b < v <= a
  {
    var count := Count(a, b, step);
    CountedMembers(a, b, step, if count > 0 then count else 0, v);
    var ix :| 0 <= ix < (if count > 0 then count else 0) && At(a, step, ix) == v && v != b;
    BelowQuotient(ix, (b - a) / step, step, b - a);
    if step > 0.0 {
      assert (ix as real) * step >= 0.0;
    } else {
      assert (ix as real) * step <= 0.0;
    }
  }

  /** The unit test: frange(-1, -5, -1, inclusive=True) is -1, -2, -3, -4, -5. */
  lemma DescendingExample(a: real, b: real, step: real)
    requires a == -1.0 && b == -5.0 && step == -1.0
    ensures Frange(a, b, step, true) == [-1.0, -2.0, -3.0, -4.0, -5.0]
  {
    assert Count(a, b, step) == 4;
    assert Counted(a, b, step, 1) == [-1.0];
    assert Counted(a, b, step, 2) == [-1.0, -2.0];
    assert Counted(a, b, step, 3) == [-1.0, -2.0, -3.0];
    assert Counted(a, b, step, 4) == [-1.0, -2.0, -3.0, -4.0];
  }
}
