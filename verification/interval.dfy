/**
 * A closed range [min, max] that randomised vehicle attributes are drawn from.
 * The random engine is not modelled: a uniform draw is given as a unit draw
 * `u` in [0, 1], and a normal draw is given as the raw sample of the normal
 * distribution, which the interval then clips into range.
 */
module Intervals {

  datatype Interval = Interval(min: real, max: real)

  predicate Proper(iv: Interval) {
    iv.min <= iv.max
  }

  predicate Contains(iv: Interval, x: real) {
    iv.min <= x <= iv.max
  }

  /** Clipping: cap at the upper bound first, then raise to the lower bound. */
  function Clip(n: real, lower: real, upper: real): (r: real)
    ensures lower <= upper ==> lower <= r <= upper
    ensures lower <= n <= upper ==> r == n
    ensures n < lower ==> r == lower
    ensures lower <= upper < n ==> r == upper
  {
    var low := if n < upper then n else upper;
    if lower < low then low else lower
  }

  lemma ClipIdempotent(n: real, lower: real, upper: real)
    ensures Clip(Clip(n, lower, upper), lower, upper) == Clip(n, lower, upper)
  {
  }

  /** A uniform draw over the interval, from a unit draw `u`. */
  function Uniform(iv: Interval, u: real): (r: real)
    requires 0.0 <= u <= 1.0
    ensures Proper(iv) ==> Contains(iv, r)
    ensures u == 0.0 ==> r == iv.min
    ensures u == 1.0 ==> r == iv.max
  {
    var w := iv.max - iv.min;
    assert Proper(iv) ==> 0.0 <= u * w <= w by {
      if Proper(iv) {
        MulUnitBounds(u, w);
      }
    }
    iv.min + u * w
  }

  lemma MulUnitBounds(u: real, w: real)
    requires 0.0 <= u <= 1.0 && 0.0 <= w
    ensures 0.0 <= u * w <= w
  {
    assert w - u * w == (1.0 - u) * w;
  }

  /** A normal draw: the raw sample of the distribution, clipped into range. */
  function Normal(iv: Interval, sample: real): (r: real)
    ensures Proper(iv) ==> Contains(iv, r)
    ensures Contains(iv, sample) ==> r == sample
  {
    Clip(sample, iv.min, iv.max)
  }

}
