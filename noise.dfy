/*
 * Noise sources of the MPF engine (mpfrl/noise.py): frozen random
 * distributions whose magnitude shrinks by a fixed decrement on every draw
 * until it reaches a floor, after which it stays there.
 */
module Noise {
  import opened Common

  /**
   * One draw's effect on the magnitude state (mpfrl/noise.py:22-25): the
   * magnitude drops by the decrement; if that takes it below the floor it is
   * set to the floor and the decrement becomes 0. Result: (magn, decrement).
   */
  function DecayStep(magn: real, decrease: real, minMagn: real): (r: (real, real))
    ensures minMagn <= r.0
  {
    if magn - decrease < minMagn then (minMagn, 0.0) else (magn - decrease, decrease)
  }

  /** The magnitude state after `k` draws. */
  function DecayIter(magn: real, decrease: real, minMagn: real, k: nat): (real, real)
  {
    if k == 0 then (magn, decrease)
    else
      var p := DecayIter(magn, decrease, minMagn, k - 1);
      DecayStep(p.0, p.1, minMagn)
  }

  /**
   * The state after a total decrement `total` has been taken off `magn`:
   * the lowered magnitude while it is still at or above the floor, and the
   * floor with a zero decrement once it would drop below.
   */
  function Decremented(magn: real, decrease: real, minMagn: real, total: real): (real, real)
  {
    if magn - total >= minMagn then (magn - total, decrease) else (minMagn, 0.0)
  }

  /** The total decrement taken by `k` draws of `d` each, as a running sum. */
  function Total(k: nat, d: real): real
  {
    if k == 0 then 0.0 else Total(k - 1, d) + d
  }

  /** The running sum of `k` decrements is `k*d`. */
  lemma {:induction false} TotalIsProduct(k: nat, d: real)
    ensures Total(k, d) == (k as real) * d
  {
    if k > 0 {
      TotalIsProduct(k - 1, d);
      MultipleStep(k, d);
    }
  }

  /** The decay after `k` draws is the closed form at the running total. */
  lemma {:induction false} DecayAfterTotal(magn: real, decrease: real, minMagn: real, k: nat)
    requires minMagn <= magn && 0.0 <= decrease
    ensures DecayIter(magn, decrease, minMagn, k) == Decremented(magn, decrease, minMagn, Total(k, decrease))
  {
    if k > 0 {
      DecayAfterTotal(magn, decrease, minMagn, k - 1);
      ClosedStep(magn, decrease, minMagn, Total(k - 1, decrease), Total(k, decrease));
    }
  }

  /**
   * Closed form of the decay: starting at or above the floor with a
   * non-negative decrement, after `k` draws the magnitude is `magn - k*decrease`
   * while that is still at or above the floor, and the floor (with a zero
   * decrement) from then on.
   */
  lemma DecayClosedForm(magn: real, decrease: real, minMagn: real, k: nat)
    requires minMagn <= magn && 0.0 <= decrease
    ensures DecayIter(magn, decrease, minMagn, k) == Decremented(magn, decrease, minMagn, (k as real) * decrease)
  {
    DecayAfterTotal(magn, decrease, minMagn, k);
    TotalIsProduct(k, decrease);
  }

  /** One draw takes the closed form after a total decrement `a` to that after `b = a + decrease`. */
  lemma ClosedStep(magn: real, decrease: real, minMagn: real, a: real, b: real)
    requires minMagn <= magn && 0.0 <= decrease && b == a + decrease
    ensures var p := Decremented(magn, decrease, minMagn, a); DecayStep(p.0, p.1, minMagn) == Decremented(magn, decrease, minMagn, b)
  {
  }

  /** k*d is (k-1)*d plus one more d. */
  lemma MultipleStep(k: nat, d: real)
    requires 0 < k
    ensures (k as real) * d == ((k - 1) as real) * d + d
  {
  }

  /** The magnitude never leaves [floor, start] while the decrement is non-negative. */
  lemma DecayBounded(magn: real, decrease: real, minMagn: real, k: nat)
    requires minMagn <= magn && 0.0 <= decrease
    ensures minMagn <= DecayIter(magn, decrease, minMagn, k).0 <= magn
  {
    DecayClosedForm(magn, decrease, minMagn, k);
    assert 0.0 <= (k as real) * decrease;
  }

  /** Once clamped, the state is a fixed point: further draws change nothing. */
  lemma DecayClampedIsFixed(minMagn: real, k: nat)
    ensures DecayIter(minMagn, 0.0, minMagn, k) == (minMagn, 0.0)
  {
    DecayClosedForm(minMagn, 0.0, minMagn, k);
  }

  /**
   * The constructor stores `magn + decrease` (mpfrl/noise.py:17), so the
   * first draw uses exactly the given magnitude when it is at or above the
   * floor, and the k-th draw uses `magn - (k-1)*decrease` until the floor.
   */
  lemma FirstDrawUsesGivenMagnitude(magn: real, decrease: real, minMagn: real)
    requires minMagn <= magn
    ensures DecayStep(magn + decrease, decrease, minMagn) == (magn, decrease)
  {
  }

  class UniformNoise {
    var shape: nat
    const lower: real
    const upper: real
    var magn: real
    var magnDecrease: real
    const minMagn: real

    /** mpfrl/noise.py:11-19 */
    constructor (lower: real, upper: real, magn: real, magnDecrease: real, minMagn: real)
      ensures shape == 1
      ensures this.lower == lower && this.upper == upper && this.minMagn == minMagn
      ensures this.magn == magn + magnDecrease && this.magnDecrease == magnDecrease
    {
      shape := 1;
      this.lower := lower;
      this.upper := upper;
      this.magn := magn + magnDecrease;
      this.magnDecrease := magnDecrease;
      this.minMagn := minMagn;
    }

    /**
     * mpfrl/noise.py:21-27: decay the magnitude, then return `shape` uniform
     * draws in [lower, upper) scaled by the new magnitude. The ghost result
     * `u` holds the raw draws.
     */
    method Call() returns (r: seq<real>, ghost u: seq<real>)
      modifies this`magn, this`magnDecrease
      ensures (magn, magnDecrease) == DecayStep(old(magn), old(magnDecrease), minMagn)
      ensures minMagn <= magn
      ensures |u| == shape && |r| == shape
      ensures forall k :: 0 <= k < shape ==> r[k] == u[k] * magn
      ensures lower < upper ==> forall k :: 0 <= k < shape ==> lower <= u[k] < upper
    {
      magn := magn - magnDecrease;
      if magn < minMagn {
        magnDecrease := 0.0;
        magn := minMagn;
      }
      r, u := [], [];
      ghost var state := (magn, magnDecrease);
      while |r| < shape
        invariant (magn, magnDecrease) == state
        invariant |u| == |r| <= shape
        invariant forall k :: 0 <= k < |r| ==> r[k] == u[k] * magn
        invariant lower < upper ==> forall k :: 0 <= k < |r| ==> lower <= u[k] < upper
      {
        var x := UniformBetween(lower, upper);
        u := u + [x];
        r := r + [x * magn];
      }
    }
  }

  class GaussianNoise {
    var shape: nat
    const mean: real
    var magn: real
    var magnDecrease: real
    const minMagn: real

    /** mpfrl/noise.py:30-37 */
    constructor (mean: real, magn: real, magnDecrease: real, minMagn: real)
      ensures shape == 1 && this.mean == mean && this.minMagn == minMagn
      ensures this.magn == magn + magnDecrease && this.magnDecrease == magnDecrease
    {
      shape := 1;
      this.mean := mean;
      this.magn := magn + magnDecrease;
      this.magnDecrease := magnDecrease;
      this.minMagn := minMagn;
    }

    /**
     * mpfrl/noise.py:39-45: the same decay as the uniform source; the draw
     * itself then reads an attribute the class never defines, so every call
     * ends in an error after the decay has happened.
     */
    method Call() returns (r: Result<seq<real>>)
      modifies this`magn, this`magnDecrease
      ensures (magn, magnDecrease) == DecayStep(old(magn), old(magnDecrease), minMagn)
      ensures minMagn <= magn
      ensures r.Failure?
    {
      magn := magn - magnDecrease;
      if magn < minMagn {
        magnDecrease := 0.0;
        magn := minMagn;
      }
      r := Failure("AttributeError: GaussianNoise has no attribute 'lower'");
    }
  }
}
