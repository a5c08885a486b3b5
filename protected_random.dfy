/*
 * The snake benchmark's own `random` module (benchmarks/snake/classes/random.py).
 * Under Python 2's implicit relative imports every `import random` inside the
 * classes package resolves to this file, so each `random.randint(a, b)` of
 * the game goes through it: the bounds are put in order, equal bounds are
 * widened by one, and numpy's half-open `randint` draws from [low, high).
 */
module ProtectedRandom {

  /** The interval handed to numpy: ordered, and never empty. */
  function Bounds(low: int, high: int): (b: (int, int))
    ensures b.0 < b.1
    ensures b.0 == if low <= high then low else high
    ensures b.1 == if low == high then high + 1 else if low < high then high else low
  {
    var (lo, hi) := if low > high then (high, low) else (low, high);
    if lo == hi then (lo, hi + 1) else (lo, hi)
  }

  /** The values `randint(low, high)` can return. */
  predicate Drawable(r: int, low: int, high: int)
  {
    Bounds(low, high).0 <= r < Bounds(low, high).1
  }

  /** numpy's `random.randint(low, high)`: a draw from [low, high); it raises when low >= high. */
  method NumpyRandInt(low: int, high: int) returns (r: int)
    requires low < high
    ensures low <= r < high
  {
    assert low <= low < high;
    r :| low <= r < high;
  }

  /** `randint` (random.py:7-15). */
  method RandInt(low: int, high: int) returns (r: int)
    ensures Drawable(r, low, high)
  {
    var lo, hi := low, high;
    if lo > hi {
      lo, hi := hi, lo;
    }
    if lo == hi {
      hi := hi + 1;
    }
    r := NumpyRandInt(lo, hi);
  }

  /**
   * What the draw returns, in terms of the caller's bounds: the lower bound when
   * they are equal, otherwise a value from the smaller bound up to, but not
   * including, the larger one, whichever order they came in.
   */
  lemma DrawableIs(r: int, low: int, high: int)
    ensures Drawable(r, low, high) <==>
      if low == high then r == low
      else if low < high then low <= r < high
      else high <= r < low
  {
  }

  /** The order of the bounds does not matter. */
  lemma DrawableSymmetric(r: int, low: int, high: int)
    ensures Drawable(r, low, high) <==> Drawable(r, high, low)
  {
  }

  /** Unlike Python's own `random.randint`, the upper bound of two different bounds is never drawn. */
  lemma UpperBoundNeverDrawn(low: int, high: int)
    requires low < high
    ensures !Drawable(high, low, high)
    ensures Drawable(low, low, high) && Drawable(high - 1, low, high)
  {
  }
}
