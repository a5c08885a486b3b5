/*
 * Shared definitions of the MPF engine model: the float32 epsilon used as a
 * floor for divisors, optional values and results, sums over real vectors,
 * first-minimum / first-maximum selection (numpy's argmin / argmax), and the
 * random draws the engine and the games consume.
 */
module Common {

  /** float32 machine epsilon, 2^-23 (numpy `finfo(float32).eps`). */
  const EPS: real := 1.0 / 8388608.0

  datatype Option<T> = None | Some(value: T)

  datatype Result<T> = Success(value: T) | Failure(error: string)

  /** Sum of a real vector (numpy `sum`). */
  function Sum(s: seq<real>): real
  {
    if s == [] then 0.0 else Sum(s[..|s| - 1]) + s[|s| - 1]
  }

  lemma {:induction false} SumAppend(s: seq<real>, t: seq<real>)
    ensures Sum(s + t) == Sum(s) + Sum(t)
    decreases |t|
  {
    if t == [] {
      assert s + t == s;
    } else {
      assert (s + t)[..|s + t| - 1] == s + t[..|t| - 1];
      SumAppend(s, t[..|t| - 1]);
    }
  }

  lemma {:induction false} SumNonNegative(s: seq<real>)
    requires forall i :: 0 <= i < |s| ==> 0.0 <= s[i]
    ensures 0.0 <= Sum(s)
  {
    if s != [] {
      SumNonNegative(s[..|s| - 1]);
    }
  }

  /** Element-wise division of a vector by a scalar. */
  function Divide(s: seq<real>, d: real): (r: seq<real>)
    requires d != 0.0
    ensures |r| == |s| && forall i :: 0 <= i < |s| ==> r[i] * d == s[i]
  {
    seq(|s|, i requires 0 <= i < |s| => s[i] / d)
  }

  /** Dividing a vector by a scalar divides its total by the same scalar. */
  lemma {:induction false} SumDivide(s: seq<real>, d: real)
    requires d != 0.0
    ensures Sum(Divide(s, d)) == Sum(s) / d
  {
    if s != [] {
      var p := s[..|s| - 1];
      assert Divide(s, d)[..|s| - 1] == Divide(p, d);
      SumDivide(p, d);
    }
  }

  /** Dividing a vector by its own non-zero total leaves a vector summing to 1. */
  lemma NormalisedSumsToOne(s: seq<real>)
    requires Sum(s) != 0.0
    ensures Sum(Divide(s, Sum(s))) == 1.0
  {
    SumDivide(s, Sum(s));
    var t := Sum(s);
    assert t / t == 1.0;
  }

  /** Element-wise product of two vectors of the same length. */
  function Times(s: seq<real>, t: seq<real>): (r: seq<real>)
    requires |s| == |t|
    ensures |r| == |s| && forall i :: 0 <= i < |s| ==> r[i] == s[i] * t[i]
  {
    seq(|s|, i requires 0 <= i < |s| => s[i] * t[i])
  }

  /** Index of the first minimal entry (numpy `argmin`). */
  function ArgMin(s: seq<real>): (k: nat)
    requires |s| > 0
    ensures k < |s|
    ensures forall j :: 0 <= j < |s| ==> s[k] <= s[j]
    ensures forall j :: 0 <= j < k ==> s[k] < s[j]
  {
    if |s| == 1 then 0
    else
      var k := ArgMin(s[..|s| - 1]);
      if s[|s| - 1] < s[k] then |s| - 1 else k
  }

  /** Index of the first maximal entry (numpy `argmax`). */
  function ArgMax(s: seq<real>): (k: nat)
    requires |s| > 0
    ensures k < |s|
    ensures forall j :: 0 <= j < |s| ==> s[j] <= s[k]
    ensures forall j :: 0 <= j < k ==> s[j] < s[k]
  {
    if |s| == 1 then 0
    else
      var k := ArgMax(s[..|s| - 1]);
      if s[k] < s[|s| - 1] then |s| - 1 else k
  }

  /** Smallest entry of a non-empty vector (numpy `min` over a whole array). */
  function Min(s: seq<real>): (m: real)
    requires |s| > 0
    ensures forall j :: 0 <= j < |s| ==> m <= s[j]
    ensures exists j :: 0 <= j < |s| && m == s[j]
  {
    s[ArgMin(s)]
  }

  function Max2(a: real, b: real): (m: real)
    ensures a <= m && b <= m && (m == a || m == b)
  {
    if a < b then b else a
  }

  function Min2(a: real, b: real): (m: real)
    ensures m <= a && m <= b && (m == a || m == b)
  {
    if b < a then b else a
  }

  /** Absolute value (numpy `abs`). */
  function Abs(x: real): (r: real)
    ensures 0.0 <= r && (r == x || r == -x)
  {
    if x < 0.0 then -x else x
  }

  predicate InHalfOpen(u: real, lo: real, hi: real) { lo <= u < hi }

  /** A uniform draw in [lo, hi) (numpy `random.uniform` / `random_sample`). */
  method Uniform(lo: real, hi: real) returns (u: real)
    requires lo < hi
    ensures lo <= u < hi
  {
    assert InHalfOpen(lo, lo, hi);
    var x :| InHalfOpen(x, lo, hi);
    assert InHalfOpen(x, lo, hi);
    u := x;
  }

  /**
   * numpy `random.uniform(a, b)` for bounds in either order: a value in
   * [a, b) when a < b, a itself when they are equal, and a value in (b, a]
   * when a > b.
   */
  method UniformBetween(a: real, b: real) returns (u: real)
    ensures a < b ==> a <= u < b
    ensures a == b ==> u == a
    ensures b < a ==> b < u <= a
  {
    if a < b {
      u := Uniform(a, b);
    } else if a == b {
      u := a;
    } else {
      var v := Uniform(b, a);
      u := a + b - v;
    }
  }

  /** A vector of `n` uniform draws in [lo, hi). */
  method UniformVector(lo: real, hi: real, n: nat) returns (v: seq<real>)
    requires lo < hi
    ensures |v| == n && forall i :: 0 <= i < n ==> lo <= v[i] < hi
  {
    v := [];
    while |v| < n
      invariant |v| <= n
      invariant forall i :: 0 <= i < |v| ==> lo <= v[i] < hi
    {
      var u := Uniform(lo, hi);
      v := v + [u];
    }
  }

  /** A rows-by-cols matrix of uniform draws in [lo, hi). */
  method UniformMatrix(lo: real, hi: real, rows: nat, cols: nat) returns (m: seq<seq<real>>)
    requires lo < hi
    ensures |m| == rows
    ensures forall i :: 0 <= i < rows ==> |m[i]| == cols && forall k :: 0 <= k < cols ==> lo <= m[i][k] < hi
  {
    m := [];
    while |m| < rows
      invariant |m| <= rows
      invariant forall i :: 0 <= i < |m| ==> |m[i]| == cols && forall k :: 0 <= k < cols ==> lo <= m[i][k] < hi
    {
      var v := UniformVector(lo, hi, cols);
      m := m + [v];
    }
  }

  /** A positive multiple of `p` is at least `p`. */
  lemma {:induction false} MulAtLeast(a: nat, p: nat)
    requires 1 <= a
    ensures p <= a * p
  {
    if 1 < a {
      MulAtLeast(a - 1, p);
      assert a * p == (a - 1) * p + p;
    }
  }
}
