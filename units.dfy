/*
 * Units of the MPF hierarchy (mpfrl/units.py). A unit pairs a spatial SOM
 * (the spatial pooler, with the Markov predictor enabled) with an optional
 * temporal RSOM (the temporal pooler). Units form a tree: a parent gives each
 * child a contiguous range of its input vector, collects the children's
 * temporal activations there, and runs its own forward pass once every child
 * has reported; in the backward pass it hands every child, in order, the
 * slice of the vector it generated. The unit kernels are those of
 * `MPF_Unit_RL`: the spatial activation is biased by the previous prediction,
 * normalised with a floor, its winner trains the spatial SOM and, with a
 * temporal pooler, is sent on as a one-hot vector; the reward correlation
 * sets a backward bias clamped to [EPS, 1]; the reward learning rate and the
 * bias influence decay towards floors.
 */
module Units {
  import opened Common
  import Noise
  import SOM

  /** Unit types (mpfrl/units.py:11-13). */
  const SENSOR: nat := 1
  const ACTUATOR: nat := 2
  const INTERNAL: nat := 3

  /**
   * Noise decrement of a unit's SOMs: 0.0001, divided by 10 per level
   * (mpfrl/units.py:44-47).
   */
  function NoiseDecrease(level: Option<nat>): (d: real)
    ensures 0.0 < d <= 0.0001
    ensures level == Some(0) || level.None? ==> d == 0.0001
  {
    match level
    case None => 0.0001
    case Some(l) => LevelDecrease(l)
  }

  /** 0.0001 * 10^-l. */
  function LevelDecrease(l: nat): (d: real)
    ensures 0.0 < d <= 0.0001
  {
    if l == 0 then 0.0001 else LevelDecrease(l - 1) / 10.0
  }

  lemma MulNonNegative(x: real, y: real)
    requires 0.0 <= x && 0.0 <= y
    ensures 0.0 <= x * y
  {
  }

  /** One level up, the decrement is a tenth of the one below. */
  lemma NoiseDecreaseTenfold(l: nat)
    ensures NoiseDecrease(Some(l + 1)) * 10.0 == NoiseDecrease(Some(l))
  {
  }

  // ---------------------------------------------------------------------
  // Input ranges of consecutive children
  // ---------------------------------------------------------------------

  function SumNat(s: seq<nat>): nat
  {
    if s == [] then 0 else SumNat(s[..|s| - 1]) + s[|s| - 1]
  }

  /**
   * The ranges `add_child` hands out to children of the given widths, in
   * order (mpfrl/units.py:114-121): the first starts at 0 and every later
   * one where the previous one ends.
   */
  function Ranges(widths: seq<nat>): (r: seq<(nat, nat)>)
    ensures |r| == |widths|
  {
    if widths == [] then []
    else
      var p := Ranges(widths[..|widths| - 1]);
      var start := if p == [] then 0 else p[|p| - 1].1;
      p + [(start, start + widths[|widths| - 1])]
  }

  /** The range appended after `prev` for a child of width `width`. */
  function NextRange(prev: seq<(nat, nat)>, width: nat): (nat, nat)
  {
    var start := if prev == [] then 0 else prev[|prev| - 1].1;
    (start, start + width)
  }

  lemma RangesAppend(widths: seq<nat>, width: nat)
    ensures Ranges(widths + [width]) == Ranges(widths) + [NextRange(Ranges(widths), width)]
  {
    assert (widths + [width])[..|widths|] == widths;
  }

  /**
   * Appending a width keeps the earlier ranges and adds one that starts
   * where the last one ended and ends at the new total.
   */
  lemma RangesExtend(widths: seq<nat>, width: nat)
    ensures forall i :: 0 <= i < |widths| ==> Ranges(widths + [width])[i] == Ranges(widths)[i]
    ensures Ranges(widths + [width])[|widths|] == NextRange(Ranges(widths), width)
    ensures NextRange(Ranges(widths), width).1 == SumNat(widths + [width])
  {
    var ws := widths + [width];
    RangesAppend(widths, width);
    RangesContiguous(ws);
    assert Ranges(ws)[|ws| - 1] == NextRange(Ranges(widths), width);
  }

  /**
   * The ranges tile [0, total) without gaps or overlaps: each has its
   * width, the first starts at 0, each later one where the previous one
   * ends, and the last ends at the sum of the widths.
   */
  lemma {:induction false} RangesContiguous(widths: seq<nat>)
    ensures forall i :: 0 <= i < |widths| ==> Ranges(widths)[i].1 == Ranges(widths)[i].0 + widths[i]
    ensures |widths| > 0 ==> Ranges(widths)[0].0 == 0
    ensures forall i :: 0 < i < |widths| ==> Ranges(widths)[i].0 == Ranges(widths)[i - 1].1
    ensures |widths| > 0 ==> Ranges(widths)[|widths| - 1].1 == SumNat(widths)
  {
    if widths != [] {
      var init := widths[..|widths| - 1];
      RangesContiguous(init);
      assert Ranges(widths) == Ranges(init) + [NextRange(Ranges(init), widths[|widths| - 1])];
    }
  }

  /** Every position below the total lies in exactly one range. */
  lemma RangesPartition(widths: seq<nat>, x: nat)
    requires x < SumNat(widths)
    ensures exists i :: 0 <= i < |widths| && Ranges(widths)[i].0 <= x < Ranges(widths)[i].1
    ensures forall i, j ::
      (0 <= i < |widths| && 0 <= j < |widths| &&
       Ranges(widths)[i].0 <= x < Ranges(widths)[i].1 && Ranges(widths)[j].0 <= x < Ranges(widths)[j].1) ==> i == j
  {
    RangesContiguous(widths);
    var r := Ranges(widths);
    RangesMonotone(widths);
    var k := 0;
    while r[k].1 <= x
      invariant 0 <= k < |widths|
      invariant r[k].0 <= x
      decreases |widths| - k
    {
      k := k + 1;
    }
  }

  /** Later ranges start no earlier than earlier ranges end. */
  lemma RangesMonotone(widths: seq<nat>)
    ensures forall i, j :: 0 <= i < j < |widths| ==> Ranges(widths)[i].1 <= Ranges(widths)[j].0
  {
    RangesContiguous(widths);
    var r := Ranges(widths);
    forall i, j | 0 <= i < j < |widths|
      ensures r[i].1 <= r[j].0
    {
      var k := i + 1;
      while k < j
        invariant i < k <= j
        invariant r[i].1 <= r[k].0
      {
        k := k + 1;
      }
    }
  }

  // ---------------------------------------------------------------------
  // The fan-in counter
  // ---------------------------------------------------------------------

  /**
   * The counter after one child reports to a unit with `children` children,
   * and whether the unit fires (mpfrl/units.py:140-143).
   */
  function FanIn(count: nat, children: nat): (nat, bool)
  {
    if count + 1 >= children then (0, true) else (count + 1, false)
  }

  /** The counter and the number of firings after `k` reports. */
  function FanInRun(count: nat, fired: nat, children: nat, k: nat): (nat, nat)
    decreases k
  {
    if k == 0 then (count, fired)
    else
      var s := FanIn(count, children);
      FanInRun(s.0, fired + if s.1 then 1 else 0, children, k - 1)
  }

  lemma {:induction false} FanInRunSplit(count: nat, fired: nat, children: nat, a: nat, b: nat)
    ensures FanInRun(count, fired, children, a + b) ==
      var p := FanInRun(count, fired, children, a); FanInRun(p.0, p.1, children, b)
    decreases a
  {
    if a > 0 {
      var s := FanIn(count, children);
      FanInRunSplit(s.0, fired + if s.1 then 1 else 0, children, a - 1, b);
    }
  }

  /** Within a round the counter just climbs and the unit stays quiet. */
  lemma {:induction false} FanInQuiet(children: nat, count: nat, fired: nat, j: nat)
    requires count + j < children
    ensures FanInRun(count, fired, children, j) == (count + j, fired)
    decreases j
  {
    if j > 0 {
      FanInQuiet(children, count + 1, fired, j - 1);
    }
  }

  /**
   * From a reset counter, every round of `children` reports fires the unit
   * exactly once and leaves the counter reset; within a round it never fires.
   */
  lemma {:induction false} FanInFiresOncePerRound(children: nat, rounds: nat)
    requires children > 0
    ensures FanInRun(0, 0, children, rounds * children) == (0, rounds)
  {
    if rounds > 0 {
      FanInFiresOncePerRound(children, rounds - 1);
      assert rounds * children == (rounds - 1) * children + children;
      FanInRunSplit(0, 0, children, (rounds - 1) * children, children);
      FanInRunSplit(0, rounds - 1, children, children - 1, 1);
      FanInQuiet(children, 0, rounds - 1, children - 1);
    }
  }

  // ---------------------------------------------------------------------
  // Forward-kernel arithmetic
  // ---------------------------------------------------------------------

  /**
   * Normalisation of the biased activation with a floor
   * (mpfrl/units.py:382-385): divided by its total, or by EPS when the
   * total is 0.
   */
  function NormaliseFloored(s: seq<real>): (r: seq<real>)
    ensures |r| == |s|
    ensures Sum(s) != 0.0 ==> forall i :: 0 <= i < |s| ==> r[i] * Sum(s) == s[i]
    ensures Sum(s) == 0.0 ==> forall i :: 0 <= i < |s| ==> r[i] * EPS == s[i]
  {
    Divide(s, if Sum(s) == 0.0 then EPS else Sum(s))
  }

  /** A non-zero total gives a PMF; a zero total stays at total 0. */
  lemma NormaliseFlooredSum(s: seq<real>)
    ensures Sum(s) != 0.0 ==> Sum(NormaliseFloored(s)) == 1.0
    ensures Sum(s) == 0.0 ==> Sum(NormaliseFloored(s)) == 0.0
  {
    if Sum(s) != 0.0 {
      NormalisedSumsToOne(s);
    } else {
      SumDivide(s, EPS);
    }
  }

  /** The one-hot vector of the winner has its maximum, first, at the winner. */
  lemma OneHotWinner(n: nat, k: nat)
    requires k < n
    ensures ArgMax(SOM.UnitRow(k, n)) == k
    ensures Sum(SOM.UnitRow(k, n)) == 1.0
  {
    var v := SOM.UnitRow(k, n);
    var a := ArgMax(v);
    assert v[k] == 1.0 && v[k] <= v[a];
    assert v[a] == if a == k then 1.0 else 0.0;
    SOM.UnitRowSum(k, n);
  }

  /**
   * One decay step of the learning rate and the bias influence
   * (mpfrl/units.py:441-451), each with its own floor.
   */
  function RatesStep(rates: (real, real, real, real), minRate: real, minInfluence: real): (real, real, real, real)
  {
    var rate := Noise.DecayStep(rates.0, rates.1, minRate);
    var infl := Noise.DecayStep(rates.2, rates.3, minInfluence);
    (rate.0, rate.1, infl.0, infl.1)
  }

  /**
   * Reward correlation update (mpfrl/units.py:423-426): each entry moves
   * towards the reinforcement derivative in proportion to the unit's
   * previous output there.
   */
  function ReinforceCorr(last: seq<real>, rp: real, corr: seq<real>): (r: seq<real>)
    requires |last| == |corr|
    ensures |r| == |corr|
    ensures forall i :: 0 <= i < |corr| && 0.0 <= last[i] <= 1.0 ==>
      Min2(rp, corr[i]) <= r[i] <= Max2(rp, corr[i])
    ensures forall i :: 0 <= i < |corr| && last[i] == 0.0 ==> r[i] == corr[i]
    ensures forall i :: 0 <= i < |corr| && last[i] == 1.0 ==> r[i] == rp
  {
    var r := seq(|corr|, i requires 0 <= i < |corr| => last[i] * rp + (1.0 - last[i]) * corr[i]);
    BetweenAll(last, rp, corr, r);
    r
  }

  lemma BetweenAll(last: seq<real>, rp: real, corr: seq<real>, r: seq<real>)
    requires |last| == |corr| == |r|
    requires forall i :: 0 <= i < |r| ==> r[i] == last[i] * rp + (1.0 - last[i]) * corr[i]
    ensures forall i :: 0 <= i < |corr| && 0.0 <= last[i] <= 1.0 ==> Min2(rp, corr[i]) <= r[i] <= Max2(rp, corr[i])
  {
    forall i | 0 <= i < |corr| && 0.0 <= last[i] <= 1.0
      ensures Min2(rp, corr[i]) <= r[i] <= Max2(rp, corr[i])
    {
      Between(last[i], rp, corr[i]);
    }
  }

  /** A convex combination lies between its two ends. */
  lemma Between(a: real, x: real, y: real)
    requires 0.0 <= a <= 1.0
    ensures Min2(x, y) <= a * x + (1.0 - a) * y <= Max2(x, y)
  {
    var m := a * x + (1.0 - a) * y;
    if x <= y {
      var d := y - x;
      assert m == y - a * d;
      MulNonNegative(a, d);
      MulNonNegative(1.0 - a, d);
      assert a * d + (1.0 - a) * d == d;
    } else {
      var d := x - y;
      assert m == y + a * d;
      MulNonNegative(a, d);
      MulNonNegative(1.0 - a, d);
      assert a * d + (1.0 - a) * d == d;
    }
  }

  /** The reward correlation stays within [-1, 1] when the derivative does. */
  lemma ReinforceCorrBounded(last: seq<real>, rp: real, corr: seq<real>)
    requires |last| == |corr| && -1.0 <= rp <= 1.0
    requires forall i :: 0 <= i < |last| ==> 0.0 <= last[i] <= 1.0 && -1.0 <= corr[i] <= 1.0
    ensures forall i :: 0 <= i < |corr| ==> -1.0 <= ReinforceCorr(last, rp, corr)[i] <= 1.0
  {
  }

  /**
   * The sigmoid adjustment of a reward correlation
   * (mpfrl/units.py:360-361), over the given exponential.
   */
  function RcorrAdjust(exp: real -> real, x: real): real
    requires 0.0 < exp(-(((x + 1.0) * 5.0) - 5.0))
  {
    1.0 / (1.0 + exp(-(((x + 1.0) * 5.0) - 5.0))) - 0.5
  }

  function Adjusted(exp: real -> real, corr: seq<real>): (r: seq<real>)
    requires forall y :: 0.0 < exp(y)
    ensures |r| == |corr| && forall i :: 0 <= i < |corr| ==> r[i] == RcorrAdjust(exp, corr[i])
  {
    seq(|corr|, i requires 0 <= i < |corr| => RcorrAdjust(exp, corr[i]))
  }

  /**
   * The backward bias level (mpfrl/units.py:428-435): numpy's `min` and
   * `max` reduce the whole vector, so the bias is one scalar, the smallest
   * `adjusted * influence + 1/n`, clamped to [EPS, 1].
   */
  function BiasLevel(adjusted: seq<real>, influence: real, n: nat): (b: real)
    requires |adjusted| > 0 && n > 0
    ensures EPS <= b <= 1.0
    ensures var m := Min(BiasTerms(adjusted, influence, n));
      (EPS <= m <= 1.0 ==> b == m) && (m < EPS ==> b == EPS) && (1.0 < m ==> b == 1.0)
  {
    Max2(EPS, Min2(1.0, Min(BiasTerms(adjusted, influence, n))))
  }

  function BiasTerms(adjusted: seq<real>, influence: real, n: nat): (t: seq<real>)
    requires n > 0
    ensures |t| == |adjusted| && forall i :: 0 <= i < |adjusted| ==> t[i] == adjusted[i] * influence + 1.0 / (n as real)
  {
    seq(|adjusted|, i requires 0 <= i < |adjusted| => adjusted[i] * influence + 1.0 / (n as real))
  }

  /** The vector every entry of which is `c`. */
  function Constant(n: nat, c: real): (v: seq<real>)
    ensures |v| == n && forall i :: 0 <= i < n ==> v[i] == c
  {
    seq(n, i => c)
  }

  // ---------------------------------------------------------------------
  // Backward-kernel arithmetic
  // ---------------------------------------------------------------------

  /**
   * The top-down vector's reweighting (mpfrl/units.py:466-469): normalised,
   * multiplied by the bias and normalised again. None stands for a zero
   * total, for which numpy produces NaN.
   */
  function Rebias(v: seq<real>, bias: seq<real>): (r: Option<seq<real>>)
    requires |v| == |bias|
    ensures r.None? <==> Sum(v) == 0.0 || Sum(Times(Divide(v, Sum(v)), bias)) == 0.0
    ensures r.Some? ==> |r.value| == |v| && Sum(r.value) == 1.0
  {
    if Sum(v) == 0.0 then None
    else
      var w := Times(Divide(v, Sum(v)), bias);
      if Sum(w) == 0.0 then None
      else
        NormalisedSumsToOne(w);
        Some(Divide(w, Sum(w)))
  }

  /**
   * `gp` is the global prediction that the top-down vector `v` yields under
   * the bias `bias` (mpfrl/units.py:466-485): without a temporal SOM the
   * reweighted vector itself; with one, the temporal neuron `c` (of weights
   * `rows[c]` and of non-zero weight in the reweighted vector) plus the
   * noise vector `nv`, normalised by its total.
   */
  ghost predicate GlobalFrom(v: seq<real>, bias: seq<real>, hasTs: bool, rows: seq<seq<real>>, c: nat, nv: seq<real>, gp: seq<real>)
    requires |v| == |bias|
  {
    var b := Rebias(v, bias);
    b.Some? &&
    (!hasTs ==> gp == b.value) &&
    (hasTs ==>
      c < |rows| && c < |b.value| && b.value[c] != 0.0 && |nv| == |rows[c]| &&
      var g := SOM.Add(rows[c], nv);
      Sum(g) != 0.0 && gp == Divide(g, Sum(g)))
  }

  /** A global prediction is a distribution: its entries sum to 1. */
  lemma GlobalSumsToOne(v: seq<real>, bias: seq<real>, hasTs: bool, rows: seq<seq<real>>, c: nat, nv: seq<real>, gp: seq<real>)
    requires |v| == |bias| && GlobalFrom(v, bias, hasTs, rows, c, nv, gp)
    ensures Sum(gp) == 1.0
  {
    if hasTs {
      NormalisedSumsToOne(SOM.Add(rows[c], nv));
    }
  }

  /**
   * Because the bias is one scalar, the reweighting has no effect: it gives
   * back the normalised top-down vector.
   */
  lemma UniformBiasIsNeutral(v: seq<real>, c: real)
    requires Sum(v) != 0.0 && 0.0 < c
    ensures Rebias(v, Constant(|v|, c)) == Some(Divide(v, Sum(v)))
  {
    var u := Divide(v, Sum(v));
    NormalisedSumsToOne(v);
    var w := Times(u, Constant(|v|, c));
    ScaledBack(u, c);
    assert Sum(w) == c;
  }

  /** Multiplying by a constant vector and dividing the constant out changes nothing. */
  lemma ScaledBack(u: seq<real>, c: real)
    requires 0.0 < c && Sum(u) == 1.0
    ensures Sum(Times(u, Constant(|u|, c))) == c
    ensures Divide(Times(u, Constant(|u|, c)), c) == u
  {
    var w, sc := Times(u, Constant(|u|, c)), SOM.Scale(c, u);
    TimesConstant(u, c);
    assert w == sc;
    SOM.SumScale(c, u);
    assert Sum(sc) == c * 1.0;
    DivideScale(u, c);
  }

  lemma TimesConstant(u: seq<real>, c: real)
    ensures Times(u, Constant(|u|, c)) == SOM.Scale(c, u)
  {
    var k := Constant(|u|, c);
    var w := Times(u, k);
    forall i | 0 <= i < |u|
      ensures w[i] == SOM.Scale(c, u)[i]
    {
      assert w[i] == u[i] * k[i] && k[i] == c;
    }
  }

  lemma DivideScale(u: seq<real>, c: real)
    requires c != 0.0
    ensures Divide(SOM.Scale(c, u), c) == u
  {
    var r := Divide(SOM.Scale(c, u), c);
    forall i | 0 <= i < |u|
      ensures r[i] == u[i]
    {
      var ri, ui := r[i], u[i];
      assert ri * c == c * ui;
      SOM.CancelFactor(ri, ui, c);
    }
  }

  /** Combined prediction (mpfrl/units.py:493-495), before normalisation. */
  function TotalTerms(global: seq<real>, local: seq<real>): (t: seq<real>)
    requires |global| == |local| && |local| > 0
    ensures |t| == |local|
    ensures forall i :: 0 <= i < |local| ==> t[i] == global[i] * local[i] + 1.0 / (|local| as real)
  {
    seq(|local|, i requires 0 <= i < |local| => global[i] * local[i] + 1.0 / (|local| as real))
  }

  /** Non-negative predictions give a combined prediction with a positive total. */
  lemma TotalTermsPositive(global: seq<real>, local: seq<real>)
    requires |global| == |local| && |local| > 0
    requires forall i :: 0 <= i < |local| ==> 0.0 <= global[i] && 0.0 <= local[i]
    ensures 0.0 < Sum(TotalTerms(global, local))
  {
    var t := TotalTerms(global, local);
    var n := |local| as real;
    var c := Constant(|local|, 1.0 / n);
    var p := Times(global, local);
    assert t == SOM.Add(p, c);
    SOM.SumAdd(p, c);
    TimesNonNegative(global, local);
    SharesSumToOne(|local|);
  }

  lemma TimesNonNegative(s: seq<real>, t: seq<real>)
    requires |s| == |t|
    requires forall i :: 0 <= i < |s| ==> 0.0 <= s[i] && 0.0 <= t[i]
    ensures 0.0 <= Sum(Times(s, t))
  {
    var p := Times(s, t);
    forall i | 0 <= i < |p| ensures 0.0 <= p[i] {
      MulNonNegative(s[i], t[i]);
    }
    SumNonNegative(p);
  }

  /** `m` equal shares of 1/m add up to 1. */
  lemma SharesSumToOne(m: nat)
    requires m > 0
    ensures Sum(Constant(m, 1.0 / (m as real))) == 1.0
  {
    var n := m as real;
    assert Constant(m, 1.0 / n) == SOM.Scale(1.0 / n, Constant(m, 1.0));
    SOM.SumScale(1.0 / n, Constant(m, 1.0));
    ConstantSum(m);
  }

  lemma {:induction false} ConstantSum(n: nat)
    ensures Sum(Constant(n, 1.0)) == n as real
  {
    if n > 0 {
      assert Constant(n, 1.0)[..n - 1] == Constant(n - 1, 1.0);
      ConstantSum(n - 1);
    }
  }

  /** Absolute values, as `generate` leaves its argument (mpfrl/SOM.py:545). */
  function AbsAll(v: seq<real>): (r: seq<real>)
    ensures |r| == |v| && forall i :: 0 <= i < |v| ==> r[i] == Abs(v[i])
  {
    seq(|v|, i requires 0 <= i < |v| => Abs(v[i]))
  }

  // ---------------------------------------------------------------------
  // Units and the unit tree
  // ---------------------------------------------------------------------

  /** The objects a SOM owns: itself, its arrays and its noise source. */
  ghost function SomParts(s: SOM.Som): set<object>
    reads s`freqs, s`trans, s`predicted
  {
    var base: set<object> := {s, s.neurons, s.diff, s.lastDiff, s.actVec};
    base +
    (if s.noise != null then var z: Noise.UniformNoise := s.noise; {z} else {}) +
    (if s.freqs != null then var f: array2<real> := s.freqs; {f} else {}) +
    (if s.trans != null then var t: array2<real> := s.trans; {t} else {}) +
    (if s.predicted != null then var q: array<real> := s.predicted; {q} else {})
  }

  /**
   * A temporal SOM `t` over the neurons of the spatial SOM `s` that has no
   * predictor and shares no array and no noise source with `s`.
   */
  ghost predicate Apart(s: SOM.Som, t: SOM.Som)
    reads s`freqs, s`trans, s`predicted, t`freqs, t`trans, t`predicted
  {
    t != s && t.rsom && t.dim == s.w * s.h && t.noise != s.noise &&
    t.freqs == null && t.trans == null && t.predicted == null &&
    t.neurons != s.neurons && t.neurons != s.diff && t.neurons != s.lastDiff && t.neurons != s.freqs && t.neurons != s.trans &&
    t.diff != s.neurons && t.diff != s.diff && t.diff != s.lastDiff && t.diff != s.freqs && t.diff != s.trans &&
    t.lastDiff != s.neurons && t.lastDiff != s.diff && t.lastDiff != s.lastDiff && t.lastDiff != s.freqs && t.lastDiff != s.trans &&
    t.actVec != s.actVec && t.actVec != s.predicted
  }

  /**
   * A SOM of kind `kind` after training its neuron `b` on the distances
   * `d0`: the kind's step `k` for that neuron's distance from the PL-SOM
   * denominator `m0`, the denominator `m1` it leaves, and the kernel's
   * outcome taking the weights `n0` to `n1` with the weighted differences
   * `d1`.
   */
  ghost predicate Trained(kind: SOM.SomKind, sqrt: real -> real, exp: real -> real, w: nat, dim: nat,
                          b: nat, d0: seq<seq<real>>, k: SOM.KernelStep, n0: seq<seq<real>>, m0: real,
                          d1: seq<seq<real>>, n1: seq<seq<real>>, m1: real)
  {
    b < |d0| && dim > 0 && 0.0 < m0 && 0.0 <= sqrt(SOM.NormSq(d0[b])) &&
    k == SOM.Step(kind, sqrt, SOM.NormSq(d0[b]), dim, m0) && m1 == k.meDenom &&
    SOM.KernelOutcome(k, exp, b, w, d0, n0, d1, n1)
  }

  /** A unit is none of a SOM's objects. */
  lemma UnitNotPart(u: Unit, s: SOM.Som)
    ensures (u as object) !in SomParts(s)
  {
  }

  /**
   * A vector with the entries from `at` on replaced by `part`: numpy's
   * slice assignment `v[at:at + len(part)] = part`.
   */
  function Splice(v: seq<real>, at: nat, part: seq<real>): (r: seq<real>)
    requires at + |part| <= |v|
    ensures |r| == |v| && r[at..at + |part|] == part
    ensures forall i :: 0 <= i < at ==> r[i] == v[i]
    ensures forall i :: at + |part| <= i < |v| ==> r[i] == v[i]
  {
    v[..at] + part + v[at + |part|..]
  }

  /**
   * `handed` holds, for the first `n` of the children `cs`, each child's
   * range of the output `out` (by RangesMatch, the range from its `lo` to
   * its `hi`).
   */
  ghost predicate HandedOut(cs: seq<Unit>, out: seq<real>, handed: seq<seq<real>>, n: nat)
  {
    var rs := Ranges(Widths(cs));
    n <= |cs| && |handed| == n &&
    forall j :: 0 <= j < n ==> rs[j].0 <= rs[j].1 <= |out| && handed[j] == out[rs[j].0..rs[j].1]
  }

  /** Handing the next child its range extends `handed` by one. */
  lemma HandedMore(cs: seq<Unit>, out: seq<real>, handed: seq<seq<real>>, i: nat, part: seq<real>)
    requires HandedOut(cs, out, handed, i) && i < |cs|
    requires var rs := Ranges(Widths(cs)); rs[i].0 <= rs[i].1 <= |out| && part == out[rs[i].0..rs[i].1]
    ensures HandedOut(cs, out, handed + [part], i + 1)
  {
  }

  /** Temporal neuron counts of a list of children: the widths of their ranges. */
  function Widths(cs: seq<Unit>): (w: seq<nat>)
    ensures |w| == |cs| && forall i :: 0 <= i < |cs| ==> w[i] == cs[i].TsSize()
  {
    seq(|cs|, i requires 0 <= i < |cs| => cs[i].TsSize())
  }

  /** The objects of all units' SOMs. */
  ghost function Parts(world: set<Unit>): set<object>
  {
    set u, o | u in world && o in u.Repr :: o
  }

  lemma ReprInParts(world: set<Unit>, u: Unit)
    requires u in world
    ensures u.Repr <= Parts(world)
  {
  }

  /** Units at or above rank r: the ones a forward pass from rank r may change. */
  ghost function Above(world: set<Unit>, r: nat): set<Unit>
  {
    set u | u in world && r <= u.rank
  }

  /** Raising the rank bound leaves fewer units, and fewer objects, above it. */
  lemma AboveShrinks(world: set<Unit>, r: nat, q: nat)
    requires r <= q
    ensures Above(world, q) <= Above(world, r) && Parts(Above(world, q)) <= Parts(Above(world, r))
  {
  }

  /** Units strictly below rank r: the subtrees a backward pass from rank r hands down to. */
  ghost function Under(world: set<Unit>, r: nat): set<Unit>
  {
    set u | u in world && u.rank < r
  }

  /** A unit is not under itself, and neither it nor its objects are owned by the units under it. */
  lemma UnderOwnsNothingOf(world: set<Unit>, u: Unit)
    requires Separate(world) && u in world
    ensures u !in Under(world, u.rank) && u.Repr !! Parts(Under(world, u.rank))
    ensures (u as object) !in Parts(Under(world, u.rank))
  {
    UnitNotInParts(world, u, Under(world, u.rank));
    forall o | o in Parts(Under(world, u.rank))
      ensures o !in u.Repr
    {
      var v :| v in Under(world, u.rank) && o in v.Repr;
      assert v.rank < u.rank;
    }
  }

  /** A unit below rank r owns none of the objects of the units at or above r. */
  lemma AboveOwnsNothingOf(world: set<Unit>, u: Unit, r: nat)
    requires Separate(world) && u in world && u.rank < r
    ensures u.Repr !! Parts(Above(world, r))
  {
    forall o | o in Parts(Above(world, r))
      ensures o !in u.Repr
    {
      var v :| v in Above(world, r) && o in v.Repr;
      assert v != u;
    }
  }

  /** Units strictly below r are at or below r. */
  lemma UnderInBelow(world: set<Unit>, r: nat)
    ensures Under(world, r) <= Below(world, r) && Parts(Under(world, r)) <= Parts(Below(world, r))
  {
  }

  /** Units at or below a rank lower than r are strictly below r. */
  lemma BelowInUnder(world: set<Unit>, q: nat, r: nat)
    requires q < r
    ensures Below(world, q) <= Under(world, r) && Parts(Below(world, q)) <= Parts(Under(world, r))
  {
  }

  /** No unit of a tree is one of the objects its units own. */
  lemma UnitNotInParts(world: set<Unit>, u: Unit, some: set<Unit>)
    requires Separate(world) && u in world && some <= world
    ensures (u as object) !in Parts(some)
  {
    forall o | o in Parts(some)
      ensures o != u
    {
      var v :| v in some && o in v.Repr;
      assert (u as object) !in v.Repr;
    }
  }

  /** Units at or below rank r: the ones a backward pass from rank r may change. */
  ghost function Below(world: set<Unit>, r: nat): set<Unit>
  {
    set u | u in world && u.rank <= r
  }

  /**
   * The links of the tree: parents outrank their children, a child's range
   * has its temporal width and fits the parent's input, children point back
   * at their parent, and each unit's children hold consecutive ranges.
   */
  ghost predicate Linked(world: set<Unit>, top: nat)
    reads world`parent, world`children, world`lo, world`hi
  {
    forall u :: u in world ==>
      u.rank <= top &&
      (u.parent != null ==>
        u.parent in world && u.rank < u.parent.rank && u.lo + u.TsSize() == u.hi && u.hi <= u.parent.ss.dim) &&
      (forall c :: c in u.children ==> c in world && c.parent == u) &&
      u.RangesMatch()
  }

  /** Different units own different objects, and no unit owns a unit. */
  ghost predicate Separate(world: set<Unit>)
  {
    (forall u, v :: u in world && v in world && u != v ==> u.Repr !! v.Repr) &&
    (forall u, v :: u in world && v in world ==> (v as object) !in u.Repr)
  }

  ghost predicate AllValid(world: set<Unit>)
    reads world, Parts(world)
  {
    forall u {:trigger u.Valid()} :: u in world ==> u.Valid()
  }

  /** A well-formed unit tree whose ranks are at most `top`. */
  ghost predicate Tree(world: set<Unit>, top: nat)
    reads world, Parts(world)
  {
    Linked(world, top) && Separate(world) && AllValid(world)
  }

  /**
   * A well-formed unit with no parent and no children, sharing nothing
   * with a tree, can join it.
   */
  lemma Enlist(world: set<Unit>, top: nat, p: Unit)
    requires Tree(world, top) && p !in world
    requires p.Valid() && p.parent == null && p.children == [] && p.rank <= top
    requires p.Repr !! Parts(world) && (forall u :: u in world ==> (u as object) !in p.Repr)
    requires (p as object) !in Parts(world)
    ensures Tree(world + {p}, top)
  {
    ValidJoin(world, p);
    SeparateJoin(world, p);
    LinkedJoin(world, top, p);
  }

  lemma ValidJoin(world: set<Unit>, p: Unit)
    requires AllValid(world) && p.Valid()
    ensures AllValid(world + {p})
  {
  }

  lemma SeparateJoin(world: set<Unit>, p: Unit)
    requires Separate(world) && p !in world && (p as object) !in p.Repr
    requires p.Repr !! Parts(world) && (forall u :: u in world ==> (u as object) !in p.Repr)
    requires (p as object) !in Parts(world)
    ensures Separate(world + {p})
  {
    var w := world + {p};
    forall u, v | u in w && v in w && u != v
      ensures u.Repr !! v.Repr
    {
      if u == p {
        ReprInParts(world, v);
      } else if v == p {
        ReprInParts(world, u);
      }
    }
    forall u, v | u in w && v in w
      ensures (v as object) !in u.Repr
    {
      if u != p && v == p {
        ReprInParts(world, u);
      }
    }
  }

  /** A unit outside a tree is nobody's parent or child in it, so it can join it on its own. */
  lemma LinkedJoin(world: set<Unit>, top: nat, p: Unit)
    requires Linked(world, top) && p !in world && p.parent == null && p.children == [] && p.rank <= top
    ensures Linked(world + {p}, top)
  {
  }

  /**
   * The spatial pooler of a unit (mpfrl/units.py:50-53 and 325): a SOM
   * over the input with its own uniform noise in [-0.5, 0.5) of magnitude 1
   * and the given decrement, and its Markov predictor started.
   */
  method NewSpatial(kind: SOM.SomKind, inputDim: nat, w: nat, h: nat, decrease: real,
                    likelihood: seq<real> -> seq<real>, exp: real -> real, sqrt: real -> real)
    returns (s: SOM.Som)
    requires inputDim > 0 && w > 0 && h > 0
    requires forall x :: 0.0 <= x ==> 0.0 <= sqrt(x)
    requires forall v :: |likelihood(v)| == |v|
    ensures fresh(SomParts(s))
    ensures s.Valid() && s.predictorOn && s.lastBmu == None && s.noise != null
    ensures s.w == w && s.h == h && s.dim == inputDim && s.kind == kind && !s.rsom
    ensures s.exp == exp && s.likelihood == likelihood
    ensures s.noise.magn == 1.0 + decrease && s.noise.magnDecrease == decrease
    ensures s.noise.minMagn == 0.001 && s.noise.lower == -0.5 && s.noise.upper == 0.5
  {
    var noise := new Noise.UniformNoise(-0.5, 0.5, 1.0, decrease, 0.001);
    s := new SOM.Som(w, h, inputDim, kind, false, likelihood, exp, sqrt, noise);
    s.InitPredictor();
  }

  /**
   * The temporal pooler of a unit (mpfrl/units.py:63-67): an RSOM over the
   * spatial SOM's neurons, with its own noise like the spatial one's and
   * no predictor. Nothing of the spatial SOM is shared with it.
   */
  method NewTemporal(s: SOM.Som, kind: SOM.SomKind, w: nat, h: nat, decrease: real)
    returns (t: SOM.Som)
    requires w > 0 && h > 0 && s.w > 0 && s.h > 0
    requires forall x :: 0.0 <= x ==> 0.0 <= s.sqrt(x)
    requires forall v :: |s.likelihood(v)| == |v|
    ensures fresh(SomParts(t)) && Apart(s, t)
    ensures t.Valid() && t.noise != null && t.freqs == null && t.trans == null && t.predicted == null && !t.predictorOn
    ensures t.w == w && t.h == h && t.dim == s.w * s.h && t.kind == kind && t.rsom
    ensures t.exp == s.exp && t.likelihood == s.likelihood
    ensures t.noise.magn == 1.0 + decrease && t.noise.magnDecrease == decrease
    ensures t.noise.minMagn == 0.001 && t.noise.lower == -0.5 && t.noise.upper == 0.5
  {
    var noise := new Noise.UniformNoise(-0.5, 0.5, 1.0, decrease, 0.001);
    t := new SOM.Som(w, h, s.w * s.h, kind, true, s.likelihood, s.exp, s.sqrt, noise);
    assert SomParts(t) == {t, t.neurons, t.diff, t.lastDiff, t.actVec, noise};
  }

  /**
   * A unit's spatial SOM `s` and temporal SOM `t`, owning the objects
   * `repr`: both well formed with noise, the spatial one with its Markov
   * predictor, and either two SOMs that share nothing or one SOM standing
   * in for both.
   */
  ghost predicate Poolers(s: SOM.Som, t: SOM.Som, hasTs: bool, repr: set<object>)
    reads repr - s.Noises() - t.Noises(), (set z: Noise.UniformNoise | z in s.Noises() + t.Noises() && z in repr)`shape
  {
    s in repr && s.neurons in repr && s.diff in repr && s.lastDiff in repr && s.actVec in repr &&
    s.noise != null && s.noise in repr &&
    s.freqs != null && s.freqs in repr && s.trans != null && s.trans in repr &&
    s.predicted != null && s.predicted in repr &&
    s.Valid() && s.predictorOn && !s.rsom &&
    t in repr && t.neurons in repr && t.diff in repr && t.lastDiff in repr && t.actVec in repr &&
    t.noise != null && t.noise in repr &&
    (hasTs ==> Apart(s, t)) &&
    (!hasTs ==> t == s) &&
    t.Valid() &&
    SOM.Positive(s.exp)
  }

  /** Poolers built by NewSpatial and NewTemporal own exactly their SOMs' objects. */
  lemma PoolersBuilt(s: SOM.Som, t: SOM.Som, hasTs: bool)
    requires s.noise != null && t.noise != null && s.Valid() && s.predictorOn && !s.rsom && t.Valid()
    requires hasTs ==> Apart(s, t)
    requires !hasTs ==> t == s
    requires forall y :: 0.0 < s.exp(y)
    ensures Poolers(s, t, hasTs, SomParts(s) + SomParts(t))
  {
  }

  /** The shapes and noise settings the constructor gives a unit's SOMs. */
  ghost predicate Built(s: SOM.Som, t: SOM.Som, ssKind: SOM.SomKind, tsKind: Option<SOM.SomKind>, inputDim: nat,
                        ssW: nat, ssH: nat, tsW: nat, tsH: nat, decrease: real)
    reads s, t, s.noise, t.noise
  {
    s.w == ssW && s.h == ssH && s.dim == inputDim && s.kind == ssKind && !s.rsom && s.lastBmu == None &&
    (tsKind.Some? ==> t.w == tsW && t.h == tsH && t.kind == tsKind.value) &&
    s.noise != null && t.noise != null &&
    s.noise.magn == 1.0 + decrease && s.noise.magnDecrease == decrease &&
    s.noise.minMagn == 0.001 && s.noise.lower == -0.5 && s.noise.upper == 0.5 &&
    t.noise.magn == 1.0 + decrease && t.noise.magnDecrease == decrease
  }

  /** Both SOMs of a unit (mpfrl/units.py:50-67 and 325). */
  method NewPoolers(ssKind: SOM.SomKind, tsKind: Option<SOM.SomKind>, inputDim: nat,
                    ssW: nat, ssH: nat, tsW: nat, tsH: nat, decrease: real,
                    likelihood: seq<real> -> seq<real>, exp: real -> real, sqrt: real -> real)
    returns (s: SOM.Som, t: SOM.Som)
    requires inputDim > 0 && ssW > 0 && ssH > 0 && (tsKind.Some? ==> tsW > 0 && tsH > 0)
    requires forall x :: 0.0 <= x ==> 0.0 <= sqrt(x)
    requires forall v :: |likelihood(v)| == |v|
    requires forall y :: 0.0 < exp(y)
    ensures fresh(SomParts(s) + SomParts(t))
    ensures Poolers(s, t, tsKind.Some?, SomParts(s) + SomParts(t))
    ensures Built(s, t, ssKind, tsKind, inputDim, ssW, ssH, tsW, tsH, decrease)
  {
    s := NewSpatial(ssKind, inputDim, ssW, ssH, decrease, likelihood, exp, sqrt);
    t := s;
    if tsKind.Some? {
      t := NewTemporal(s, tsKind.value, tsW, tsH, decrease);
    }
    PoolersBuilt(s, t, tsKind.Some?);
  }

  /**
   * An MPF unit (`_Base_MPF_Unit` with the `MPF_Unit_RL` kernels,
   * mpfrl/units.py:34-86, 321-364). `rank` orders the tree: a parent
   * outranks its children. `lo`/`hi` is the range of the parent's input the
   * unit reports into.
   */
  class Unit {
    const unitType: nat
    const level: Option<nat>
    const hasTs: bool
    const ss: SOM.Som
    const ts: SOM.Som
    ghost const rank: nat
    ghost const Repr: set<object>
    var parent: Unit?
    var children: seq<Unit>
    var lo: nat
    var hi: nat
    var accu: seq<real>
    var childInputsNum: nat
    var localPred: seq<real>
    var globalPred: seq<real>
    var totalPred: seq<real>
    var rwLearningRate: real
    var rwLearningRateDecr: real
    const minRwLearningRate: real
    var rwBiasInfluence: real
    var rwBiasInfluenceDecr: real
    const minRwBiasInfluence: real
    var lastTsAct: seq<real>
    var tsActBias: seq<real>
    var rewardCorr: seq<real>

    /** The learning rate, the bias influence and their decrements. */
    function Rates(): (real, real, real, real)
      reads this`rwLearningRate, this`rwLearningRateDecr, this`rwBiasInfluence, this`rwBiasInfluenceDecr
    {
      (rwLearningRate, rwLearningRateDecr, rwBiasInfluence, rwBiasInfluenceDecr)
    }

    function SsSize(): nat { ss.w * ss.h }
    function TsSize(): nat { ts.w * ts.h }

    ghost predicate Valid()
      reads this`accu, this`localPred, this`globalPred, this`totalPred, this`lastTsAct, this`tsActBias, this`rewardCorr,
            Repr - ss.Noises() - ts.Noises(), (set z: Noise.UniformNoise | z in ss.Noises() + ts.Noises() && z in Repr)`shape
    {
      PoolersValid() && Shaped()
    }

    /** The two SOMs are well formed, own no unit and, when distinct, share nothing. */
    ghost predicate PoolersValid()
      reads Repr - ss.Noises() - ts.Noises(), (set z: Noise.UniformNoise | z in ss.Noises() + ts.Noises() && z in Repr)`shape
    {
      (this as object) !in Repr && Poolers(ss, ts, hasTs, Repr)
    }

    /** The unit's vectors have the sizes of the SOMs they belong to. */
    ghost predicate Shaped()
      reads this`accu, this`localPred, this`globalPred, this`totalPred, this`lastTsAct, this`tsActBias, this`rewardCorr
    {
      |accu| == ss.dim &&
      |localPred| == ss.w * ss.h && |globalPred| == ss.w * ss.h && |totalPred| == ss.w * ss.h &&
      |lastTsAct| == ts.w * ts.h && |tsActBias| == ts.w * ts.h && |rewardCorr| == ts.w * ts.h
    }

    /** The children's ranges are the consecutive ranges of their widths. */
    ghost predicate RangesMatch()
      reads this`children, children`lo, children`hi
    {
      forall i :: 0 <= i < |children| ==> (children[i].lo, children[i].hi) == Ranges(Widths(children))[i]
    }

    /**
     * mpfrl/units.py:34-86 and 321-364: the spatial SOM over the input, the
     * temporal RSOM over the spatial neurons when a temporal kind is given
     * (otherwise the spatial SOM stands in for it), uniform noise on both
     * whose decrement shrinks tenfold per level, the Markov predictor on the
     * spatial SOM, and the reward state. The source's constructor with a
     * parent calls `add_child`, which callers do with AddChild.
     */
    constructor (ssKind: SOM.SomKind, tsKind: Option<SOM.SomKind>, inputDim: nat,
                 ssW: nat, ssH: nat, tsW: nat, tsH: nat, unitType: nat, unitLevel: Option<nat>,
                 likelihood: seq<real> -> seq<real>, exp: real -> real, sqrt: real -> real,
                 ghost rank: nat)
      requires inputDim > 0 && ssW > 0 && ssH > 0 && (tsKind.Some? ==> tsW > 0 && tsH > 0)
      requires forall x :: 0.0 <= x ==> 0.0 <= sqrt(x)
      requires forall v :: |likelihood(v)| == |v|
      requires forall y :: 0.0 < exp(y)
      ensures this.unitType == unitType && this.rank == rank
      ensures (unitType == SENSOR || unitType == ACTUATOR) ==> level == Some(0)
      ensures unitType != SENSOR && unitType != ACTUATOR ==> level == unitLevel
      ensures hasTs <==> tsKind.Some?
      ensures ss.w == ssW && ss.h == ssH && ss.dim == inputDim && ss.kind == ssKind && !ss.rsom
      ensures tsKind.Some? ==> ts.w == tsW && ts.h == tsH && ts.kind == tsKind.value
      ensures ss.noise != null && ts.noise != null
      ensures ss.noise.magn == 1.0 + NoiseDecrease(level) && ss.noise.magnDecrease == NoiseDecrease(level)
      ensures ss.noise.minMagn == 0.001 && ss.noise.lower == -0.5 && ss.noise.upper == 0.5
      ensures ts.noise.magn == 1.0 + NoiseDecrease(level) && ts.noise.magnDecrease == NoiseDecrease(level)
      ensures ss.lastBmu == None
      ensures parent == null && children == [] && childInputsNum == 0
      ensures accu == Constant(inputDim, 0.0)
      ensures localPred == Constant(ssW * ssH, 1.0) && globalPred == localPred && totalPred == localPred
      ensures lastTsAct == Constant(TsSize(), 0.0) && tsActBias == Constant(TsSize(), 1.0) && rewardCorr == tsActBias
      ensures rwLearningRate == 1.0 && rwLearningRateDecr == 0.001 && minRwLearningRate == 0.01
      ensures rwBiasInfluence == 1.0 && rwBiasInfluenceDecr == 0.001 && minRwBiasInfluence == 0.1
      ensures Valid() && fresh(Repr)
    {
      var lvl := if unitType == SENSOR || unitType == ACTUATOR then Some(0) else unitLevel;
      var s, t := NewPoolers(ssKind, tsKind, inputDim, ssW, ssH, tsW, tsH, NoiseDecrease(lvl), likelihood, exp, sqrt);
      this.unitType, level, hasTs, ss, ts := unitType, lvl, tsKind.Some?, s, t;
      this.rank := rank;
      Repr := SomParts(s) + SomParts(t);
      parent, children, lo, hi := null, [], 0, 0;
      accu := Constant(inputDim, 0.0);
      childInputsNum := 0;
      localPred, globalPred, totalPred := Constant(ssW * ssH, 1.0), Constant(ssW * ssH, 1.0), Constant(ssW * ssH, 1.0);
      rwLearningRate, rwLearningRateDecr, minRwLearningRate := 1.0, 0.001, 0.01;
      rwBiasInfluence, rwBiasInfluenceDecr, minRwBiasInfluence := 1.0, 0.001, 0.1;
      lastTsAct := Constant(t.w * t.h, 0.0);
      tsActBias, rewardCorr := Constant(t.w * t.h, 1.0), Constant(t.w * t.h, 1.0);
      new;
      UnitNotPart(this, ss);
      UnitNotPart(this, ts);
    }

    /**
     * mpfrl/units.py:109-131: the child's parent becomes this unit, its range
     * starts where the last child's ends (or at 0) and is as wide as its
     * temporal SOM, and it is appended. The capacity assert fails (`ok` is
     * false) when the range ends beyond this unit's input; otherwise the
     * fan-in counter is reset.
     */
    method AddChild(child: Unit) returns (ok: bool)
      modifies this`children, this`childInputsNum, child`parent, child`lo, child`hi
      ensures child.parent == this
      ensures children == old(children) + [child]
      ensures child.lo == if old(children) == [] then 0 else old(children[|children| - 1].hi)
      ensures child.hi == child.lo + child.TsSize()
      ensures ok <==> child.hi <= ss.dim
      ensures ok ==> childInputsNum == 0
      ensures !ok ==> childInputsNum == old(childInputsNum)
      ensures old(RangesMatch()) && child !in old(children) ==> RangesMatch() && child.hi == SumNat(Widths(children))
    {
      ghost var before := children;
      ghost var matched := RangesMatch();
      var start := if children == [] then 0 else children[|children| - 1].hi;
      child.parent := this;
      child.lo, child.hi := start, start + child.TsSize();
      children := children + [child];
      ok := child.hi <= ss.dim;
      if ok {
        childInputsNum := 0;
      }
      if matched && child !in before {
        AppendedRanges(before, child);
      }
    }

    /**
     * `add_child` in a tree (mpfrl/units.py:109-131): a parentless unit of
     * lower rank becomes the last child, reporting into the range after the
     * last child's. When the children's temporal sizes fit this unit's
     * input, the capacity assert holds and the tree stays well formed.
     */
    method Adopt(child: Unit, ghost world: set<Unit>, ghost top: nat)
      requires Tree(world, top) && this in world && child in world
      requires child.parent == null && child.rank < rank
      requires SumNat(Widths(children + [child])) <= ss.dim
      modifies this`children, this`childInputsNum, child`parent, child`lo, child`hi
      ensures Tree(world, top)
      ensures children == old(children) + [child] && child.parent == this && childInputsNum == 0
      ensures child.hi == SumNat(Widths(children))
    {
      assert Linked(world, top) && RangesMatch();
      assert child !in children;
      ghost var before := children;
      var ok := AddChild(child);
      assert ok;
      assert AllValid(world) == old(AllValid(world));
      forall u | u in world
        ensures u.RangesMatch()
      {
        if u != this {
          assert child !in u.children;
        }
      }
      assert Linked(world, top);
    }

    /** Appending a fresh child keeps the ranges consecutive. */
    lemma AppendedRanges(before: seq<Unit>, child: Unit)
      requires children == before + [child] && child !in before
      requires forall i :: 0 <= i < |before| ==> (before[i].lo, before[i].hi) == Ranges(Widths(before))[i]
      requires child.lo == (if before == [] then 0 else before[|before| - 1].hi)
      requires child.hi == child.lo + child.TsSize()
      ensures RangesMatch() && child.hi == SumNat(Widths(children))
    {
      var wb := Widths(before);
      var width := child.TsSize();
      var rb := Ranges(wb);
      assert Widths(children) == wb + [width];
      RangesExtend(wb, width);
      var rs := Ranges(wb + [width]);
      assert rb != [] ==> rb[|rb| - 1].1 == before[|before| - 1].hi;
      assert rs[|before|] == (child.lo, child.hi);
      forall i | 0 <= i < |children|
        ensures (children[i].lo, children[i].hi) == rs[i]
      {
        if i < |before| {
          assert children[i] == before[i];
          assert rs[i] == rb[i];
        }
      }
    }

    // -------------------------------------------------------------------
    // Forward kernel (mpfrl/units.py:368-451)
    // -------------------------------------------------------------------

    /**
     * mpfrl/units.py:376-385: the spatial SOM's activation for the input,
     * weighted by the total prediction and normalised with the EPS floor,
     * becomes its activation vector. The input's distances to the neurons
     * are left in the difference matrix.
     */
    method BiasedActivation(input: seq<real>) returns (biased: seq<real>)
      requires Valid() && |input| == ss.dim
      modifies ss.diff, ss.lastDiff, ss.actVec
      ensures Valid() && unchanged(ss.lastDiff) && unchanged(ss, ss.neurons)
      ensures hasTs ==> unchanged(ts, ts.neurons, ts.lastDiff)
      ensures hasTs ==> SOM.Rows(ts.neurons) == old(SOM.Rows(ts.neurons)) && SOM.Rows(ts.lastDiff) == old(SOM.Rows(ts.lastDiff))
      ensures SOM.Rows(ss.diff) == ss.DiffRows(SOM.Rows(ss.lastDiff), input, SOM.Rows(ss.neurons))
      ensures biased == NormaliseFloored(Times(ss.Activation(SOM.RowNorms(SOM.Rows(ss.diff))), totalPred))
      ensures ss.actVec[..] == biased
      ensures unchanged(ss.freqs, ss.trans)
      ensures SOM.Rows(ss.neurons) == old(SOM.Rows(ss.neurons)) && SOM.Rows(ss.freqs) == old(SOM.Rows(ss.freqs)) && SOM.Rows(ss.trans) == old(SOM.Rows(ss.trans))
    {
      var bmu, row := ss.FindBmu(input, false, true);
      biased := NormaliseFloored(Times(ss.actVec[..], totalPred));
      ss.SetActivation(biased);
    }

    /**
     * mpfrl/units.py:389-390: the first maximum of the biased activation
     * wins; it is trained towards the input and counted by the predictor.
     */
    method TrainWinner(input: seq<real>, biased: seq<real>) returns (winner: nat, ghost d0: seq<seq<real>>, ghost k: SOM.KernelStep)
      requires Valid() && |input| == ss.dim && |biased| == SsSize()
      modifies ss.neurons, ss.diff, ss.lastDiff, ss`lastMeDenom, ss.freqs, ss.trans, ss`lastBmu
      ensures Valid() && unchanged(ss.lastDiff)
      ensures winner == ArgMax(biased) && winner < SsSize()
      ensures ss.lastBmu == Some(winner)
      ensures d0 == ss.DiffRows(old(SOM.Rows(ss.lastDiff)), input, old(SOM.Rows(ss.neurons)))
      ensures Trained(ss.kind, ss.sqrt, ss.exp, ss.w, ss.dim, winner, d0, k, old(SOM.Rows(ss.neurons)), old(ss.lastMeDenom), SOM.Rows(ss.diff), SOM.Rows(ss.neurons), ss.lastMeDenom)
      ensures hasTs ==> unchanged(ts, ts.neurons, ts.lastDiff)
      ensures hasTs ==> SOM.Rows(ts.neurons) == old(SOM.Rows(ts.neurons)) && SOM.Rows(ts.lastDiff) == old(SOM.Rows(ts.lastDiff))
      ensures SOM.PredictorOutcome(old(ss.lastBmu), winner, old(SOM.Rows(ss.freqs)), old(SOM.Rows(ss.trans)),
                                   SOM.Rows(ss.freqs), SOM.Rows(ss.trans))
      ensures totalPred == old(totalPred)
      ensures rewardCorr == old(rewardCorr) && tsActBias == old(tsActBias) && lastTsAct == old(lastTsAct) && Rates() == old(Rates())
    {
      winner := ArgMax(biased);
      d0, k := ss.Train(winner, input);
    }

    /**
     * mpfrl/units.py:396-404: the predictor's next activation from the
     * current one becomes the local prediction, normalised by its total.
     * numpy gives NaNs when that total is 0 (the try block never fires);
     * the model fails then.
     */
    method PredictLocally() returns (r: Result<()>, ghost pred: seq<real>)
      requires Valid()
      modifies this`localPred, ss.predicted
      ensures Valid() && unchanged(ss, ss.neurons, ss.diff, ss.actVec) && unchanged(ss.freqs, ss.trans)
      ensures hasTs ==> unchanged(ts, ts.neurons, ts.lastDiff)
      ensures hasTs ==> SOM.Rows(ts.neurons) == old(SOM.Rows(ts.neurons)) && SOM.Rows(ts.lastDiff) == old(SOM.Rows(ts.lastDiff))
      ensures pred == SOM.VecMat(ss.actVec[..], SOM.Rows(ss.trans), SsSize())
      ensures r.Failure? <==> Sum(pred) == 0.0
      ensures r.Success? ==> localPred == Divide(pred, Sum(pred)) && Sum(localPred) == 1.0
      ensures r.Failure? ==> localPred == old(localPred)
      ensures totalPred == old(totalPred)
      ensures rewardCorr == old(rewardCorr) && tsActBias == old(tsActBias) && lastTsAct == old(lastTsAct) && Rates() == old(Rates())
    {
      var p := ss.PredictNext();
      pred := p.value;
      if Sum(p.value) == 0.0 {
        r := Failure("local prediction sums to zero");
        return;
      }
      localPred := Divide(p.value, Sum(p.value));
      NormalisedSumsToOne(p.value);
      r := Success(());
    }

    /**
     * mpfrl/units.py:410-411: the spatial activation becomes the one-hot
     * vector of the winner.
     */
    method ShowWinner(winner: nat)
      requires Valid() && winner < SsSize()
      modifies ss.actVec
      ensures Valid()
      ensures ss.actVec[..] == SOM.UnitRow(winner, SsSize())
    {
      ss.SetActivation(SOM.UnitRow(winner, SsSize()));
    }

    /**
     * mpfrl/units.py:413: the temporal SOM is trained on the spatial
     * activation; its activation is the likelihood of the distances to it,
     * and the new difference matrix becomes the RSOM's memory
     * (mpfrl/SOM.py:343-348).
     */
    method FeedTemporal() returns (bmu: nat, ghost d0: seq<seq<real>>, ghost k: SOM.KernelStep)
      requires Valid() && hasTs
      modifies ts.neurons, ts.diff, ts.lastDiff, ts.actVec, ts`lastMeDenom, ts.freqs, ts.trans, ts`lastBmu
      ensures Valid() && unchanged(ss.actVec)
      ensures d0 == ts.DiffRows(old(SOM.Rows(ts.lastDiff)), ss.actVec[..], old(SOM.Rows(ts.neurons)))
      ensures ts.actVec[..] == ts.Activation(SOM.RowNorms(d0))
      ensures bmu < TsSize() && forall j :: 0 <= j < TsSize() ==> SOM.RowNorms(d0)[bmu] <= SOM.RowNorms(d0)[j]
      ensures Trained(ts.kind, ts.sqrt, ts.exp, ts.w, ts.dim, bmu, d0, k, old(SOM.Rows(ts.neurons)), old(ts.lastMeDenom), SOM.Rows(ts.diff), SOM.Rows(ts.neurons), ts.lastMeDenom)
      ensures SOM.Rows(ts.lastDiff) == d0
      ensures unchanged(ss, ss.neurons, ss.diff) && unchanged(ss.freqs, ss.trans)
    {
      bmu, d0, k := ts.Absorb(ss.actVec[..]);
    }

    /**
     * mpfrl/units.py:417: the temporal activation is normalised by its
     * total; numpy gives NaNs when that total is 0, and the model fails.
     */
    method NormaliseTemporal() returns (r: Result<()>)
      requires Valid() && hasTs
      modifies ts.actVec
      ensures Valid()
      ensures unchanged(ss, ss.neurons, ss.diff) && unchanged(ss.freqs, ss.trans)
      ensures unchanged(ts, ts.neurons, ts.diff)
      ensures r.Failure? <==> Sum(old(ts.actVec[..])) == 0.0
      ensures r.Failure? ==> unchanged(ts.actVec)
      ensures r.Success? ==> ts.actVec[..] == Divide(old(ts.actVec[..]), Sum(old(ts.actVec[..]))) && Sum(ts.actVec[..]) == 1.0
    {
      var raw := ts.actVec[..];
      if Sum(raw) == 0.0 {
        return Failure("temporal activation sums to zero");
      }
      ts.SetActivation(Divide(raw, Sum(raw)));
      NormalisedSumsToOne(raw);
      r := Success(());
    }

    /**
     * mpfrl/units.py:423-451: the reward correlation moves towards the
     * reinforcement prime by the last scaled output, the backward bias is
     * the clamped minimum of the adjusted correlation, the output scaled by
     * the learning rate is kept for the next step, and the learning rate
     * and the bias influence decay towards their floors.
     */
    method Reinforce(rp: real)
      requires Valid()
      modifies this`rewardCorr, this`tsActBias, this`lastTsAct, this`rwLearningRate, this`rwLearningRateDecr,
               this`rwBiasInfluence, this`rwBiasInfluenceDecr
      ensures Valid()
      ensures unchanged(ts, ts.neurons, ts.diff, ts.actVec, ss.actVec)
      ensures unchanged(ss, ss.neurons, ss.diff) && unchanged(ss.freqs, ss.trans)
      ensures localPred == old(localPred) && totalPred == old(totalPred) && SOM.Rows(ss.trans) == old(SOM.Rows(ss.trans))
      ensures SOM.Rows(ss.neurons) == old(SOM.Rows(ss.neurons)) && SOM.Rows(ss.diff) == old(SOM.Rows(ss.diff)) && SOM.Rows(ss.freqs) == old(SOM.Rows(ss.freqs))
      ensures rewardCorr == ReinforceCorr(old(lastTsAct), rp, old(rewardCorr))
      ensures tsActBias == Constant(TsSize(), BiasLevel(Adjusted(ss.exp, rewardCorr), old(rwBiasInfluence), TsSize()))
      ensures lastTsAct == SOM.Scale(old(rwLearningRate), ts.actVec[..])
      ensures (rwLearningRate, rwLearningRateDecr) == Noise.DecayStep(old(rwLearningRate), old(rwLearningRateDecr), minRwLearningRate)
      ensures (rwBiasInfluence, rwBiasInfluenceDecr) == Noise.DecayStep(old(rwBiasInfluence), old(rwBiasInfluenceDecr), minRwBiasInfluence)
    {
      Correlate(rp);
      Decay();
    }

    /** mpfrl/units.py:423-435: the correlation step and the bias it gives. */
    method Correlate(rp: real)
      requires Valid()
      modifies this`rewardCorr, this`tsActBias
      ensures Valid()
      ensures unchanged(ts, ts.neurons, ts.diff, ts.actVec, ss.actVec) && localPred == old(localPred) && totalPred == old(totalPred) && SOM.Rows(ss.trans) == old(SOM.Rows(ss.trans))
      ensures rewardCorr == ReinforceCorr(old(lastTsAct), rp, old(rewardCorr))
      ensures tsActBias == Constant(TsSize(), BiasLevel(Adjusted(ss.exp, rewardCorr), rwBiasInfluence, TsSize()))
    {
      var corr := ReinforceCorr(lastTsAct, rp, rewardCorr);
      var bias := Constant(TsSize(), BiasLevel(Adjusted(ss.exp, corr), rwBiasInfluence, TsSize()));
      assert |corr| == |bias| == TsSize();
      rewardCorr, tsActBias := corr, bias;
      assert PoolersValid() == old(PoolersValid());
    }

    /** mpfrl/units.py:439-451: the scaled output is kept and both rates decay. */
    method Decay()
      requires Valid()
      modifies this`lastTsAct, this`rwLearningRate, this`rwLearningRateDecr, this`rwBiasInfluence, this`rwBiasInfluenceDecr
      ensures Valid()
      ensures unchanged(ts, ts.neurons, ts.diff, ts.actVec, ss.actVec) && localPred == old(localPred) && totalPred == old(totalPred) && SOM.Rows(ss.trans) == old(SOM.Rows(ss.trans))
      ensures lastTsAct == SOM.Scale(old(rwLearningRate), ts.actVec[..])
      ensures (rwLearningRate, rwLearningRateDecr) == Noise.DecayStep(old(rwLearningRate), old(rwLearningRateDecr), minRwLearningRate)
      ensures (rwBiasInfluence, rwBiasInfluenceDecr) == Noise.DecayStep(old(rwBiasInfluence), old(rwBiasInfluenceDecr), minRwBiasInfluence)
    {
      KeepOutput();
      DecayRates();
    }

    /** mpfrl/units.py:439: the temporal output scaled by the learning rate is kept. */
    method KeepOutput()
      requires Valid()
      modifies this`lastTsAct
      ensures Valid()
      ensures lastTsAct == SOM.Scale(rwLearningRate, ts.actVec[..])
    {
      lastTsAct := SOM.Scale(rwLearningRate, ts.actVec[..]);
    }

    /** mpfrl/units.py:441-451: the learning rate and the bias influence decay towards their floors. */
    method DecayRates()
      requires Valid()
      modifies this`rwLearningRate, this`rwLearningRateDecr, this`rwBiasInfluence, this`rwBiasInfluenceDecr
      ensures Valid()
      ensures (rwLearningRate, rwLearningRateDecr) == Noise.DecayStep(old(rwLearningRate), old(rwLearningRateDecr), minRwLearningRate)
      ensures (rwBiasInfluence, rwBiasInfluenceDecr) == Noise.DecayStep(old(rwBiasInfluence), old(rwBiasInfluenceDecr), minRwBiasInfluence)
    {
      var rate := Noise.DecayStep(rwLearningRate, rwLearningRateDecr, minRwLearningRate);
      var infl := Noise.DecayStep(rwBiasInfluence, rwBiasInfluenceDecr, minRwBiasInfluence);
      rwLearningRate, rwLearningRateDecr, rwBiasInfluence, rwBiasInfluenceDecr := rate.0, rate.1, infl.0, infl.1;
      assert Valid() == old(Valid());
    }

    /**
     * The spatial half of the forward kernel (mpfrl/units.py:376-404): the
     * biased activation `biased` of the input, training of its first
     * maximum, the transition into it counted, and the local prediction
     * `pred` from the biased activation. `d0` holds the input's distances to
     * the neurons as they were before training, and `k` is the training
     * step. The temporal SOM, when there is one, is not touched.
     */
    method ForwardSpatial(input: seq<real>)
      returns (r: Result<nat>, ghost d0: seq<seq<real>>, ghost biased: seq<real>, ghost pred: seq<real>, ghost k: SOM.KernelStep)
      requires Valid() && |input| == ss.dim
      modifies ss.neurons, ss.diff, ss.lastDiff, ss.actVec, ss`lastMeDenom, ss.freqs, ss.trans, ss`lastBmu, ss.predicted, this`localPred
      ensures Valid() && unchanged(ss.lastDiff)
      ensures hasTs ==> unchanged(ts, ts.neurons, ts.lastDiff)
      ensures hasTs ==> SOM.Rows(ts.neurons) == old(SOM.Rows(ts.neurons)) && SOM.Rows(ts.lastDiff) == old(SOM.Rows(ts.lastDiff))
      ensures d0 == ss.DiffRows(old(SOM.Rows(ss.lastDiff)), input, old(SOM.Rows(ss.neurons)))
      ensures biased == NormaliseFloored(Times(ss.Activation(SOM.RowNorms(d0)), totalPred)) && |biased| == SsSize()
      ensures ss.lastBmu == Some(ArgMax(biased)) && ss.actVec[..] == biased
      ensures Trained(ss.kind, ss.sqrt, ss.exp, ss.w, ss.dim, ArgMax(biased), d0, k, old(SOM.Rows(ss.neurons)), old(ss.lastMeDenom),
                      SOM.Rows(ss.diff), SOM.Rows(ss.neurons), ss.lastMeDenom)
      ensures SOM.PredictorOutcome(old(ss.lastBmu), ArgMax(biased), old(SOM.Rows(ss.freqs)), old(SOM.Rows(ss.trans)),
                                   SOM.Rows(ss.freqs), SOM.Rows(ss.trans))
      ensures pred == SOM.VecMat(biased, SOM.Rows(ss.trans), SsSize())
      ensures r.Failure? <==> Sum(pred) == 0.0
      ensures r.Success? ==> r.value == ArgMax(biased) && localPred == Divide(pred, Sum(pred)) && Sum(localPred) == 1.0
      ensures r.Failure? ==> localPred == old(localPred)
      ensures rewardCorr == old(rewardCorr) && tsActBias == old(tsActBias) && lastTsAct == old(lastTsAct) && Rates() == old(Rates())
    {
      var act := BiasedActivation(input);
      biased := act;
      r, d0, pred, k := TrainAndPredict(input, act);
    }

    /**
     * mpfrl/units.py:386-398: the first maximum of the biased activation
     * `biased`, already shown in the spatial SOM's activation, is trained on
     * `input` and its transition counted, and the local prediction is made
     * from that activation; `d0` and `pred` are as in `ForwardSpatial`, and
     * `k` is the training step.
     */
    method TrainAndPredict(input: seq<real>, biased: seq<real>)
      returns (r: Result<nat>, ghost d0: seq<seq<real>>, ghost pred: seq<real>, ghost k: SOM.KernelStep)
      requires Valid() && |input| == ss.dim && |biased| == SsSize() && ss.actVec[..] == biased
      modifies ss.neurons, ss.diff, ss.lastDiff, ss`lastMeDenom, ss.freqs, ss.trans, ss`lastBmu, ss.predicted, this`localPred
      ensures Valid() && unchanged(ss.lastDiff) && unchanged(ss.actVec)
      ensures hasTs ==> unchanged(ts, ts.neurons, ts.lastDiff)
      ensures hasTs ==> SOM.Rows(ts.neurons) == old(SOM.Rows(ts.neurons)) && SOM.Rows(ts.lastDiff) == old(SOM.Rows(ts.lastDiff))
      ensures d0 == ss.DiffRows(old(SOM.Rows(ss.lastDiff)), input, old(SOM.Rows(ss.neurons)))
      ensures ss.lastBmu == Some(ArgMax(biased))
      ensures Trained(ss.kind, ss.sqrt, ss.exp, ss.w, ss.dim, ArgMax(biased), d0, k, old(SOM.Rows(ss.neurons)), old(ss.lastMeDenom),
                      SOM.Rows(ss.diff), SOM.Rows(ss.neurons), ss.lastMeDenom)
      ensures SOM.PredictorOutcome(old(ss.lastBmu), ArgMax(biased), old(SOM.Rows(ss.freqs)), old(SOM.Rows(ss.trans)),
                                   SOM.Rows(ss.freqs), SOM.Rows(ss.trans))
      ensures pred == SOM.VecMat(biased, SOM.Rows(ss.trans), SsSize())
      ensures r.Failure? <==> Sum(pred) == 0.0
      ensures r.Success? ==> r.value == ArgMax(biased) && localPred == Divide(pred, Sum(pred)) && Sum(localPred) == 1.0
      ensures r.Failure? ==> localPred == old(localPred)
      ensures totalPred == old(totalPred)
      ensures rewardCorr == old(rewardCorr) && tsActBias == old(tsActBias) && lastTsAct == old(lastTsAct) && Rates() == old(Rates())
    {
      var winner, dd, kk := TrainWinner(input, biased);
      d0, k := dd, kk;
      var p;
      p, pred := PredictLocally();
      r := if p.Failure? then Failure(p.error) else Success(winner);
    }

    /**
     * The temporal half of the forward kernel (mpfrl/units.py:407-417): the
     * one-hot activation of the winner trains the temporal SOM at its
     * nearest neuron `bmu` with step `k`, and its activation is then
     * normalised by its total, failing when that is 0. The spatial SOM keeps
     * everything but its activation.
     */
    method ForwardTemporal(winner: nat)
      returns (r: Result<()>, ghost d0: seq<seq<real>>, ghost raw: seq<real>, ghost bmu: nat, ghost k: SOM.KernelStep)
      requires Valid() && hasTs && winner < SsSize()
      modifies ss.actVec, ts.neurons, ts.diff, ts.lastDiff, ts.actVec, ts`lastMeDenom, ts.freqs, ts.trans, ts`lastBmu
      ensures Valid()
      ensures localPred == old(localPred) && totalPred == old(totalPred) && SOM.Rows(ss.trans) == old(SOM.Rows(ss.trans))
      ensures unchanged(ss, ss.neurons, ss.diff) && unchanged(ss.freqs, ss.trans)
      ensures ss.actVec[..] == SOM.UnitRow(winner, SsSize())
      ensures d0 == ts.DiffRows(old(SOM.Rows(ts.lastDiff)), SOM.UnitRow(winner, SsSize()), old(SOM.Rows(ts.neurons)))
      ensures bmu < TsSize() && forall j :: 0 <= j < TsSize() ==> SOM.RowNorms(d0)[bmu] <= SOM.RowNorms(d0)[j]
      ensures Trained(ts.kind, ts.sqrt, ts.exp, ts.w, ts.dim, bmu, d0, k, old(SOM.Rows(ts.neurons)), old(ts.lastMeDenom), SOM.Rows(ts.diff), SOM.Rows(ts.neurons), ts.lastMeDenom)
      ensures SOM.Rows(ts.lastDiff) == d0
      ensures raw == ts.Activation(SOM.RowNorms(d0))
      ensures r.Failure? <==> Sum(raw) == 0.0
      ensures r.Success? ==> ts.actVec[..] == Divide(raw, Sum(raw)) && Sum(ts.actVec[..]) == 1.0
      ensures r.Failure? ==> ts.actVec[..] == raw
      ensures Rates() == old(Rates())
      ensures rewardCorr == old(rewardCorr) && tsActBias == old(tsActBias) && lastTsAct == old(lastTsAct)
    {
      ShowWinner(winner);
      var b, dd, kk := FeedTemporal();
      d0, bmu, k := dd, b, kk;
      raw := ts.actVec[..];
      r := NormaliseTemporal();
    }

    /**
     * The forward kernel of a unit with a temporal SOM once the spatial
     * winner `winner` is known (mpfrl/units.py:407-451): the temporal half,
     * and then, unless its activation `raw` summed to 0, the reward step
     * with `rp`. The spatial SOM's weights, distances and counts are not
     * touched.
     */
    method ForwardRest(winner: nat, rp: real)
      returns (r: Result<()>, ghost raw: seq<real>, ghost td0: seq<seq<real>>, ghost tbmu: nat, ghost tk: SOM.KernelStep)
      requires Valid() && hasTs && winner < SsSize()
      modifies ss.actVec, ts.neurons, ts.diff, ts.lastDiff, ts.actVec, ts`lastMeDenom, ts.freqs, ts.trans, ts`lastBmu,
               this`rewardCorr, this`tsActBias, this`lastTsAct, this`rwLearningRate, this`rwLearningRateDecr,
               this`rwBiasInfluence, this`rwBiasInfluenceDecr
      ensures Valid()
      ensures localPred == old(localPred) && totalPred == old(totalPred) && SOM.Rows(ss.trans) == old(SOM.Rows(ss.trans))
      ensures unchanged(ss, ss.neurons, ss.diff) && unchanged(ss.freqs, ss.trans)
      ensures SOM.Rows(ss.neurons) == old(SOM.Rows(ss.neurons)) && SOM.Rows(ss.diff) == old(SOM.Rows(ss.diff)) && SOM.Rows(ss.freqs) == old(SOM.Rows(ss.freqs))
      ensures r.Failure? <==> Sum(raw) == 0.0
      ensures ss.actVec[..] == SOM.UnitRow(winner, SsSize())
      ensures td0 == ts.DiffRows(old(SOM.Rows(ts.lastDiff)), SOM.UnitRow(winner, SsSize()), old(SOM.Rows(ts.neurons)))
      ensures Trained(ts.kind, ts.sqrt, ts.exp, ts.w, ts.dim, tbmu, td0, tk, old(SOM.Rows(ts.neurons)), old(ts.lastMeDenom),
                      SOM.Rows(ts.diff), SOM.Rows(ts.neurons), ts.lastMeDenom)
      ensures SOM.Rows(ts.lastDiff) == td0
      ensures raw == ts.Activation(SOM.RowNorms(td0))
      ensures r.Success? ==> ts.actVec[..] == Divide(raw, Sum(raw))
      ensures r.Success? ==>
        rewardCorr == ReinforceCorr(old(lastTsAct), rp, old(rewardCorr)) &&
        tsActBias == Constant(TsSize(), BiasLevel(Adjusted(ss.exp, rewardCorr), old(rwBiasInfluence), TsSize())) &&
        lastTsAct == SOM.Scale(old(rwLearningRate), ts.actVec[..]) &&
        Rates() == RatesStep(old(Rates()), minRwLearningRate, minRwBiasInfluence)
      ensures r.Failure? ==>
        rewardCorr == old(rewardCorr) && tsActBias == old(tsActBias) && lastTsAct == old(lastTsAct) && Rates() == old(Rates())
    {
      r, td0, raw, tbmu, tk := ForwardTemporal(winner);
      if r.Success? {
        Reinforce(rp);
      }
    }

    /**
     * `_forward_pass_kernel` of `MPF_Unit_RL` (mpfrl/units.py:368-451): the
     * spatial half, the temporal half when there is a temporal SOM, and the
     * reward step with the hierarchy's reinforcement derivative `rp`. It
     * fails when the local prediction `pred` or the temporal activation
     * `raw` it would normalise sums to 0; otherwise the reward step ran.
     * `d0`, `biased` and `sk` are the spatial half's distances, biased
     * activation and training step; `td0`, `tbmu` and `tk` the temporal half's distances,
     * nearest neuron and step.
     */
    method ForwardKernel(input: seq<real>, rp: real)
      returns (r: Result<()>, ghost pred: seq<real>, ghost raw: seq<real>, ghost d0: seq<seq<real>>, ghost biased: seq<real>,
               ghost sk: SOM.KernelStep, ghost td0: seq<seq<real>>, ghost tbmu: nat, ghost tk: SOM.KernelStep)
      requires Valid() && |input| == ss.dim
      modifies ss.neurons, ss.diff, ss.lastDiff, ss.actVec, ss`lastMeDenom, ss.freqs, ss.trans, ss`lastBmu, ss.predicted,
               ts.neurons, ts.diff, ts.lastDiff, ts.actVec, ts`lastMeDenom, ts.freqs, ts.trans, ts`lastBmu,
               this`localPred, this`rewardCorr, this`tsActBias, this`lastTsAct, this`rwLearningRate, this`rwLearningRateDecr,
               this`rwBiasInfluence, this`rwBiasInfluenceDecr
      ensures Valid()
      ensures r.Failure? <==> Sum(pred) == 0.0 || (hasTs && Sum(raw) == 0.0)
      // The spatial half.
      ensures d0 == ss.DiffRows(old(SOM.Rows(ss.lastDiff)), input, old(SOM.Rows(ss.neurons)))
      ensures biased == NormaliseFloored(Times(ss.Activation(SOM.RowNorms(d0)), totalPred)) && |biased| == SsSize()
      ensures ss.lastBmu == Some(ArgMax(biased))
      ensures pred == SOM.VecMat(biased, SOM.Rows(ss.trans), SsSize())
      ensures Sum(pred) != 0.0 ==> localPred == Divide(pred, Sum(pred))
      ensures Sum(pred) == 0.0 ==> localPred == old(localPred)
      // The temporal half.
      ensures !hasTs || Sum(pred) == 0.0 ==> ss.actVec[..] == biased
      ensures hasTs && Sum(pred) != 0.0 ==>
        ss.actVec[..] == SOM.UnitRow(ArgMax(biased), SsSize()) &&
        td0 == ts.DiffRows(old(SOM.Rows(ts.lastDiff)), SOM.UnitRow(ArgMax(biased), SsSize()), old(SOM.Rows(ts.neurons))) &&
        Trained(ts.kind, ts.sqrt, ts.exp, ts.w, ts.dim, tbmu, td0, tk, old(SOM.Rows(ts.neurons)), old(ts.lastMeDenom), SOM.Rows(ts.diff), SOM.Rows(ts.neurons), ts.lastMeDenom) &&
        SOM.Rows(ts.lastDiff) == td0 &&
        raw == ts.Activation(SOM.RowNorms(td0)) &&
        (Sum(raw) != 0.0 ==> ts.actVec[..] == Divide(raw, Sum(raw)))
      // The reward step.
      ensures r.Success? ==>
        rewardCorr == ReinforceCorr(old(lastTsAct), rp, old(rewardCorr)) &&
        tsActBias == Constant(TsSize(), BiasLevel(Adjusted(ss.exp, rewardCorr), old(rwBiasInfluence), TsSize())) &&
        lastTsAct == SOM.Scale(old(rwLearningRate), ts.actVec[..]) &&
        Rates() == RatesStep(old(Rates()), minRwLearningRate, minRwBiasInfluence)
      ensures r.Failure? ==>
        rewardCorr == old(rewardCorr) && tsActBias == old(tsActBias) && lastTsAct == old(lastTsAct) && Rates() == old(Rates())
      // The spatial training step and the transition it counts.
      ensures Trained(ss.kind, ss.sqrt, ss.exp, ss.w, ss.dim, ArgMax(biased), d0, sk, old(SOM.Rows(ss.neurons)), old(ss.lastMeDenom),
                      SOM.Rows(ss.diff), SOM.Rows(ss.neurons), ss.lastMeDenom)
      ensures SOM.PredictorOutcome(old(ss.lastBmu), ArgMax(biased), old(SOM.Rows(ss.freqs)), old(SOM.Rows(ss.trans)),
                                   SOM.Rows(ss.freqs), SOM.Rows(ss.trans))
    {
      var s;
      ghost var sd0, b, p;
      s, sd0, b, p, sk := ForwardSpatial(input);
      d0, biased := sd0, b;
      pred, raw, td0, tbmu, tk := p, [1.0], [], 0, SOM.KernelStep(false, 1.0, 0.0, 1.0);
      if s.Failure? {
        r := Failure(s.error);
      } else if hasTs {
        r, raw, td0, tbmu, tk := ForwardRest(s.value, rp);
      } else {
        r := Success(());
        Reinforce(rp);
      }
    }

    // -------------------------------------------------------------------
    // Backward kernel (mpfrl/units.py:453-500)
    // -------------------------------------------------------------------

    /**
     * mpfrl/units.py:465-488: the top-down vector is reweighted by the bias
     * (normalised, multiplied, normalised); with a temporal SOM one neuron
     * `c` of it is sampled and its weights plus the noise vector `nv`,
     * normalised by their total, become the global prediction; without one
     * the reweighted vector is the global prediction. A zero total, which
     * numpy turns into NaN, fails.
     */
    method GlobalPrediction(v: seq<real>) returns (r: Result<()>, ghost c: nat, ghost nv: seq<real>)
      requires Valid() && |v| == TsSize()
      modifies ts.Noises()`magn, ts.Noises()`magnDecrease, this`globalPred
      ensures Valid()
      ensures Rebias(v, tsActBias).None? ==> r.Failure?
      ensures r.Failure? ==> globalPred == old(globalPred)
      ensures r.Success? && !hasTs ==> globalPred == Rebias(v, tsActBias).value && Sum(globalPred) == 1.0
      ensures r.Success? && hasTs ==>
        Rebias(v, tsActBias).Some? && c < TsSize() && Rebias(v, tsActBias).value[c] != 0.0 && |nv| == ts.dim &&
        var g := SOM.Add(SOM.Row(ts.neurons, c), nv);
        |g| == SsSize() && Sum(g) != 0.0 && globalPred == Divide(g, Sum(g)) && Sum(globalPred) == 1.0
      ensures r.Success? ==> GlobalFrom(v, tsActBias, hasTs, SOM.Rows(ts.neurons), c, nv, globalPred)
      ensures localPred == old(localPred) && totalPred == old(totalPred) && accu == old(accu)
    {
      c, nv := 0, [];
      var b := Rebias(v, tsActBias);
      var gp := globalPred;
      r := Failure("zero total in the backward pass");
      if b.Some? {
        if !hasTs {
          gp, r := b.value, Success(());
        } else {
          var g;
          g, c, nv := DrawGlobal(b.value);
          if g.Success? && Sum(g.value) != 0.0 {
            NormalisedSumsToOne(g.value);
            gp, r := Divide(g.value, Sum(g.value)), Success(());
          }
        }
      }
      SetGlobal(gp);
    }

    /** The global prediction becomes `gp`. */
    method SetGlobal(gp: seq<real>)
      requires Valid() && |gp| == SsSize()
      modifies this`globalPred
      ensures Valid() && globalPred == gp
      ensures localPred == old(localPred) && totalPred == old(totalPred) && accu == old(accu) && tsActBias == old(tsActBias)
      ensures SOM.Rows(ts.neurons) == old(SOM.Rows(ts.neurons))
    {
      globalPred := gp;
      assert PoolersValid() == old(PoolersValid());
    }

    /**
     * `ts.generate(x, 1)[0, :]` on a copy of `x` (mpfrl/units.py:479-480):
     * the weights of a temporal neuron `c` of non-zero weight plus the noise
     * vector `nv`.
     */
    method DrawGlobal(x: seq<real>) returns (g: Result<seq<real>>, ghost c: nat, ghost nv: seq<real>)
      requires Valid() && hasTs && |x| == TsSize()
      modifies ts.Noises()`magn, ts.Noises()`magnDecrease
      ensures Valid()
      ensures g.Success? ==>
        c < TsSize() && x[c] != 0.0 && |nv| == ts.dim && g.value == SOM.Add(SOM.Row(ts.neurons, c), nv) && |g.value| == SsSize()
      ensures SOM.Rows(ts.neurons) == old(SOM.Rows(ts.neurons))
    {
      ghost var ax;
      g, c, nv, ax := ts.Sample(x);
      assert PoolersValid() == old(PoolersValid());
    }

    /**
     * `ss.generate(x, 1)[0, :]` on the total prediction `x`
     * (mpfrl/units.py:499-500): the weights of a spatial neuron `c` of
     * non-zero weight plus the noise vector `nv`; `ax` is `x` with its
     * absolute values, as the in-place `abs` leaves it.
     */
    method DrawOutput(x: seq<real>) returns (g: Result<seq<real>>, ghost c: nat, ghost nv: seq<real>, ax: seq<real>)
      requires Valid() && |x| == SsSize()
      modifies ss.Noises()`magn, ss.Noises()`magnDecrease
      ensures Valid()
      ensures ax == AbsAll(x)
      ensures g.Success? ==> c < SsSize() && 0.0 < ax[c] && |nv| == ss.dim && g.value == SOM.Add(SOM.Row(ss.neurons, c), nv)
      ensures SOM.Rows(ts.neurons) == old(SOM.Rows(ts.neurons)) && SOM.Rows(ss.neurons) == old(SOM.Rows(ss.neurons))
    {
      g, c, nv, ax := ss.Sample(x);
      assert ax == AbsAll(x);
      assert PoolersValid() == old(PoolersValid());
    }

    /**
     * mpfrl/units.py:493-500: the global prediction times the local one,
     * plus an equal share 1/n each, normalised, is the total prediction; one
     * neuron `c` of the spatial SOM is sampled from it and its weights plus
     * the noise vector `nv` become the unit's output. Sampling leaves the
     * total prediction with its absolute values, as numpy's in-place `abs`
     * on the view does. A zero total fails.
     */
    method TotalPrediction() returns (r: Result<()>, ghost c: nat, ghost nv: seq<real>)
      requires Valid()
      modifies ss.Noises()`magn, ss.Noises()`magnDecrease, this`totalPred, this`accu
      ensures Valid()
      ensures var t := TotalTerms(globalPred, localPred);
        (Sum(t) == 0.0 ==> r.Failure? && totalPred == old(totalPred)) &&
        (Sum(t) != 0.0 ==> totalPred == AbsAll(Divide(t, Sum(t))))
      ensures r.Failure? ==> accu == old(accu)
      ensures r.Success? ==> c < SsSize() && 0.0 < totalPred[c] && |nv| == ss.dim && accu == SOM.Add(SOM.Row(ss.neurons, c), nv)
      ensures globalPred == old(globalPred) && localPred == old(localPred) && tsActBias == old(tsActBias)
      ensures SOM.Rows(ts.neurons) == old(SOM.Rows(ts.neurons))
    {
      c, nv := 0, [];
      var t := TotalTerms(globalPred, localPred);
      var tp, out := totalPred, accu;
      r := Failure("zero total in the backward pass");
      if Sum(t) != 0.0 {
        var g;
        g, c, nv, tp := DrawOutput(Divide(t, Sum(t)));
        if g.Success? {
          out, r := g.value, Success(());
        }
      }
      SetTotal(tp, out);
    }

    /** The total prediction becomes `tp` and the output `out`. */
    method SetTotal(tp: seq<real>, out: seq<real>)
      requires Valid() && |tp| == SsSize() && |out| == ss.dim
      modifies this`totalPred, this`accu
      ensures Valid() && totalPred == tp && accu == out
      ensures globalPred == old(globalPred) && localPred == old(localPred) && tsActBias == old(tsActBias)
      ensures SOM.Rows(ts.neurons) == old(SOM.Rows(ts.neurons)) && SOM.Rows(ss.neurons) == old(SOM.Rows(ss.neurons))
    {
      totalPred, accu := tp, out;
      assert PoolersValid() == old(PoolersValid());
    }

    /**
     * What a successful backward kernel leaves (mpfrl/units.py:465-500):
     * the global prediction is the one the top-down vector `v` yields, by
     * way of the temporal neuron `gc` and noise `gnv`; the total prediction
     * is the global one times the local one plus 1/n, normalised, with its
     * absolute values; the output is the weights of the spatial neuron `c`,
     * of positive total prediction, plus the noise `nv`.
     */
    ghost predicate BackwardDone(v: seq<real>, gc: nat, gnv: seq<real>, c: nat, nv: seq<real>)
      reads this`globalPred, this`localPred, this`totalPred, this`accu, this`tsActBias, ts.neurons, ss.neurons
    {
      |v| == |tsActBias| && GlobalFrom(v, tsActBias, hasTs, SOM.Rows(ts.neurons), gc, gnv, globalPred) &&
      |globalPred| == |localPred| && |localPred| > 0 &&
      var t := TotalTerms(globalPred, localPred);
      Sum(t) != 0.0 && totalPred == AbsAll(Divide(t, Sum(t))) &&
      c < |totalPred| && 0.0 < totalPred[c] &&
      c < ss.neurons.Length0 && |nv| == ss.neurons.Length1 && accu == SOM.Add(SOM.Row(ss.neurons, c), nv)
    }

    /**
     * The backward kernel (mpfrl/units.py:453-500): the global prediction
     * from the top-down vector, then the total prediction and the output.
     * `gc` and `gnv` are the temporal neuron and noise of the global
     * prediction, `c` and `nv` the spatial ones of the output.
     */
    method BackwardKernel(v: seq<real>) returns (r: Result<()>, ghost c: nat, ghost nv: seq<real>, ghost gc: nat, ghost gnv: seq<real>)
      requires Valid() && |v| == TsSize()
      modifies ss.Noises()`magn, ss.Noises()`magnDecrease, ts.Noises()`magn, ts.Noises()`magnDecrease,
               this`globalPred, this`totalPred, this`accu
      ensures Valid()
      ensures Rebias(v, tsActBias).None? ==> r.Failure? && accu == old(accu)
      ensures r.Success? ==> Sum(globalPred) == 1.0
      ensures r.Success? ==> var t := TotalTerms(globalPred, localPred); Sum(t) != 0.0 && totalPred == AbsAll(Divide(t, Sum(t)))
      ensures r.Success? ==> c < SsSize() && 0.0 < totalPred[c] && |nv| == ss.dim && accu == SOM.Add(SOM.Row(ss.neurons, c), nv)
      ensures r.Success? ==> BackwardDone(v, gc, gnv, c, nv)
    {
      var g;
      g, gc, gnv := GlobalPrediction(v);
      c, nv := 0, [];
      if g.Failure? {
        r := g;
      } else {
        r, c, nv := TotalPrediction();
      }
    }

    /**
     * The forward kernel of a unit of a tree: the other units and the links
     * of the tree are not touched.
     */
    method TreeKernel(input: seq<real>, rp: real, ghost world: set<Unit>, ghost top: nat) returns (k: Result<()>)
      requires Tree(world, top) && this in world && Valid() && |input| == ss.dim
      modifies Repr, this`localPred, this`rewardCorr, this`tsActBias, this`lastTsAct, this`rwLearningRate, this`rwLearningRateDecr,
               this`rwBiasInfluence, this`rwBiasInfluenceDecr
      ensures Tree(world, top)
      ensures accu == old(accu) && childInputsNum == old(childInputsNum) && parent == old(parent) && lo == old(lo)
      ensures parent != null ==> parent.accu == old(parent.accu)
      ensures k.Success? ==> Rates() == RatesStep(old(Rates()), minRwLearningRate, minRwBiasInfluence)
      ensures k.Failure? ==> Rates() == old(Rates())
      ensures k.Success? ==>
        rewardCorr == ReinforceCorr(old(lastTsAct), rp, old(rewardCorr)) &&
        tsActBias == Constant(TsSize(), BiasLevel(Adjusted(ss.exp, rewardCorr), old(rwBiasInfluence), TsSize())) &&
        lastTsAct == SOM.Scale(old(rwLearningRate), ts.actVec[..])
      ensures k.Failure? ==> rewardCorr == old(rewardCorr) && tsActBias == old(tsActBias) && lastTsAct == old(lastTsAct)
    {
      assert forall v :: v in world ==> (v as object) !in Repr;
      k := FramedKernel(input, rp);
      assert Linked(world, top);
      assert Separate(world);
      forall v | v in world && v != this
        ensures v.Valid()
      {
        assert old(v.Valid());
        assert v.Repr !! Repr;
      }
    }

    /** The forward kernel, framed by the unit's own fields and objects. */
    method OwnKernel(input: seq<real>, rp: real) returns (k: Result<()>)
      requires Valid() && |input| == ss.dim
      modifies Repr, this`localPred, this`rewardCorr, this`tsActBias, this`lastTsAct, this`rwLearningRate, this`rwLearningRateDecr,
               this`rwBiasInfluence, this`rwBiasInfluenceDecr
      ensures Valid()
      ensures k.Success? ==> Rates() == RatesStep(old(Rates()), minRwLearningRate, minRwBiasInfluence)
      ensures k.Failure? ==> Rates() == old(Rates())
      ensures k.Success? ==>
        rewardCorr == ReinforceCorr(old(lastTsAct), rp, old(rewardCorr)) &&
        tsActBias == Constant(TsSize(), BiasLevel(Adjusted(ss.exp, rewardCorr), old(rwBiasInfluence), TsSize())) &&
        lastTsAct == SOM.Scale(old(rwLearningRate), ts.actVec[..])
      ensures k.Failure? ==> rewardCorr == old(rewardCorr) && tsActBias == old(tsActBias) && lastTsAct == old(lastTsAct)
    {
      ghost var pred, raw, d0, biased, sk, td0, tbmu, tk;
      k, pred, raw, d0, biased, sk, td0, tbmu, tk := ForwardKernel(input, rp);
    }

    /** `OwnKernel`, with the unit's links and accumulated input untouched. */
    method FramedKernel(input: seq<real>, rp: real) returns (k: Result<()>)
      requires Valid() && |input| == ss.dim
      modifies Repr, this`localPred, this`rewardCorr, this`tsActBias, this`lastTsAct, this`rwLearningRate, this`rwLearningRateDecr,
               this`rwBiasInfluence, this`rwBiasInfluenceDecr
      ensures Valid()
      ensures accu == old(accu) && childInputsNum == old(childInputsNum) && parent == old(parent) && lo == old(lo)
      ensures k.Success? ==> Rates() == RatesStep(old(Rates()), minRwLearningRate, minRwBiasInfluence)
      ensures k.Failure? ==> Rates() == old(Rates())
      ensures k.Success? ==>
        rewardCorr == ReinforceCorr(old(lastTsAct), rp, old(rewardCorr)) &&
        tsActBias == Constant(TsSize(), BiasLevel(Adjusted(ss.exp, rewardCorr), old(rwBiasInfluence), TsSize())) &&
        lastTsAct == SOM.Scale(old(rwLearningRate), ts.actVec[..])
      ensures k.Failure? ==> rewardCorr == old(rewardCorr) && tsActBias == old(tsActBias) && lastTsAct == old(lastTsAct)
    {
      k := OwnKernel(input, rp);
    }

    // -------------------------------------------------------------------
    // Passes through the tree (mpfrl/units.py:134-201)
    // -------------------------------------------------------------------

    /**
     * mpfrl/units.py:134-143: the child's temporal activation is written
     * into exactly the child's range of the accumulated input, the fan-in
     * counter advances, and once every child has reported it is reset and
     * this unit runs its own forward pass on the accumulated input.
     * `fired` says whether it did, `k` how its kernel ended.
     */
    method ForwardPassFromChild(child: Unit, rp: real, ghost world: set<Unit>, ghost top: nat)
      returns (r: Result<()>, ghost fired: bool, ghost k: Result<()>)
      requires Tree(world, top) && this in world && child in world && child.parent == this
      modifies Above(world, rank)`accu, Above(world, rank)`childInputsNum, Above(world, rank)`localPred,
               Above(world, rank)`rewardCorr, Above(world, rank)`tsActBias, Above(world, rank)`lastTsAct,
               Above(world, rank)`rwLearningRate, Above(world, rank)`rwLearningRateDecr,
               Above(world, rank)`rwBiasInfluence, Above(world, rank)`rwBiasInfluenceDecr,
               Parts(Above(world, rank))
      ensures Tree(world, top)
      ensures child.lo + |old(child.ts.actVec[..])| <= |old(accu)|
      ensures accu == Splice(old(accu), child.lo, old(child.ts.actVec[..]))
      ensures (childInputsNum, fired) == FanIn(old(childInputsNum), |children|)
      ensures !fired ==> r == Success(()) && Rates() == old(Rates())
      ensures fired && k.Success? ==> Rates() == RatesStep(old(Rates()), minRwLearningRate, minRwBiasInfluence)
      ensures fired && k.Failure? ==> Rates() == old(Rates()) && r.Failure?
      decreases top - rank, 1
    {
      var fire := Accumulate(child, world, top);
      fired := fire;
      if fire {
        r, k := ForwardPass(accu, rp, world, top);
      } else {
        r, k := Success(()), Success(());
      }
    }

    /**
     * The bookkeeping half of `forward_pass_from_child`
     * (mpfrl/units.py:135-142): the child's temporal activation goes into
     * its range of the accumulated input and the fan-in counter advances.
     */
    method Accumulate(child: Unit, ghost world: set<Unit>, ghost top: nat) returns (fire: bool)
      requires Tree(world, top) && this in world && child in world && child.parent == this
      modifies this`accu, this`childInputsNum
      ensures Tree(world, top) && |accu| == ss.dim
      ensures child.lo + child.ts.actVec.Length <= |old(accu)|
      ensures accu == Splice(old(accu), child.lo, child.ts.actVec[..])
      ensures (childInputsNum, fire) == FanIn(old(childInputsNum), |children|)
    {
      assert Valid() && child.Valid();
      var part := child.ts.actVec[..];
      accu := Splice(accu, child.lo, part);
      var step := FanIn(childInputsNum, |children|);
      childInputsNum, fire := step.0, step.1;
      assert PoolersValid() == old(PoolersValid());
      assert Linked(world, top) == old(Linked(world, top));
    }

    /**
     * mpfrl/units.py:149-165: the forward kernel runs on the input, then the
     * unit reports to its parent, if it has one. A kernel that fails (a
     * zero total the source would turn into NaN) ends the pass. Units below
     * this one are not changed; this unit's accumulated input and fan-in
     * counter are not changed either.
     */
    method ForwardPass(input: seq<real>, rp: real, ghost world: set<Unit>, ghost top: nat)
      returns (r: Result<()>, ghost k: Result<()>)
      requires Tree(world, top) && this in world && |input| == ss.dim
      modifies Above(world, rank)`accu, Above(world, rank)`childInputsNum, Above(world, rank)`localPred,
               Above(world, rank)`rewardCorr, Above(world, rank)`tsActBias, Above(world, rank)`lastTsAct,
               Above(world, rank)`rwLearningRate, Above(world, rank)`rwLearningRateDecr,
               Above(world, rank)`rwBiasInfluence, Above(world, rank)`rwBiasInfluenceDecr,
               Parts(Above(world, rank))
      ensures Tree(world, top)
      ensures accu == old(accu) && childInputsNum == old(childInputsNum)
      ensures k.Success? ==> Rates() == RatesStep(old(Rates()), minRwLearningRate, minRwBiasInfluence)
      ensures k.Failure? ==> Rates() == old(Rates()) && r.Failure?
      ensures parent == null ==> r == k
      ensures parent != null && k.Success? ==>
        lo + |ts.actVec[..]| <= |old(parent.accu)| && parent.accu == Splice(old(parent.accu), lo, ts.actVec[..])
      decreases top - rank, 0
    {
      ReprInParts(Above(world, rank), this);
      var kr := TreeKernel(input, rp, world, top);
      k := kr;
      if kr.Failure? || parent == null {
        r := kr;
      } else {
        AboveShrinks(world, rank, parent.rank);
        r := Report(rp, world, top);
      }
    }

    /**
     * mpfrl/units.py:159-161: the unit hands its temporal activation to its
     * parent, which writes it into this unit's range of its accumulated
     * input (mpfrl/units.py:135-137). Only the parent and the units above it
     * change.
     */
    method Report(rp: real, ghost world: set<Unit>, ghost top: nat) returns (r: Result<()>)
      requires Tree(world, top) && this in world && parent != null
      modifies Above(world, parent.rank)`accu, Above(world, parent.rank)`childInputsNum, Above(world, parent.rank)`localPred,
               Above(world, parent.rank)`rewardCorr, Above(world, parent.rank)`tsActBias, Above(world, parent.rank)`lastTsAct,
               Above(world, parent.rank)`rwLearningRate, Above(world, parent.rank)`rwLearningRateDecr,
               Above(world, parent.rank)`rwBiasInfluence, Above(world, parent.rank)`rwBiasInfluenceDecr,
               Parts(Above(world, parent.rank))
      ensures Tree(world, top)
      ensures accu == old(accu) && childInputsNum == old(childInputsNum) && Rates() == old(Rates())
      ensures parent == old(parent) && lo == old(lo) && ts.actVec[..] == old(ts.actVec[..])
      ensures lo + |ts.actVec[..]| <= |old(parent.accu)| && parent.accu == Splice(old(parent.accu), lo, ts.actVec[..])
      decreases top - parent.rank, 2
    {
      assert Valid() && this !in Above(world, parent.rank);
      AboveOwnsNothingOf(world, this, parent.rank);
      var fr, fired, fk := parent.ForwardPassFromChild(this, rp, world, top);
      r := fr;
    }

    /**
     * The backward kernel of a unit of a tree: the other units and the links
     * of the tree are not touched.
     */
    method TreeBackwardKernel(v: seq<real>, ghost world: set<Unit>, ghost top: nat)
      returns (r: Result<()>, ghost c: nat, ghost nv: seq<real>, ghost gc: nat, ghost gnv: seq<real>)
      requires Tree(world, top) && this in world && |v| == TsSize()
      modifies Repr, this`globalPred, this`totalPred, this`accu
      ensures Tree(world, top) && Valid()
      ensures Rebias(v, tsActBias).None? ==> r.Failure?
      ensures r.Success? ==> Sum(globalPred) == 1.0
      ensures r.Success? ==> c < SsSize() && 0.0 < totalPred[c] && |nv| == ss.dim && accu == SOM.Add(SOM.Row(ss.neurons, c), nv)
      ensures r.Success? ==> BackwardDone(v, gc, gnv, c, nv)
    {
      assert forall u :: u in world ==> (u as object) !in Repr;
      r, c, nv, gc, gnv := OwnBackwardKernel(v);
      assert Linked(world, top);
      assert Separate(world);
      forall u | u in world && u != this
        ensures u.Valid()
      {
        assert old(u.Valid());
        assert u.Repr !! Repr;
      }
    }

    /** The backward kernel, framed by the unit's own fields and objects. */
    method OwnBackwardKernel(v: seq<real>)
      returns (r: Result<()>, ghost c: nat, ghost nv: seq<real>, ghost gc: nat, ghost gnv: seq<real>)
      requires Valid() && |v| == TsSize()
      modifies Repr, this`globalPred, this`totalPred, this`accu
      ensures Valid()
      ensures Rebias(v, tsActBias).None? ==> r.Failure?
      ensures r.Success? ==> Sum(globalPred) == 1.0
      ensures r.Success? ==> c < SsSize() && 0.0 < totalPred[c] && |nv| == ss.dim && accu == SOM.Add(SOM.Row(ss.neurons, c), nv)
      ensures r.Success? ==> BackwardDone(v, gc, gnv, c, nv)
    {
      r, c, nv, gc, gnv := BackwardKernel(v);
    }

    /**
     * mpfrl/units.py:177-201: the backward kernel turns the top-down vector
     * into this unit's output, and each child in turn is given its own range
     * of that output (`handed` is what each was given). A child whose
     * subtree fails does not stop its siblings: each has its own range of
     * the output. A failing kernel ends the pass at this unit. `k` is how
     * this unit's own kernel ended, with `c`, `nv`, `gc` and `gnv` as in
     * `BackwardKernel`. Units above this one are not changed.
     */
    method BackwardPass(v: seq<real>, ghost world: set<Unit>, ghost top: nat)
      returns (r: Result<()>, ghost k: Result<()>, ghost c: nat, ghost nv: seq<real>, ghost gc: nat, ghost gnv: seq<real>,
               ghost handed: seq<seq<real>>)
      requires Tree(world, top) && this in world && |v| == TsSize()
      modifies Below(world, rank)`accu, Below(world, rank)`globalPred, Below(world, rank)`totalPred, Parts(Below(world, rank))
      ensures Tree(world, top) && Valid()
      ensures Rebias(v, tsActBias).None? ==> k.Failure? && r.Failure?
      ensures k.Failure? ==> r == k
      ensures r.Success? ==> k.Success?
      ensures k.Success? ==> c < SsSize() && 0.0 < totalPred[c] && |nv| == ss.dim && accu == SOM.Add(SOM.Row(ss.neurons, c), nv)
      ensures k.Success? ==> BackwardDone(v, gc, gnv, c, nv) && Sum(globalPred) == 1.0
      ensures k.Success? ==> HandedOut(children, accu, handed, |children|)
      decreases rank, 3
    {
      ReprInParts(Below(world, rank), this);
      r, c, nv, gc, gnv := TreeBackwardKernel(v, world, top);
      k := r;
      handed := [];
      if r.Success? {
        UnderInBelow(world, rank);
        r, handed := Distribute(v, c, nv, gc, gnv, world, top);
      }
    }

    /**
     * After a successful backward kernel, the children are handed their
     * ranges of the output (`HandOut`); what the kernel left is kept.
     */
    method Distribute(ghost v: seq<real>, ghost c: nat, ghost nv: seq<real>, ghost gc: nat, ghost gnv: seq<real>,
                      ghost world: set<Unit>, ghost top: nat)
      returns (r: Result<()>, ghost handed: seq<seq<real>>)
      requires Tree(world, top) && this in world && Valid()
      requires c < SsSize() && 0.0 < totalPred[c] && |nv| == ss.dim && accu == SOM.Add(SOM.Row(ss.neurons, c), nv)
      requires BackwardDone(v, gc, gnv, c, nv) && Sum(globalPred) == 1.0
      modifies Under(world, rank)`accu, Under(world, rank)`globalPred, Under(world, rank)`totalPred, Parts(Under(world, rank))
      ensures Tree(world, top) && Valid()
      ensures c < SsSize() && 0.0 < totalPred[c] && |nv| == ss.dim && accu == SOM.Add(SOM.Row(ss.neurons, c), nv)
      ensures BackwardDone(v, gc, gnv, c, nv) && Sum(globalPred) == 1.0
      ensures HandedOut(children, accu, handed, |children|)
      decreases rank, 2
    {
      ghost var out, row := accu, SOM.Row(ss.neurons, c);
      label handing:
      r, handed := HandOut(world, top);
      assert Valid() == old@handing(Valid());
      assert accu == out && SOM.Row(ss.neurons, c) == row;
    }

    /**
     * The loop of `backward_pass` (mpfrl/units.py:194-201): each child in
     * turn runs its backward pass on its range of this unit's output, and a
     * failing child does not stop the ones after it. Only the units below
     * this one change.
     */
    method HandOut(ghost world: set<Unit>, ghost top: nat) returns (r: Result<()>, ghost handed: seq<seq<real>>)
      requires Tree(world, top) && this in world
      modifies Under(world, rank)`accu, Under(world, rank)`globalPred, Under(world, rank)`totalPred, Parts(Under(world, rank))
      ensures Tree(world, top) && unchanged(this) && unchanged(Repr)
      ensures HandedOut(children, accu, handed, |children|)
      decreases rank, 1
    {
      UnderOwnsNothingOf(world, this);
      r, handed := Success(()), [];
      var i := 0;
      while i < |children|
        invariant 0 <= i <= |children|
        invariant Tree(world, top) && unchanged(this) && unchanged(Repr)
        invariant HandedOut(children, accu, handed, i)
      {
        var cr, part := HandDown(i, world, top);
        HandedMore(children, accu, handed, i, part);
        handed := handed + [part];
        if cr.Failure? {
          r := cr;
        }
        i := i + 1;
      }
    }

    /** Child `i` runs its backward pass on its range `part` of this unit's output. */
    method HandDown(i: nat, ghost world: set<Unit>, ghost top: nat) returns (r: Result<()>, ghost part: seq<real>)
      requires Tree(world, top) && this in world && i < |children|
      modifies Under(world, rank)`accu, Under(world, rank)`globalPred, Under(world, rank)`totalPred, Parts(Under(world, rank))
      ensures Tree(world, top)
      ensures var rs := Ranges(Widths(children)); rs[i].0 <= rs[i].1 <= |accu| && part == accu[rs[i].0..rs[i].1]
      decreases rank, 0
    {
      var child := children[i];
      assert child in world && child.parent == this && RangesMatch();
      assert Valid() && child.Valid();
      assert (child.lo, child.hi) == Ranges(Widths(children))[i];
      var p := accu[child.lo..child.hi];
      part := p;
      BelowInUnder(world, child.rank, rank);
      UnderOwnsNothingOf(world, this);
      ghost var out, kids := accu, children;
      ghost var ck, cc, cnv, cgc, cgnv, ch;
      r, ck, cc, cnv, cgc, cgnv, ch := child.BackwardPass(p, world, top);
      assert accu == out && children == kids;
    }
  }
}
