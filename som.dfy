/*
 * Self-organising maps of the MPF engine (mpfrl/SOM.py): the lattice
 * geometry, the 4-neighbour adjacency table, best-matching-unit search, the
 * RSOM difference cache, the first-order Markov predictor, categorical
 * (inverse-CDF) generation, and the Miller and PL-SOM update kernels.
 *
 * Weights are exact reals. The transcendental pieces (exp, sqrt and the
 * likelihood function) are functions supplied when a map is built; random
 * draws come from the oracle methods of Common.
 */
module SOM {
  import opened Common
  import Noise

  // ---------------------------------------------------------------------
  // Lattice geometry
  // ---------------------------------------------------------------------

  /** Lattice coordinates (x, y) of neuron i on a lattice w wide (mpfrl/SOM.py:118-120). */
  function Coords(i: nat, w: nat): (c: (nat, nat))
    requires w > 0
    ensures c.0 < w && c.1 * w + c.0 == i
  {
    (i % w, i / w)
  }

  /** Row-major index of lattice point (x, y). */
  function Index(x: nat, y: nat, w: nat): nat
  {
    y * w + x
  }

  /** Coordinates and the row-major index are inverse to each other. */
  lemma {:induction false} IndexCoords(x: nat, y: nat, w: nat)
    requires x < w
    ensures Coords(Index(x, y, w), w) == (x, y)
  {
    var c := Coords(Index(x, y, w), w);
    if c.1 < y {
      MulMonotone(c.1 + 1, y, w);
    } else if y < c.1 {
      MulMonotone(y + 1, c.1, w);
    }
  }

  lemma MulMonotone(a: nat, b: nat, w: nat)
    requires a <= b
    ensures a * w <= b * w
  {
  }

  /** An index on a w-by-h lattice stays below w*h. */
  lemma {:induction false} IndexInLattice(x: nat, y: nat, w: nat, h: nat)
    requires x < w && y < h
    ensures Index(x, y, w) < w * h
  {
    MulMonotone(y + 1, h, w);
  }

  /** Squared lattice distance between neurons b and i, in integers (mpfrl/SOM.py:455-459). */
  function LatticeDist2(b: nat, i: nat, w: nat): (d: nat)
    requires w > 0
    ensures d == 0 <==> b == i
  {
    var cb := Coords(b, w);
    var ci := Coords(i, w);
    var dx := cb.0 as int - ci.0 as int;
    var dy := cb.1 as int - ci.1 as int;
    assert b == i <==> cb == ci;
    SquareFacts(dx);
    SquareFacts(dy);
    dx * dx + dy * dy
  }

  lemma SquareFacts(x: int)
    ensures 0 <= x * x
    ensures x != 0 ==> 0 < x * x
    ensures x == 0 ==> x * x == 0
  {
  }

  // ---------------------------------------------------------------------
  // Adjacency table (mpfrl/SOM.py:224-255)
  // ---------------------------------------------------------------------

  /** The j-th candidate neighbour of neuron i: left, right, up, down. */
  function Candidate(i: nat, j: nat, w: nat): (int, int)
    requires w > 0 && j < 4
  {
    var (x, y) := Coords(i, w);
    if j == 0 then (x - 1, y)
    else if j == 1 then (x + 1, y)
    else if j == 2 then (x, y - 1)
    else (x, y + 1)
  }

  predicate OnLattice(p: (int, int), w: nat, h: nat)
  {
    0 <= p.0 < w && 0 <= p.1 < h
  }

  /** The stored neighbour index: the candidate if it lies on the lattice, else i itself. */
  function Neighbour(i: nat, j: nat, w: nat, h: nat): nat
    requires w > 0 && j < 4
  {
    var p := Candidate(i, j, w);
    if OnLattice(p, w, h) then Index(p.0 as nat, p.1 as nat, w) else i
  }

  /** Number of on-lattice candidates among the first k (k <= 4). */
  function InLatticeCount(i: nat, w: nat, h: nat, k: nat): nat
    requires w > 0 && k <= 4
  {
    if k == 0 then 0
    else InLatticeCount(i, w, h, k - 1) + (if OnLattice(Candidate(i, k - 1, w), w, h) then 1 else 0)
  }

  /** Number of stored neighbours among the first k that differ from i itself. */
  function MovedCount(i: nat, w: nat, h: nat, k: nat): nat
    requires w > 0 && k <= 4
  {
    if k == 0 then 0
    else MovedCount(i, w, h, k - 1) + (if Neighbour(i, k - 1, w, h) != i then 1 else 0)
  }

  /** Every stored neighbour index lies in [0, N). */
  lemma NeighbourInRange(i: nat, j: nat, w: nat, h: nat)
    requires w > 0 && i < w * h && j < 4
    ensures Neighbour(i, j, w, h) < w * h
  {
    var p := Candidate(i, j, w);
    if OnLattice(p, w, h) {
      IndexInLattice(p.0 as nat, p.1 as nat, w, h);
    }
  }

  /** An on-lattice candidate is never the neuron itself, so an entry equals i iff it was substituted. */
  lemma {:induction false} NeighbourMovedIffOnLattice(i: nat, j: nat, w: nat, h: nat)
    requires w > 0 && j < 4
    ensures Neighbour(i, j, w, h) != i <==> OnLattice(Candidate(i, j, w), w, h)
  {
    var p := Candidate(i, j, w);
    var c := Coords(i, w);
    if OnLattice(p, w, h) {
      IndexCoords(p.0 as nat, p.1 as nat, w);
      assert Coords(Neighbour(i, j, w, h), w) == (p.0 as nat, p.1 as nat);
      assert (p.0, p.1) != (c.0 as int, c.1 as int);
    }
  }

  /** adj_num equals the number of table entries that are not self-substitutions. */
  lemma {:induction false} AdjNumCountsRealNeighbours(i: nat, w: nat, h: nat, k: nat)
    requires w > 0 && k <= 4
    ensures InLatticeCount(i, w, h, k) == MovedCount(i, w, h, k)
  {
    if k > 0 {
      AdjNumCountsRealNeighbours(i, w, h, k - 1);
      NeighbourMovedIffOnLattice(i, k - 1, w, h);
    }
  }

  function Opposite(j: nat): nat
    requires j < 4
  {
    if j == 0 then 1 else if j == 1 then 0 else if j == 2 then 3 else 2
  }

  /** Adjacency is symmetric: if k is i's j-th neighbour, i is k's opposite neighbour. */
  lemma {:induction false} NeighbourSymmetric(i: nat, j: nat, w: nat, h: nat)
    requires w > 0 && i < w * h && j < 4
    requires Neighbour(i, j, w, h) != i
    ensures Neighbour(Neighbour(i, j, w, h), Opposite(j), w, h) == i
  {
    var c := Coords(i, w);
    var p := Candidate(i, j, w);
    NeighbourMovedIffOnLattice(i, j, w, h);
    var k := Neighbour(i, j, w, h);
    IndexCoords(p.0 as nat, p.1 as nat, w);
    assert Coords(k, w) == (p.0 as nat, p.1 as nat);
    assert c.1 < h by {
      if c.1 >= h { MulMonotone(h, c.1, w); }
    }
    assert Candidate(k, Opposite(j), w) == (c.0 as int, c.1 as int);
    IndexCoords(c.0, c.1, w);
  }

  /**
   * Builds the adjacency table the way the source's nested loops do
   * (mpfrl/SOM.py:224-255): for each neuron, the four candidates in order,
   * an off-lattice one replaced by the neuron itself and counted out of
   * adj_num. The table keeps one row per neuron and adj_num itself.
   */
  method BuildAdjacency(w: nat, h: nat) returns (adj: array2<nat>, adjNum: array<nat>)
    requires w > 0 && h > 0
    ensures adj.Length0 == w * h && adj.Length1 == 4 && adjNum.Length == w * h
    ensures forall i, j :: 0 <= i < w * h && 0 <= j < 4 ==> adj[i, j] == Neighbour(i, j, w, h)
    ensures forall i :: 0 <= i < w * h ==> adjNum[i] == InLatticeCount(i, w, h, 4)
  {
    var n := w * h;
    adj := new nat[n, 4];
    adjNum := new nat[n];
    var i := 0;
    while i < n
      invariant 0 <= i <= n
      invariant forall a, j :: 0 <= a < i && 0 <= j < 4 ==> adj[a, j] == Neighbour(a, j, w, h)
      invariant forall a :: 0 <= a < i ==> adjNum[a] == InLatticeCount(a, w, h, 4)
    {
      var count := FillRow(adj, i, w, h);
      adjNum[i] := count;
      i := i + 1;
    }
  }

  /** One row of the table: the four candidates of neuron i, in order. */
  method FillRow(adj: array2<nat>, i: nat, w: nat, h: nat) returns (count: nat)
    requires w > 0 && i < adj.Length0 && adj.Length1 == 4
    modifies adj
    ensures forall j :: 0 <= j < 4 ==> adj[i, j] == Neighbour(i, j, w, h)
    ensures forall a, j :: 0 <= a < adj.Length0 && a != i && 0 <= j < 4 ==> adj[a, j] == old(adj[a, j])
    ensures count == InLatticeCount(i, w, h, 4)
  {
    var x, y := i % w, i / w;
    assert (x, y) == Coords(i, w);
    count := 4;
    var j := 0;
    while j < 4
      invariant 0 <= j <= 4
      invariant count == 4 - j + InLatticeCount(i, w, h, j)
      invariant forall a, b :: 0 <= a < adj.Length0 && a != i && 0 <= b < 4 ==> adj[a, b] == old(adj[a, b])
      invariant forall b :: 0 <= b < j ==> adj[i, b] == Neighbour(i, b, w, h)
    {
      var ax, ay: int;
      if j == 0 { ax, ay := x - 1, y; }
      else if j == 1 { ax, ay := x + 1, y; }
      else if j == 2 { ax, ay := x, y - 1; }
      else { ax, ay := x, y + 1; }
      assert (ax, ay) == Candidate(i, j, w);
      if ax < 0 || ax >= w || ay < 0 || ay >= h {
        count := count - 1;
        ax, ay := x, y;
      }
      adj[i, j] := ay * w + ax;
      j := j + 1;
    }
  }

  // ---------------------------------------------------------------------
  // The numeric functions a SOM is given
  // ---------------------------------------------------------------------

  /** A square root: non-negative on the non-negative reals. */
  ghost predicate RootLike(sqrt: real -> real)
  {
    forall x :: 0.0 <= x ==> 0.0 <= sqrt(x)
  }

  /** An activation function: one activation per distance. */
  ghost predicate LengthPreserving(likelihood: seq<real> -> seq<real>)
  {
    forall v :: |likelihood(v)| == |v|
  }

  /** An exponential: positive everywhere. */
  ghost predicate Positive(exp: real -> real)
  {
    forall y :: 0.0 < exp(y)
  }

  // ---------------------------------------------------------------------
  // Vectors and matrices
  // ---------------------------------------------------------------------

  /** Squared Euclidean norm of a vector. */
  function NormSq(v: seq<real>): (r: real)
    ensures 0.0 <= r
  {
    if v == [] then 0.0
    else
      var x := v[|v| - 1];
      SquareNonNegative(x);
      NormSq(v[..|v| - 1]) + x * x
  }

  lemma SquareNonNegative(x: real)
    ensures 0.0 <= x * x
  {
    if x < 0.0 {
      assert x * x == (-x) * (-x);
    }
  }

  /** Row r of a matrix. */
  function Row(m: array2<real>, r: nat): (v: seq<real>)
    reads m
    requires r < m.Length0
    ensures |v| == m.Length1
  {
    seq(m.Length1, c requires 0 <= c < m.Length1 reads m => m[r, c])
  }

  /** The whole matrix as a sequence of rows. */
  function Rows(m: array2<real>): (rs: seq<seq<real>>)
    reads m
    ensures |rs| == m.Length0 && forall r :: 0 <= r < m.Length0 ==> rs[r] == Row(m, r)
  {
    seq(m.Length0, r requires 0 <= r < m.Length0 reads m => Row(m, r))
  }

  /** Squared distance of every row from the origin: `diag(dot(D, D.T))`. */
  function RowNorms(m: seq<seq<real>>): (r: seq<real>)
    ensures |r| == |m| && forall i :: 0 <= i < |m| ==> r[i] == NormSq(m[i])
  {
    seq(|m|, i requires 0 <= i < |m| => NormSq(m[i]))
  }

  /** The i-th unit vector of length n: a row of the identity matrix. */
  function UnitRow(i: nat, n: nat): (v: seq<real>)
    ensures |v| == n
  {
    seq(n, c => if c == i then 1.0 else 0.0)
  }

  lemma {:induction false} UnitRowSum(i: nat, n: nat)
    requires i < n
    ensures Sum(UnitRow(i, n)) == 1.0
  {
    if n == i + 1 {
      assert UnitRow(i, n)[..n - 1] == seq(n - 1, c => 0.0);
      ZeroSum(n - 1);
    } else {
      assert UnitRow(i, n)[..n - 1] == UnitRow(i, n - 1);
      UnitRowSum(i, n - 1);
    }
  }

  lemma {:induction false} ZeroSum(n: nat)
    ensures Sum(seq(n, c => 0.0)) == 0.0
  {
    if n > 0 {
      assert seq(n, c => 0.0)[..n - 1] == seq(n - 1, c => 0.0);
      ZeroSum(n - 1);
    }
  }

  /** Adding d to one entry adds d to the total. */
  lemma {:induction false} SumIncrement(s: seq<real>, k: nat, d: real)
    requires k < |s|
    ensures Sum(s[k := s[k] + d]) == Sum(s) + d
  {
    var t := s[k := s[k] + d];
    if k == |s| - 1 {
      assert t[..|t| - 1] == s[..|s| - 1];
    } else {
      assert t[..|t| - 1] == s[..|s| - 1][k := s[k] + d];
      SumIncrement(s[..|s| - 1], k, d);
    }
  }

  /** Entry c of the vector-matrix product a * m (numpy `dot(a, m)`). */
  function Dot(a: seq<real>, m: seq<seq<real>>, c: nat): real
    requires |a| <= |m| && forall r :: 0 <= r < |m| ==> c < |m[r]|
  {
    if a == [] then 0.0 else Dot(a[..|a| - 1], m, c) + a[|a| - 1] * m[|a| - 1][c]
  }

  /** The vector-matrix product a * m for a matrix with `cols` columns. */
  function VecMat(a: seq<real>, m: seq<seq<real>>, cols: nat): (p: seq<real>)
    requires |a| <= |m| && forall r :: 0 <= r < |m| ==> |m[r]| == cols
    ensures |p| == cols && forall c :: 0 <= c < cols ==> p[c] == Dot(a, m, c)
  {
    seq(cols, c requires 0 <= c < cols => Dot(a, m, c))
  }

  function Scale(k: real, v: seq<real>): (r: seq<real>)
    ensures |r| == |v| && forall i :: 0 <= i < |v| ==> r[i] == k * v[i]
  {
    seq(|v|, i requires 0 <= i < |v| => k * v[i])
  }

  function Add(u: seq<real>, v: seq<real>): (r: seq<real>)
    requires |u| == |v|
    ensures |r| == |u| && forall i :: 0 <= i < |u| ==> r[i] == u[i] + v[i]
  {
    seq(|u|, i requires 0 <= i < |u| => u[i] + v[i])
  }

  lemma {:induction false} SumAdd(u: seq<real>, v: seq<real>)
    requires |u| == |v|
    ensures Sum(Add(u, v)) == Sum(u) + Sum(v)
  {
    if u != [] {
      var n := |u|;
      assert Add(u, v)[..n - 1] == Add(u[..n - 1], v[..n - 1]);
      SumAdd(u[..n - 1], v[..n - 1]);
    }
  }

  lemma {:induction false} SumScale(k: real, v: seq<real>)
    ensures Sum(Scale(k, v)) == k * Sum(v)
  {
    if v != [] {
      var n := |v|;
      var sv, sp := Scale(k, v), Scale(k, v[..n - 1]);
      forall i | 0 <= i < n - 1
        ensures sv[..n - 1][i] == sp[i]
      {
        assert sv[i] == k * v[i];
      }
      assert sv[..n - 1] == sp;
      SumScale(k, v[..n - 1]);
      assert k * Sum(v) == k * Sum(v[..n - 1]) + k * v[n - 1];
    }
  }

  /**
   * Multiplying by a row-stochastic matrix preserves the total: the sum of
   * the predicted activation equals the sum of the current one.
   */
  lemma {:induction false} VecMatPreservesSum(a: seq<real>, m: seq<seq<real>>, cols: nat)
    requires |a| <= |m| && forall r :: 0 <= r < |m| ==> |m[r]| == cols
    requires forall r :: 0 <= r < |m| ==> Sum(m[r]) == 1.0
    ensures Sum(VecMat(a, m, cols)) == Sum(a)
  {
    if a != [] {
      var n := |a|;
      var a' := a[..n - 1];
      VecMatPreservesSum(a', m, cols);
      VecMatStep(a, m, cols);
      var p, q := VecMat(a', m, cols), Scale(a[n - 1], m[n - 1]);
      SumAdd(p, q);
      SumScale(a[n - 1], m[n - 1]);
      var k := Sum(m[n - 1]);
      assert k == 1.0;
      assert a[n - 1] * k == a[n - 1];
      assert Sum(a) == Sum(a') + a[n - 1];
    } else {
      assert VecMat(a, m, cols) == seq(cols, c => 0.0);
      ZeroSum(cols);
    }
  }

  /** The product with one more row is the shorter product plus that row, scaled. */
  lemma VecMatStep(a: seq<real>, m: seq<seq<real>>, cols: nat)
    requires 0 < |a| <= |m| && forall r :: 0 <= r < |m| ==> |m[r]| == cols
    ensures VecMat(a, m, cols) == Add(VecMat(a[..|a| - 1], m, cols), Scale(a[|a| - 1], m[|a| - 1]))
  {
    var n := |a|;
    var a' := a[..n - 1];
    forall c | 0 <= c < cols
      ensures VecMat(a, m, cols)[c] == Add(VecMat(a', m, cols), Scale(a[n - 1], m[n - 1]))[c]
    {
    }
  }

  // ---------------------------------------------------------------------
  // Categorical generation (mpfrl/SOM.py:533-557)
  // ---------------------------------------------------------------------

  /** Cumulative sums (numpy `cumsum`). */
  function CumSum(s: seq<real>): (r: seq<real>)
    ensures |r| == |s| && forall k :: 0 <= k < |s| ==> r[k] == Sum(s[..k + 1])
  {
    seq(|s|, k requires 0 <= k < |s| => Sum(s[..k + 1]))
  }

  lemma CumSumStep(s: seq<real>, k: nat)
    requires 0 < k < |s|
    ensures CumSum(s)[k] == CumSum(s)[k - 1] + s[k]
  {
    assert s[..k + 1][..k] == s[..k];
  }

  /** A non-negative vector has non-decreasing cumulative sums. */
  lemma CumSumMonotone(s: seq<real>, i: nat, j: nat)
    requires forall k :: 0 <= k < |s| ==> 0.0 <= s[k]
    requires i <= j < |s|
    ensures CumSum(s)[i] <= CumSum(s)[j]
    decreases j - i
  {
    if i < j {
      CumSumStep(s, j);
      CumSumMonotone(s, i, j - 1);
    }
  }

  /**
   * numpy `digitize(x, bins)` for non-decreasing bins: the number of bins
   * not above x, i.e. the index i with bins[i-1] <= x < bins[i].
   */
  function Digitize(x: real, bins: seq<real>): (i: nat)
    ensures i <= |bins|
    ensures forall j :: 0 <= j < i ==> bins[j] <= x
    ensures i < |bins| ==> x < bins[i]
  {
    if bins == [] || x < bins[0] then 0 else 1 + Digitize(x, bins[1..])
  }

  /**
   * Drawing with u in [0, 1) from the normalised cumulative distribution of
   * a non-negative weight vector with a positive total lands on an index in
   * range whose weight is positive: a zero-weight neuron is never chosen.
   */
  lemma ChosenIndexHasWeight(weights: seq<real>, u: real)
    requires |weights| > 0 && forall k :: 0 <= k < |weights| ==> 0.0 <= weights[k]
    requires CumSum(weights)[|weights| - 1] != 0.0
    requires 0.0 <= u < 1.0
    ensures Digitize(u, Divide(CumSum(weights), CumSum(weights)[|weights| - 1])) < |weights|
    ensures 0.0 < weights[Digitize(u, Divide(CumSum(weights), CumSum(weights)[|weights| - 1]))]
  {
    var n := |weights|;
    var cum := CumSum(weights);
    var total := cum[n - 1];
    CumSumMonotone(weights, 0, n - 1);
    CumSumFirst(weights);
    assert 0.0 < total;
    DigitizeScaled(u, cum, total);
    ScaledDraw(u, total);
    var x := u * total;
    var i := Digitize(x, cum);
    assert i < n;
    if i > 0 {
      CumSumStep(weights, i);
    }
  }

  lemma DivideAt(s: seq<real>, d: real, k: nat)
    requires d != 0.0 && k < |s|
    ensures Divide(s, d)[k] * d == s[k]
  {
  }

  /** A draw in [0, 1) scaled by a positive total lies in [0, total). */
  lemma ScaledDraw(u: real, t: real)
    requires 0.0 <= u < 1.0 && 0.0 < t
    ensures 0.0 <= u * t < t
  {
  }

  /** Comparing with a normalised bin is comparing the scaled draw with the raw one. */
  lemma ScaledBelow(u: real, b: real, t: real, c: real)
    requires b * t == c && 0.0 < t
    ensures u < b <==> u * t < c
  {
    if u < b {
      assert (b - u) * t > 0.0;
    } else {
      assert (u - b) * t >= 0.0;
    }
  }

  /**
   * Digitizing against cumulative sums normalised by a positive total is
   * digitizing the draw scaled by that total against the sums themselves.
   */
  lemma {:induction false} DigitizeScaled(u: real, cum: seq<real>, t: real)
    requires 0.0 < t
    ensures Digitize(u, Divide(cum, t)) == Digitize(u * t, cum)
    decreases |cum|
  {
    if cum != [] {
      var bins := Divide(cum, t);
      assert bins[1..] == Divide(cum[1..], t);
      DivideAt(cum, t, 0);
      ScaledBelow(u, bins[0], t, cum[0]);
      DigitizeScaled(u, cum[1..], t);
    }
  }

  /**
   * `digitize(random_sample(samples), bins)` with bins the normalised
   * cumulative weights: `samples` uniform draws in [0, 1) and the index each
   * one falls to, always one with positive weight.
   */
  method DrawNeurons(weights: seq<real>, samples: nat) returns (u: seq<real>, idx: seq<nat>)
    requires |weights| > 0 && forall k :: 0 <= k < |weights| ==> 0.0 <= weights[k]
    requires CumSum(weights)[|weights| - 1] != 0.0
    ensures |u| == samples && |idx| == samples
    ensures forall j :: 0 <= j < samples ==>
      0.0 <= u[j] < 1.0 &&
      idx[j] == Digitize(u[j], Divide(CumSum(weights), CumSum(weights)[|weights| - 1])) &&
      idx[j] < |weights| && 0.0 < weights[idx[j]]
  {
    var bins := Divide(CumSum(weights), CumSum(weights)[|weights| - 1]);
    u := UniformVector(0.0, 1.0, samples);
    idx := seq(samples, j requires 0 <= j < samples => Digitize(u[j], bins));
    forall j | 0 <= j < samples
      ensures idx[j] < |weights| && 0.0 < weights[idx[j]]
    {
      ChosenIndexHasWeight(weights, u[j]);
    }
  }

  lemma CumSumFirst(s: seq<real>)
    requires |s| > 0
    ensures CumSum(s)[0] == s[0]
  {
    assert s[..1][..0] == [];
    assert Sum(s[..1]) == Sum(s[..1][..0]) + s[..1][0];
  }

  lemma CancelFactor(a: real, b: real, d: real)
    requires d != 0.0 && a * d == b * d
    ensures a == b
  {
    assert a == a * d / d;
    assert b == b * d / d;
  }

  // ---------------------------------------------------------------------
  // Update kernels (mpfrl/SOM.py:618-629, mpfrl/SOM.py:663-696)
  // ---------------------------------------------------------------------

  datatype SomKind = Miller | PL

  /** Neighbourhood constant of both kernels. */
  const NhConstant: real := 2.3

  /** Miller's model error: squared BMU distance averaged over the input length, floored at EPS. */
  function MillerError(sq: real, dim: nat): (e: real)
    requires dim > 0
    ensures EPS <= e
    ensures EPS <= sq / dim as real ==> e == sq / dim as real
  {
    var e := sq / dim as real;
    if e < EPS then EPS else e
  }

  /**
   * PL-SOM error estimate: the running maximum of BMU distances and the
   * distance relative to it.
   */
  function PlError(dist: real, lastDenom: real): (r: (real, real))
    requires 0.0 <= dist && 0.0 < lastDenom
    ensures lastDenom <= r.0 && dist <= r.0 && (r.0 == dist || r.0 == lastDenom)
    ensures 0.0 <= r.1 <= 1.0 && r.1 * r.0 == dist
    ensures r.1 == 0.0 <==> dist == 0.0
  {
    var denom := Max2(dist, lastDenom);
    var e := dist / denom;
    RatioFacts(dist, denom);
    (denom, e)
  }

  lemma RatioFacts(x: real, d: real)
    requires 0.0 <= x <= d && 0.0 < d
    ensures 0.0 <= x / d <= 1.0 && (x / d) * d == x
    ensures x / d == 0.0 <==> x == 0.0
  {
    var e := x / d;
    assert e * d == x;
  }

  /** PL-SOM neighbourhood width, never below sigma_min = 1. */
  function PlSigma(e: real): (sigma: real)
    ensures 1.0 <= sigma
    ensures 1.0 <= NhConstant * e ==> sigma == NhConstant * e
  {
    var sigma := NhConstant * e;
    if sigma < 1.0 then 1.0 else sigma
  }

  /**
   * What one kernel call does: whether it updates at all, the squared
   * neighbourhood width handed to the Gaussian, the learning rate the
   * neighbourhood-weighted difference is scaled by, and the new PL-SOM
   * denominator.
   */
  datatype KernelStep = KernelStep(apply: bool, nhDenom: real, rate: real, meDenom: real)

  function Step(kind: SomKind, sqrt: real -> real, sq: real, dim: nat, lastDenom: real): (k: KernelStep)
    requires dim > 0 && 0.0 < lastDenom && 0.0 <= sqrt(sq)
    ensures k.apply ==> 0.0 < k.nhDenom
    ensures lastDenom <= k.meDenom && 0.0 < k.meDenom
    ensures kind == Miller ==> k.apply && k.rate == 1.0 && k.meDenom == lastDenom
    ensures kind == Miller ==> k.nhDenom == MillerError(sq, dim) * NhConstant * NhConstant
    ensures kind == PL ==> 0.0 <= k.rate <= 1.0 && (k.apply <==> 0.0 < k.rate)
    ensures kind == PL ==> k.meDenom == Max2(sqrt(sq), lastDenom)
    ensures kind == PL ==> k.nhDenom == PlSigma(k.rate) * PlSigma(k.rate)
  {
    match kind
    case Miller =>
      KernelStep(true, MillerError(sq, dim) * NhConstant * NhConstant, 1.0, lastDenom)
    case PL =>
      var (denom, e) := PlError(sqrt(sq), lastDenom);
      var sigma := PlSigma(e);
      assert 1.0 <= sigma * sigma by { assert sigma * sigma >= 1.0 * sigma; }
      KernelStep(0.0 < e, sigma * sigma, e, denom)
  }

  /** Gaussian neighbourhood weight of neuron i around the BMU b (mpfrl/SOM.py:446-460). */
  function GaussNh(exp: real -> real, b: nat, i: nat, w: nat, denom: real): real
    requires w > 0 && denom != 0.0
  {
    exp(-(LatticeDist2(b, i, w) as real) / denom)
  }

  /** The neighbourhood weights of all n neurons around the BMU b, as one vector. */
  function NhVector(exp: real -> real, b: nat, w: nat, n: nat, denom: real): (g: seq<real>)
    requires w > 0 && denom != 0.0
    ensures |g| == n && forall i :: 0 <= i < n ==> g[i] == GaussNh(exp, b, i, w, denom)
  {
    seq(n, i requires 0 <= i < n => GaussNh(exp, b, i, w, denom))
  }

  /** Every row of m scaled by its own weight. */
  function WeighRows(m: seq<seq<real>>, g: seq<real>): (r: seq<seq<real>>)
    requires |g| == |m|
    ensures |r| == |m| && forall i :: 0 <= i < |m| ==> r[i] == Scale(g[i], m[i])
  {
    seq(|m|, i requires 0 <= i < |m| => Scale(g[i], m[i]))
  }

  /** a + rate * d, row by row. */
  function AddScaledRows(a: seq<seq<real>>, d: seq<seq<real>>, rate: real): (r: seq<seq<real>>)
    requires |a| == |d| && forall i :: 0 <= i < |a| ==> |a[i]| == |d[i]|
    ensures |r| == |a| && forall i :: 0 <= i < |a| ==> r[i] == Add(a[i], Scale(rate, d[i]))
  {
    seq(|a|, i requires 0 <= i < |a| => Add(a[i], Scale(rate, d[i])))
  }

  /** A matrix equals a sequence of rows that agrees with it entry by entry. */
  lemma RowsEqual(m: array2<real>, rs: seq<seq<real>>)
    requires |rs| == m.Length0 && forall i :: 0 <= i < |rs| ==> |rs[i]| == m.Length1
    requires forall i, c :: 0 <= i < m.Length0 && 0 <= c < m.Length1 ==> m[i, c] == rs[i][c]
    ensures Rows(m) == rs
  {
    forall i | 0 <= i < m.Length0
      ensures Rows(m)[i] == rs[i]
    {
      assert Row(m, i) == rs[i];
    }
  }

  // ---------------------------------------------------------------------
  // The map itself (mpfrl/SOM.py:21-557, 596-696)
  // ---------------------------------------------------------------------

  /**
   * Transition row r next to count row r: the identity row while there are
   * no counts, the normalised counts afterwards.
   */
  ghost predicate RowRule(counts: seq<real>, probs: seq<real>, r: nat)
  {
    var total := Sum(counts);
    (total == 0.0 ==> probs == UnitRow(r, |counts|)) &&
    (total != 0.0 ==> probs == Divide(counts, total))
  }

  /** The count matrix after one more transition from p to b. */
  function Counted(f: seq<seq<real>>, p: nat, b: nat): (g: seq<seq<real>>)
    requires p < |f| && b < |f[p]|
    ensures |g| == |f| && forall r :: 0 <= r < |f| ==> |g[r]| == |f[r]|
    ensures g[p][b] == f[p][b] + 1.0
    ensures forall r, c :: 0 <= r < |f| && 0 <= c < |f[r]| && (r != p || c != b) ==> g[r][c] == f[r][c]
  {
    f[p := f[p][b := f[p][b] + 1.0]]
  }

  /** The transition matrix with row p replaced by the normalised count row p. */
  function Renormalised(t: seq<seq<real>>, f: seq<seq<real>>, p: nat): (u: seq<seq<real>>)
    requires p < |t| && p < |f| && Sum(f[p]) != 0.0
    ensures |u| == |t| && u[p] == Divide(f[p], Sum(f[p]))
    ensures forall r :: 0 <= r < |t| && r != p ==> u[r] == t[r]
  {
    t[p := Divide(f[p], Sum(f[p]))]
  }

  /**
   * What one kernel call does to the difference matrix d0 and the weights
   * n0 (giving d1 and n1): when the step applies, each difference row is
   * scaled by its neuron's neighbourhood weight and the weights move by the
   * scaled difference times the rate; otherwise nothing changes.
   */
  ghost predicate KernelOutcome(k: KernelStep, exp: real -> real, b: nat, w: nat,
                                d0: seq<seq<real>>, n0: seq<seq<real>>, d1: seq<seq<real>>, n1: seq<seq<real>>)
  {
    (k.apply ==>
      w > 0 && k.nhDenom != 0.0 && d1 == WeighRows(d0, NhVector(exp, b, w, |d0|, k.nhDenom)) &&
      |n0| == |d1| && (forall i :: 0 <= i < |n0| ==> |n0[i]| == |d1[i]|) &&
      n1 == AddScaledRows(n0, d1, k.rate)) &&
    (!k.apply ==> d1 == d0 && n1 == n0)
  }

  /**
   * What one predictor update does to the counts f0 and transitions t0
   * (giving f1 and t1) given the previous BMU: nothing on the first call,
   * otherwise one more count for the transition prev -> b and that row of
   * the transitions renormalised.
   */
  ghost predicate PredictorOutcome(prev: Option<nat>, b: nat,
                                   f0: seq<seq<real>>, t0: seq<seq<real>>, f1: seq<seq<real>>, t1: seq<seq<real>>)
  {
    match prev
    case None => f1 == f0 && t1 == t0
    case Some(p) =>
      p < |f0| && b < |f0[p]| && f1 == Counted(f0, p, b) &&
      p < |t0| && Sum(f1[p]) != 0.0 && t1 == Renormalised(t0, f1, p)
  }

  /**
   * The BMU's own neighbourhood weight is exp(0), so with exp(0) = 1 the
   * kernel moves the BMU's weights by its difference row times the rate.
   */
  lemma KernelMovesBmu(k: KernelStep, exp: real -> real, b: nat, w: nat,
                       d0: seq<seq<real>>, n0: seq<seq<real>>, d1: seq<seq<real>>, n1: seq<seq<real>>)
    requires KernelOutcome(k, exp, b, w, d0, n0, d1, n1) && k.apply && b < |d0| && exp(0.0) == 1.0
    ensures b < |n0| && b < |n1| && |n0[b]| == |d0[b]|
    ensures n1[b] == Add(n0[b], Scale(k.rate, d0[b]))
  {
    assert LatticeDist2(b, b, w) == 0;
    var g := NhVector(exp, b, w, |d0|, k.nhDenom);
    assert g[b] == exp(0.0);
    assert d1[b] == Scale(1.0, d0[b]);
    assert Scale(1.0, d0[b]) == d0[b];
  }

  /**
   * Miller's kernel moves the BMU exactly onto the input: its rate is 1, its
   * own neighbourhood weight is exp(0) = 1, and without the recurrent
   * extension its difference row is input minus its weights.
   */
  lemma MillerBmuReachesInput(sqrt: real -> real, exp: real -> real, b: nat, w: nat, dim: nat, lastDenom: real,
                              input: seq<real>, d0: seq<seq<real>>, n0: seq<seq<real>>, d1: seq<seq<real>>, n1: seq<seq<real>>)
    requires dim > 0 && 0.0 < lastDenom && b < |d0| && |input| == dim && 0.0 <= sqrt(NormSq(d0[b]))
    requires KernelOutcome(Step(Miller, sqrt, NormSq(d0[b]), dim, lastDenom), exp, b, w, d0, n0, d1, n1)
    requires b < |n0| && |n0[b]| == dim && |d0[b]| == dim
    requires forall c :: 0 <= c < dim ==> d0[b][c] == input[c] - n0[b][c]
    requires exp(0.0) == 1.0
    ensures b < |n1| && n1[b] == input
  {
    var k := Step(Miller, sqrt, NormSq(d0[b]), dim, lastDenom);
    KernelMovesBmu(k, exp, b, w, d0, n0, d1, n1);
    assert n1[b] == Add(n0[b], Scale(1.0, d0[b]));
  }

  /**
   * A kernel step that applies, or whose rate is 0, moves the BMU toward the
   * input by its rate: every coordinate's distance to the input is scaled by
   * 1 - rate (with exp(0) = 1 and the difference row input minus weights).
   */
  lemma BmuApproachesInput(k: KernelStep, exp: real -> real, b: nat, w: nat, input: seq<real>,
                           d0: seq<seq<real>>, n0: seq<seq<real>>, d1: seq<seq<real>>, n1: seq<seq<real>>)
    requires KernelOutcome(k, exp, b, w, d0, n0, d1, n1) && (k.apply || k.rate == 0.0)
    requires b < |d0| && b < |n0| && |n0[b]| == |input| && |d0[b]| == |input|
    requires forall c :: 0 <= c < |input| ==> d0[b][c] == input[c] - n0[b][c]
    requires exp(0.0) == 1.0
    ensures b < |n1| && |n1[b]| == |input|
    ensures forall c :: 0 <= c < |input| ==> input[c] - n1[b][c] == (1.0 - k.rate) * (input[c] - n0[b][c])
  {
    var e := k.rate;
    if k.apply {
      KernelMovesBmu(k, exp, b, w, d0, n0, d1, n1);
    }
    forall c | 0 <= c < |input|
      ensures input[c] - n1[b][c] == (1.0 - e) * (input[c] - n0[b][c])
    {
      assert n1[b][c] == n0[b][c] + e * d0[b][c];
      StepToward(input[c], n0[b][c], e);
    }
  }

  /**
   * The PL-SOM kernel moves the BMU toward the input by the fraction given
   * by its error estimate in [0, 1]; a zero estimate leaves it in place.
   */
  lemma PlBmuApproachesInput(k: KernelStep, sqrt: real -> real, exp: real -> real, b: nat, w: nat, dim: nat, lastDenom: real,
                             input: seq<real>, d0: seq<seq<real>>, n0: seq<seq<real>>, d1: seq<seq<real>>, n1: seq<seq<real>>)
    requires dim > 0 && 0.0 < lastDenom && b < |d0| && |input| == dim && 0.0 <= sqrt(NormSq(d0[b]))
    requires k == Step(PL, sqrt, NormSq(d0[b]), dim, lastDenom)
    requires KernelOutcome(k, exp, b, w, d0, n0, d1, n1)
    requires b < |n0| && |n0[b]| == dim && |d0[b]| == dim
    requires forall c :: 0 <= c < dim ==> d0[b][c] == input[c] - n0[b][c]
    requires exp(0.0) == 1.0
    ensures 0.0 <= k.rate <= 1.0
    ensures b < |n1| && |n1[b]| == dim
    ensures forall c :: 0 <= c < dim ==> input[c] - n1[b][c] == (1.0 - k.rate) * (input[c] - n0[b][c])
  {
    BmuApproachesInput(k, exp, b, w, input, d0, n0, d1, n1);
  }

  lemma StepToward(x: real, a: real, e: real)
    ensures x - (a + e * (x - a)) == (1.0 - e) * (x - a)
  {
  }

  /** Counting a transition adds exactly one to the total of its row. */
  lemma CountedRowTotal(f: seq<seq<real>>, p: nat, b: nat)
    requires p < |f| && b < |f[p]|
    ensures Sum(Counted(f, p, b)[p]) == Sum(f[p]) + 1.0
  {
    SumIncrement(f[p], b, 1.0);
  }

  /** A row without counts next to the identity row satisfies the rule. */
  lemma InitialRowRule(r: nat, n: nat)
    ensures RowRule(seq(n, c => 0.0), UnitRow(r, n), r)
  {
    ZeroSum(n);
  }

  /** Rows in which no entry changed are the same rows. */
  lemma RowsUnchanged(m: array2<real>, before: seq<seq<real>>, p: nat)
    requires |before| == m.Length0 && forall r :: 0 <= r < |before| ==> |before[r]| == m.Length1
    requires forall r, c :: 0 <= r < m.Length0 && r != p && 0 <= c < m.Length1 ==> m[r, c] == before[r][c]
    ensures forall r :: 0 <= r < m.Length0 && r != p ==> Row(m, r) == before[r]
  {
    forall r | 0 <= r < m.Length0 && r != p
      ensures Row(m, r) == before[r]
    {
      assert forall c :: 0 <= c < m.Length1 ==> Row(m, r)[c] == before[r][c];
    }
  }

  /** Zero transition counts and the identity transition matrix, both n by n. */
  method NewTransitionTables(n: nat) returns (f: array2<real>, t: array2<real>)
    ensures fresh(f) && fresh(t) && f != t
    ensures f.Length0 == n && f.Length1 == n && t.Length0 == n && t.Length1 == n
    ensures forall r, c :: 0 <= r < n && 0 <= c < n ==>
      f[r, c] == 0.0 && t[r, c] == if r == c then 1.0 else 0.0
    ensures forall r :: 0 <= r < n ==> RowRule(Row(f, r), Row(t, r), r)
  {
    f := new real[n, n]((r, c) => 0.0);
    t := new real[n, n]((r, c) => if r == c then 1.0 else 0.0);
    forall r | 0 <= r < n
      ensures RowRule(Row(f, r), Row(t, r), r)
    {
      assert Row(f, r) == seq(n, c => 0.0);
      assert Row(t, r) == UnitRow(r, n);
      InitialRowRule(r, n);
    }
  }

  /**
   * A self-organising map over a w-by-h lattice of neurons with dim-long
   * weight vectors, in one of the two implemented kinds. `likelihood` turns
   * the squared distances into the activation vector, `exp` and `sqrt` stand
   * for the transcendental functions of the kernels, and `noise` is the
   * optional noise source of generation (absent means no noise).
   */
  class Som {
    const w: nat
    const h: nat
    const dim: nat
    const kind: SomKind
    const rsom: bool
    const decay: real
    const neurons: array2<real>
    const diff: array2<real>
    const lastDiff: array2<real>
    const actVec: array<real>
    const likelihood: seq<real> -> seq<real>
    const exp: real -> real
    const sqrt: real -> real
    const noise: Noise.UniformNoise?
    var lastMeDenom: real
    var predictorOn: bool
    var freqs: array2?<real>
    var trans: array2?<real>
    var lastBmu: Option<nat>
    var predicted: array?<real>

    /** The noise source, as a set: empty for a SOM without one. */
    /** The activation for the distances `norms`: the likelihood function the SOM was given. */
    function Activation(norms: seq<real>): seq<real>
    {
      likelihood(norms)
    }

    function Noises(): (z: set<Noise.UniformNoise>)
      ensures noise != null ==> z == {noise}
      ensures noise == null ==> z == {}
    {
      if noise == null then {} else {noise}
    }

    ghost predicate Valid()
      reads this, Noises()`shape, freqs, trans
    {
      w > 0 && h > 0 && dim > 0 &&
      neurons.Length0 == w * h && neurons.Length1 == dim &&
      diff.Length0 == w * h && diff.Length1 == dim &&
      lastDiff.Length0 == w * h && lastDiff.Length1 == dim &&
      actVec.Length == w * h &&
      neurons != diff && neurons != lastDiff && diff != lastDiff &&
      freqs != neurons && freqs != diff && freqs != lastDiff &&
      trans != neurons && trans != diff && trans != lastDiff &&
      0.0 < lastMeDenom &&
      RootLike(sqrt) && LengthPreserving(likelihood) &&
      (noise != null ==> noise.shape == dim) &&
      (predictorOn ==> PredictorValid())
    }

    /**
     * The Markov predictor's state: non-negative transition counts, and
     * each transition row either the normalised count row or, while that
     * row holds no counts yet, the identity row it started as.
     */
    ghost predicate PredictorValid()
      reads this`freqs, this`trans, this`predicted, this`lastBmu, freqs, trans
    {
      freqs != null && trans != null && predicted != null &&
      freqs.Length0 == w * h && freqs.Length1 == w * h &&
      trans.Length0 == w * h && trans.Length1 == w * h &&
      predicted.Length == w * h && predicted != actVec && freqs != trans &&
      (lastBmu.Some? ==> lastBmu.value < w * h) &&
      (forall r, c :: 0 <= r < w * h && 0 <= c < w * h ==> 0.0 <= freqs[r, c]) &&
      (forall r :: 0 <= r < w * h ==> RowRule(Row(freqs, r), Row(trans, r), r))
    }

    /** Every row of the transition matrix is a probability distribution. */
    lemma TransitionRowsSumToOne(r: nat)
      requires Valid() && predictorOn && r < w * h
      ensures Sum(Row(trans, r)) == 1.0
      ensures forall c :: 0 <= c < w * h ==> 0.0 <= trans[r, c]
    {
      assert RowRule(Row(freqs, r), Row(trans, r), r);
      var row := Row(freqs, r);
      assert forall c :: 0 <= c < |row| ==> 0.0 <= row[c];
      SumNonNegative(row);
      if Sum(row) == 0.0 {
        assert Row(trans, r) == UnitRow(r, w * h);
        UnitRowSum(r, w * h);
        assert forall c :: 0 <= c < w * h ==> trans[r, c] == Row(trans, r)[c];
      } else {
        NormalisedSumsToOne(row);
        forall c | 0 <= c < w * h
          ensures 0.0 <= trans[r, c]
        {
          assert trans[r, c] == Row(trans, r)[c] == Divide(row, Sum(row))[c];
          assert trans[r, c] * Sum(row) == row[c];
        }
      }
    }

    constructor (w: nat, h: nat, dim: nat, kind: SomKind, rsom: bool,
                 likelihood: seq<real> -> seq<real>, exp: real -> real, sqrt: real -> real,
                 noise: Noise.UniformNoise?)
      requires w > 0 && h > 0 && dim > 0
      requires forall x :: 0.0 <= x ==> 0.0 <= sqrt(x)
      requires forall v :: |likelihood(v)| == |v|
      modifies noise
      ensures Valid()
      ensures this.w == w && this.h == h && this.dim == dim && this.kind == kind && this.rsom == rsom
      ensures this.likelihood == likelihood && this.exp == exp && this.sqrt == sqrt && this.noise == noise
      ensures fresh(neurons) && fresh(diff) && fresh(lastDiff) && fresh(actVec)
      ensures forall i, k :: 0 <= i < w * h && 0 <= k < dim ==>
        0.0 <= neurons[i, k] < 1.0 && diff[i, k] == 0.0 && lastDiff[i, k] == 0.0
      ensures forall i :: 0 <= i < w * h ==> actVec[i] == 0.0
      ensures rsom ==> decay == 0.7
      ensures !predictorOn && lastMeDenom == EPS
      ensures freqs == null && trans == null && predicted == null && lastBmu == None
      ensures noise != null ==> noise.shape == dim && noise.magn == old(noise.magn) && noise.magnDecrease == old(noise.magnDecrease)
    {
      var n := w * h;
      var m := UniformMatrix(0.0, 1.0, n, dim);
      this.w, this.h, this.dim, this.kind, this.rsom := w, h, dim, kind, rsom;
      decay := if rsom then 0.7 else 0.0;
      neurons := new real[n, dim];
      diff := new real[n, dim]((i, k) => 0.0);
      lastDiff := new real[n, dim]((i, k) => 0.0);
      actVec := new real[n](i => 0.0);
      this.likelihood, this.exp, this.sqrt, this.noise := likelihood, exp, sqrt, noise;
      lastMeDenom := EPS;
      predictorOn := false;
      freqs, trans, predicted := null, null, null;
      lastBmu := None;
      new;
      forall i, k | 0 <= i < n && 0 <= k < dim {
        neurons[i, k] := m[i][k];
      }
      if noise != null {
        noise.shape := dim;
      }
    }

    /** One entry of the difference matrix (mpfrl/SOM.py:328-348). */
    function DiffEntry(last: real, x: real, wt: real): real
    {
      if rsom then (1.0 - decay) * last + decay * (x - wt) else x - wt
    }

    /** The difference matrix computed from the previous one, an input and the weights. */
    function DiffRows(last: seq<seq<real>>, input: seq<real>, nrs: seq<seq<real>>): (d: seq<seq<real>>)
      requires |last| == |nrs| && forall i :: 0 <= i < |nrs| ==> |last[i]| == |input| && |nrs[i]| == |input|
      ensures |d| == |nrs| && forall i :: 0 <= i < |nrs| ==> |d[i]| == |input|
      ensures forall i, c :: 0 <= i < |nrs| && 0 <= c < |input| ==> d[i][c] == DiffEntry(last[i][c], input[c], nrs[i][c])
    {
      seq(|nrs|, i requires 0 <= i < |nrs| =>
        seq(|input|, c requires 0 <= c < |input| => DiffEntry(last[i][c], input[c], nrs[i][c])))
    }

    /**
     * Recomputes the difference matrix; the RSOM variant mixes in the
     * previous difference and caches exactly the matrix it produced.
     */
    method CalcDiff(input: seq<real>)
      requires Valid() && |input| == dim
      modifies diff, lastDiff
      ensures Rows(diff) == DiffRows(old(Rows(lastDiff)), input, Rows(neurons))
      ensures rsom ==> Rows(lastDiff) == Rows(diff)
      ensures !rsom ==> unchanged(lastDiff)
      ensures Valid()
    {
      ghost var l0 := Rows(lastDiff);
      forall i, k | 0 <= i < w * h && 0 <= k < dim {
        diff[i, k] := DiffEntry(lastDiff[i, k], input[k], neurons[i, k]);
      }
      RowsEqual(diff, DiffRows(l0, input, Rows(neurons)));
      if rsom {
        forall i, k | 0 <= i < w * h && 0 <= k < dim {
          lastDiff[i, k] := diff[i, k];
        }
        RowsEqual(lastDiff, Rows(diff));
      }
    }
  
    /**
     * Best-matching unit (mpfrl/SOM.py:406-444): the first neuron at minimal
     * squared distance, over the difference matrix recomputed from the input
     * or, with `givenDiff`, the cached one (the only matrix the source ever
     * passes in). With `calcActVec` the activation vector is the likelihood
     * of the distances. The returned row is the BMU's weight vector.
     */
    method FindBmu(input: seq<real>, givenDiff: bool, calcActVec: bool) returns (bmu: nat, row: seq<real>)
      requires Valid() && |input| == dim
      modifies diff, lastDiff, actVec
      ensures givenDiff ==> unchanged(diff) && unchanged(lastDiff)
      ensures !givenDiff ==> Rows(diff) == DiffRows(old(Rows(lastDiff)), input, Rows(neurons))
      ensures !givenDiff && rsom ==> Rows(lastDiff) == Rows(diff)
      ensures !givenDiff && !rsom ==> unchanged(lastDiff)
      ensures bmu < w * h
      ensures forall j :: 0 <= j < w * h ==> RowNorms(Rows(diff))[bmu] <= RowNorms(Rows(diff))[j]
      ensures forall j :: 0 <= j < bmu ==> RowNorms(Rows(diff))[bmu] < RowNorms(Rows(diff))[j]
      ensures calcActVec ==> actVec[..] == Activation(RowNorms(Rows(diff)))
      ensures !calcActVec ==> unchanged(actVec)
      ensures row == Row(neurons, bmu)
      ensures Valid()
    {
      if !givenDiff {
        CalcDiff(input);
      }
      var norms := RowNorms(Rows(diff));
      bmu := ArgMin(norms);
      if calcActVec {
        SetActivation(Activation(norms));
      }
      row := Row(neurons, bmu);
    }

    /** Overwrites the activation vector. */
    method SetActivation(act: seq<real>)
      requires Valid() && |act| == w * h
      modifies actVec
      ensures actVec[..] == act
    {
      forall i | 0 <= i < w * h {
        actVec[i] := act[i];
      }
    }

    /**
     * The kind-specific update kernel (Miller: mpfrl/SOM.py:618-629, PL-SOM:
     * mpfrl/SOM.py:663-696): when the step applies, every difference row is
     * weighted by the Gaussian neighbourhood around the BMU, in place, and
     * added to the weights scaled by the step's rate.
     */
    method UpdateKernel(b: nat) returns (k: KernelStep)
      requires Valid() && b < w * h
      modifies neurons, diff, this`lastMeDenom
      ensures k == Step(kind, sqrt, NormSq(old(Row(diff, b))), dim, old(lastMeDenom))
      ensures lastMeDenom == k.meDenom
      ensures KernelOutcome(k, exp, b, w, old(Rows(diff)), old(Rows(neurons)), Rows(diff), Rows(neurons))
      ensures Valid()
    {
      k := NextStep(b);
      if k.apply {
        var g := NhVector(exp, b, w, w * h, k.nhDenom);
        WeighByNeighbourhood(g);
        AddScaledDiff(k.rate);
      }
      assert !k.apply ==> Rows(diff) == old(Rows(diff)) && Rows(neurons) == old(Rows(neurons));
    }

    /** The kernel's step for BMU b, and the PL-SOM denominator it leaves behind. */
    method NextStep(b: nat) returns (k: KernelStep)
      requires Valid() && b < w * h
      modifies this`lastMeDenom
      ensures k == Step(kind, sqrt, NormSq(Row(diff, b)), dim, old(lastMeDenom))
      ensures lastMeDenom == k.meDenom
      ensures Valid()
    {
      k := Step(kind, sqrt, NormSq(Row(diff, b)), dim, lastMeDenom);
      lastMeDenom := k.meDenom;
    }

    /** `diff_m *= nh[:, newaxis]`: each difference row scaled by its neuron's weight. */
    method WeighByNeighbourhood(g: seq<real>)
      requires Valid() && |g| == w * h
      modifies diff
      ensures Rows(diff) == WeighRows(old(Rows(diff)), g)
    {
      ghost var d0 := Rows(diff);
      forall i, c | 0 <= i < w * h && 0 <= c < dim {
        diff[i, c] := diff[i, c] * g[i];
      }
      RowsEqual(diff, WeighRows(d0, g));
    }

    /** `neurons += diff_m * rate`. */
    method AddScaledDiff(rate: real)
      requires Valid()
      modifies neurons
      ensures Rows(neurons) == AddScaledRows(old(Rows(neurons)), Rows(diff), rate)
    {
      ghost var n0 := Rows(neurons);
      forall i, c | 0 <= i < w * h && 0 <= c < dim {
        neurons[i, c] := neurons[i, c] + diff[i, c] * rate;
      }
      RowsEqual(neurons, AddScaledRows(n0, Rows(diff), rate));
    }

    /**
     * Weight update for a given BMU (mpfrl/SOM.py:465-490): the difference
     * matrix is recomputed from the input unless `givenDiff` says to use the
     * cached one, then the BMU's learning step runs on it. `d0` is the
     * difference matrix the kernel started from and `k` the step it took.
     */
    method UpdateNeurons(b: nat, input: seq<real>, givenDiff: bool) returns (ghost d0: seq<seq<real>>, ghost k: KernelStep)
      requires Valid() && b < w * h && |input| == dim
      modifies neurons, diff, lastDiff, this`lastMeDenom, freqs, trans, this`lastBmu
      ensures givenDiff ==> d0 == old(Rows(diff)) && unchanged(lastDiff)
      ensures !givenDiff ==> d0 == DiffRows(old(Rows(lastDiff)), input, old(Rows(neurons)))
      ensures !givenDiff && rsom ==> Rows(lastDiff) == d0
      ensures !givenDiff && !rsom ==> unchanged(lastDiff)
      ensures |d0| == w * h && forall i :: 0 <= i < w * h ==> |d0[i]| == dim
      ensures k == Step(kind, sqrt, NormSq(d0[b]), dim, old(lastMeDenom)) && lastMeDenom == k.meDenom
      ensures KernelOutcome(k, exp, b, w, d0, old(Rows(neurons)), Rows(diff), Rows(neurons))
      ensures predictorOn ==>
        PredictorOutcome(old(lastBmu), b, old(Rows(freqs)), old(Rows(trans)), Rows(freqs), Rows(trans))
      ensures predictorOn ==> lastBmu == Some(b)
      ensures !predictorOn ==> lastBmu == old(lastBmu) && unchanged(this`freqs, this`trans)
      ensures Valid()
    {
      if !givenDiff {
        CalcDiff(input);
      }
      d0 := Rows(diff);
      k := Learn(b);
    }

    /**
     * A training step for a given BMU on a fresh difference matrix of the
     * input (mpfrl/SOM.py:465-490 with the difference recomputed): the
     * kind's step for the BMU's distance, the kernel's outcome with it, and
     * the transition count.
     */
    method Train(b: nat, input: seq<real>) returns (ghost d0: seq<seq<real>>, ghost k: KernelStep)
      requires Valid() && b < w * h && |input| == dim && !rsom
      modifies neurons, diff, lastDiff, this`lastMeDenom, freqs, trans, this`lastBmu
      ensures Valid() && unchanged(lastDiff)
      ensures d0 == DiffRows(old(Rows(lastDiff)), input, old(Rows(neurons)))
      ensures |d0| == w * h && forall i :: 0 <= i < w * h ==> |d0[i]| == dim
      ensures k == Step(kind, sqrt, NormSq(d0[b]), dim, old(lastMeDenom)) && lastMeDenom == k.meDenom
      ensures KernelOutcome(k, exp, b, w, d0, old(Rows(neurons)), Rows(diff), Rows(neurons))
      ensures predictorOn ==>
        PredictorOutcome(old(lastBmu), b, old(Rows(freqs)), old(Rows(trans)), Rows(freqs), Rows(trans))
      ensures predictorOn ==> lastBmu == Some(b)
    {
      d0, k := UpdateNeurons(b, input, false);
    }

    /**
     * The learning step on the current difference matrix: the kind's kernel
     * (mpfrl/SOM.py:484) and then, when the predictor is enabled, the
     * transition count into b (mpfrl/SOM.py:490). The covariance update of
     * the mixture model in between is not part of this model.
     */
    method Learn(b: nat) returns (ghost k: KernelStep)
      requires Valid() && b < w * h
      modifies neurons, diff, this`lastMeDenom, freqs, trans, this`lastBmu
      ensures k == Step(kind, sqrt, NormSq(old(Row(diff, b))), dim, old(lastMeDenom)) && lastMeDenom == k.meDenom
      ensures KernelOutcome(k, exp, b, w, old(Rows(diff)), old(Rows(neurons)), Rows(diff), Rows(neurons))
      ensures predictorOn ==>
        PredictorOutcome(old(lastBmu), b, old(Rows(freqs)), old(Rows(trans)), Rows(freqs), Rows(trans))
      ensures predictorOn ==> lastBmu == Some(b)
      ensures !predictorOn ==> lastBmu == old(lastBmu)
      ensures Valid()
    {
      k := UpdateKernel(b);
      if predictorOn {
        UpdateTransProbs(b);
      }
    }

    /**
     * One training step on an input (mpfrl/SOM.py:492-507): the difference
     * matrix from the input, the BMU over it with the activation vector, and
     * the learning step for that BMU on the same matrix. The returned row is
     * the BMU's weight vector after the update, since the source hands back
     * a view into the weights. `d0` is the difference matrix of the input
     * and `k` the kernel's step.
     */
    method Feed(input: seq<real>) returns (bmu: nat, row: seq<real>, ghost d0: seq<seq<real>>, ghost k: KernelStep)
      requires Valid() && |input| == dim
      modifies neurons, diff, lastDiff, actVec, this`lastMeDenom, freqs, trans, this`lastBmu
      ensures d0 == DiffRows(old(Rows(lastDiff)), input, old(Rows(neurons)))
      ensures rsom ==> Rows(lastDiff) == d0
      ensures !rsom ==> unchanged(lastDiff)
      ensures bmu < |d0| == w * h
      ensures forall j :: 0 <= j < w * h ==> RowNorms(d0)[bmu] <= RowNorms(d0)[j]
      ensures forall j :: 0 <= j < bmu ==> RowNorms(d0)[bmu] < RowNorms(d0)[j]
      ensures actVec[..] == Activation(RowNorms(d0))
      ensures k == Step(kind, sqrt, NormSq(d0[bmu]), dim, old(lastMeDenom)) && lastMeDenom == k.meDenom
      ensures KernelOutcome(k, exp, bmu, w, d0, old(Rows(neurons)), Rows(diff), Rows(neurons))
      ensures predictorOn ==>
        PredictorOutcome(old(lastBmu), bmu, old(Rows(freqs)), old(Rows(trans)), Rows(freqs), Rows(trans))
      ensures predictorOn ==> lastBmu == Some(bmu)
      ensures !predictorOn ==> lastBmu == old(lastBmu) && unchanged(this`freqs, this`trans)
      ensures row == Rows(neurons)[bmu]
      ensures Valid()
    {
      CalcDiff(input);
      bmu, row := FindBmu(input, true, true);
      d0, k := UpdateNeurons(bmu, input, true);
      row := Row(neurons, bmu);
    }

    /**
     * A training step on an input (mpfrl/SOM.py:492-507) as a unit feeding
     * its temporal SOM sees it: the activation of the input, the kernel's
     * outcome for the BMU, the first nearest neuron, and, for an RSOM, the
     * new difference matrix kept as the memory of the next step.
     */
    method Absorb(input: seq<real>) returns (bmu: nat, ghost d0: seq<seq<real>>, ghost k: KernelStep)
      requires Valid() && |input| == dim
      modifies neurons, diff, lastDiff, actVec, this`lastMeDenom, freqs, trans, this`lastBmu
      ensures Valid()
      ensures d0 == DiffRows(old(Rows(lastDiff)), input, old(Rows(neurons)))
      ensures bmu < |d0| == w * h
      ensures forall j :: 0 <= j < w * h ==> RowNorms(d0)[bmu] <= RowNorms(d0)[j]
      ensures forall j :: 0 <= j < bmu ==> RowNorms(d0)[bmu] < RowNorms(d0)[j]
      ensures actVec[..] == Activation(RowNorms(d0))
      ensures |d0[bmu]| == dim
      ensures rsom ==> Rows(lastDiff) == d0
      ensures !rsom ==> Rows(lastDiff) == old(Rows(lastDiff))
      ensures k == Step(kind, sqrt, NormSq(d0[bmu]), dim, old(lastMeDenom)) && lastMeDenom == k.meDenom
      ensures KernelOutcome(k, exp, bmu, w, d0, old(Rows(neurons)), Rows(diff), Rows(neurons))
    {
      var row;
      bmu, row, d0, k := Feed(input);
    }

    /**
     * Categorical generation (mpfrl/SOM.py:533-557): the activation vector
     * is made non-negative in place, its cumulative sums normalised by the
     * total give the bins, each of `samples` uniform draws in [0, 1) picks
     * the neuron of its bin, and one noise vector (zeros without a noise
     * source) is added to every picked weight vector. A zero total is the
     * source's ValueError. `u` are the draws, `chosen` the picked neurons
     * and `nv` the noise vector.
     */
    method Generate(act: array<real>, samples: nat)
      returns (r: Result<seq<seq<real>>>, ghost u: seq<real>, ghost chosen: seq<nat>, ghost nv: seq<real>)
      requires Valid() && act.Length == w * h
      modifies act, Noises()`magn, Noises()`magnDecrease
      ensures forall i :: 0 <= i < w * h ==> act[i] == Abs(old(act[i]))
      ensures r.Failure? <==> CumSum(act[..])[w * h - 1] == 0.0
      ensures r.Failure? && noise != null ==> unchanged(noise)
      ensures r.Success? ==> |r.value| == samples && |u| == samples && |chosen| == samples && |nv| == dim
      ensures r.Success? ==> forall j :: 0 <= j < samples ==>
        0.0 <= u[j] < 1.0 &&
        chosen[j] == Digitize(u[j], Divide(CumSum(act[..]), CumSum(act[..])[w * h - 1])) &&
        chosen[j] < w * h && 0.0 < act[chosen[j]] &&
        r.value[j] == Add(Row(neurons, chosen[j]), nv)
      ensures r.Success? && noise == null ==> nv == seq(dim, c => 0.0)
      ensures r.Success? && noise != null ==>
        (noise.magn, noise.magnDecrease) == Noise.DecayStep(old(noise.magn), old(noise.magnDecrease), noise.minMagn)
      ensures Valid()
    {
      var n := w * h;
      forall i | 0 <= i < n {
        act[i] := Abs(act[i]);
      }
      var weights := act[..];
      var cum := CumSum(weights);
      if cum[n - 1] == 0.0 {
        r, u, chosen, nv := Failure("ValueError: activation vector sums to zero"), [], [], [];
        return;
      }
      var picked;
      picked, u, chosen, nv := Pick(weights, samples);
      r := Success(picked);
    }

    /**
     * The drawing half of `generate` (mpfrl/SOM.py:554-557) on non-negative
     * weights of non-zero total: each draw `u[j]` picks the neuron
     * `chosen[j]` of its bin, and the noise vector `nv` is added to each
     * picked weight vector.
     */
    method Pick(weights: seq<real>, samples: nat)
      returns (picked: seq<seq<real>>, ghost u: seq<real>, ghost chosen: seq<nat>, ghost nv: seq<real>)
      requires Valid() && |weights| == w * h && forall k :: 0 <= k < |weights| ==> 0.0 <= weights[k]
      requires CumSum(weights)[|weights| - 1] != 0.0
      modifies Noises()`magn, Noises()`magnDecrease
      ensures Valid()
      ensures |picked| == samples && |u| == samples && |chosen| == samples && |nv| == dim
      ensures forall j :: 0 <= j < samples ==>
        0.0 <= u[j] < 1.0 &&
        chosen[j] == Digitize(u[j], Divide(CumSum(weights), CumSum(weights)[w * h - 1])) &&
        chosen[j] < w * h && 0.0 < weights[chosen[j]] &&
        picked[j] == Add(Row(neurons, chosen[j]), nv)
      ensures noise == null ==> nv == seq(dim, c => 0.0)
      ensures noise != null ==>
        (noise.magn, noise.magnDecrease) == Noise.DecayStep(old(noise.magn), old(noise.magnDecrease), noise.minMagn)
    {
      var draws, idx := DrawNeurons(weights, samples);
      var noiseVec;
      if noise != null {
        ghost var raw;
        noiseVec, raw := noise.Call();
      } else {
        noiseVec := seq(dim, c => 0.0);
      }
      var rows := Rows(neurons);
      picked := seq(samples, j requires 0 <= j < samples => Add(rows[idx[j]], noiseVec));
      u, chosen, nv := draws, idx, noiseVec;
    }

    /**
     * One sample, `generate(act, 1)[0, :]` (mpfrl/SOM.py:545-556), on an
     * activation array holding `x`: the weights of a neuron `c` of non-zero
     * weight plus the noise vector `nv`. `ax` is the array's contents
     * afterwards, the absolute values of `x`.
     */
    method Sample(x: seq<real>) returns (r: Result<seq<real>>, ghost c: nat, ghost nv: seq<real>, ax: seq<real>)
      requires Valid() && |x| == w * h
      modifies Noises()`magn, Noises()`magnDecrease
      ensures Valid()
      ensures |ax| == w * h && forall i :: 0 <= i < w * h ==> ax[i] == Abs(x[i])
      ensures r.Failure? <==> CumSum(ax)[w * h - 1] == 0.0
      ensures r.Success? ==> c < w * h && 0.0 < ax[c] && |nv| == dim && r.value == Add(Row(neurons, c), nv)
    {
      var act := new real[|x|](i requires 0 <= i < |x| => x[i]);
      var g;
      ghost var u, chosen;
      g, u, chosen, nv := Generate(act, 1);
      ax := act[..];
      c := 0;
      if g.Failure? {
        r := Failure(g.error);
      } else {
        c := chosen[0];
        r := Success(g.value[0]);
      }
    }

    /**
     * Enables the Markov predictor (mpfrl/SOM.py:270-302): zero counts,
     * identity transitions, no previous BMU.
     */
    method InitPredictor()
      requires Valid()
      modifies this`freqs, this`trans, this`lastBmu, this`predicted, this`predictorOn
      ensures Valid() && predictorOn && lastBmu == None
      ensures fresh(freqs) && fresh(trans) && fresh(predicted)
      ensures forall r, c :: 0 <= r < w * h && 0 <= c < w * h ==>
        freqs[r, c] == 0.0 && trans[r, c] == if r == c then 1.0 else 0.0
      ensures forall i :: 0 <= i < w * h ==> predicted[i] == 0.0
    {
      var n := w * h;
      freqs, trans := NewTransitionTables(n);
      predicted := new real[n](i => 0.0);
      lastBmu := None;
      predictorOn := true;
    }

    /**
     * Predictor update (mpfrl/SOM.py:350-366): the first call only records
     * the BMU; later ones count the transition from the previous BMU and
     * renormalise that one row. The BMU becomes the previous one.
     */
    method UpdateTransProbs(b: nat)
      requires Valid() && predictorOn && b < w * h
      modifies freqs, trans, this`lastBmu
      ensures PredictorOutcome(old(lastBmu), b, old(Rows(freqs)), old(Rows(trans)), Rows(freqs), Rows(trans))
      ensures lastBmu == Some(b)
      ensures Valid()
    {
      var n := w * h;
      if lastBmu.Some? {
        var p := lastBmu.value;
        ghost var f0, t0 := Rows(freqs), Rows(trans);
        CountTransition(p, b);
        RenormaliseRow(p);
        forall r | 0 <= r < n
          ensures RowRule(Row(freqs, r), Row(trans, r), r)
        {
          if r != p {
            assert Row(freqs, r) == f0[r] && Row(trans, r) == t0[r];
          }
        }
      }
      lastBmu := Some(b);
    }

    /** `freqs[p, b] += 1`. */
    method CountTransition(p: nat, b: nat)
      requires Valid() && predictorOn && p < w * h && b < w * h
      modifies freqs
      ensures Rows(freqs) == Counted(old(Rows(freqs)), p, b)
      ensures Sum(Row(freqs, p)) == old(Sum(Row(freqs, p))) + 1.0 && 1.0 <= Sum(Row(freqs, p))
      ensures forall r, c :: 0 <= r < w * h && 0 <= c < w * h ==> 0.0 <= freqs[r, c]
    {
      ghost var f0 := Rows(freqs);
      freqs[p, b] := freqs[p, b] + 1.0;
      RowsEqual(freqs, Counted(f0, p, b));
      CountedRowTotal(f0, p, b);
      SumNonNegative(f0[p]);
    }

    /** `trans[p, :] = freqs[p, :] / sum(freqs[p, :])` for a row with counts. */
    method RenormaliseRow(p: nat)
      requires freqs != null && trans != null && freqs != trans && p < w * h
      requires freqs.Length0 == w * h && freqs.Length1 == w * h && trans.Length0 == w * h && trans.Length1 == w * h
      requires Sum(Row(freqs, p)) != 0.0
      modifies trans
      ensures Rows(trans) == Renormalised(old(Rows(trans)), Rows(freqs), p)
    {
      ghost var t0 := Rows(trans);
      var total := Sum(Row(freqs, p));
      forall c | 0 <= c < w * h {
        trans[p, c] := freqs[p, c] / total;
      }
      assert Row(trans, p) == Divide(Row(freqs, p), total);
      RowsUnchanged(trans, t0, p);
      RowsEqual(trans, Renormalised(t0, Rows(freqs), p));
    }

    /**
     * Next-step activation prediction (mpfrl/SOM.py:509-520): the current
     * activation vector times the transition matrix. Without the predictor
     * the source fails on the missing attributes.
     */
    method PredictNext() returns (r: Result<seq<real>>)
      requires Valid()
      modifies predicted
      ensures Valid()
      ensures !predictorOn ==> r.Failure?
      ensures !predictorOn && predicted != null ==> unchanged(predicted)
      ensures unchanged(neurons, diff, actVec)
      ensures predictorOn ==> r == Success(predicted[..]) && predicted[..] == VecMat(actVec[..], Rows(trans), w * h)
    {
      if !predictorOn {
        return Failure("AttributeError: predictor not initialised");
      }
      var p := VecMat(actVec[..], Rows(trans), w * h);
      forall i | 0 <= i < w * h {
        predicted[i] := p[i];
      }
      assert predicted[..] == p;
      assert actVec[..] == old(actVec[..]);
      assert Rows(trans) == old(Rows(trans));
      r := Success(predicted[..]);
    }

    /** The prediction carries the activation vector's total mass over unchanged. */
    lemma PredictionKeepsTotal()
      requires Valid() && predictorOn
      ensures Sum(VecMat(actVec[..], Rows(trans), w * h)) == Sum(actVec[..])
    {
      forall r | 0 <= r < w * h
        ensures Sum(Rows(trans)[r]) == 1.0
      {
        TransitionRowsSumToOne(r);
      }
      VecMatPreservesSum(actVec[..], Rows(trans), w * h);
    }
  }
}
