/*
 * The MPF hierarchy (mpfrl/hierarchy.py): the container that splits the
 * input vector among the bottom-level units, builds the levels above them
 * by pairing units, runs one forward and one backward pass per step and
 * merges the bottom units' outputs into the prediction of the next input.
 */
module Hierarchy {
  import opened Common
  import SOM
  import opened Units

  /** Lattice shapes of the intermediate units and of the top unit (mpfrl/hierarchy.py:222, 230). */
  const INNER_SS: (nat, nat) := (3, 3)
  const INNER_TS: (nat, nat) := (4, 4)
  const TOP_SS: (nat, nat) := (20, 20)
  const TOP_TS: (nat, nat) := (10, 10)

  // ---------------------------------------------------------------------
  // Input ranges of the bottom units
  // ---------------------------------------------------------------------

  /** The input dimension of each unit: the width of its spatial SOM's neurons. */
  function Dims(us: seq<Unit>): (d: seq<nat>)
    ensures |d| == |us| && forall i :: 0 <= i < |us| ==> d[i] == us[i].ss.dim
  {
    seq(|us|, i requires 0 <= i < |us| => us[i].ss.dim)
  }

  lemma DimsPrefix(us: seq<Unit>, i: nat)
    requires i < |us|
    ensures Dims(us[..i + 1]) == Dims(us[..i]) + [us[i].ss.dim]
  {
  }

  /** Each range lies inside [0, total). */
  lemma RangeWithin(widths: seq<nat>, i: nat)
    requires i < |widths|
    ensures Ranges(widths)[i].0 + widths[i] == Ranges(widths)[i].1 <= SumNat(widths)
  {
    RangesContiguous(widths);
    RangesMonotone(widths);
  }

  /**
   * The bottom units' ranges of the input (mpfrl/hierarchy.py:58-66): each
   * unit's range starts where the previous one's ends, and `total` is where
   * the last one ends.
   */
  method InputRanges(l0: seq<Unit>) returns (ranges: seq<(nat, nat)>, total: nat)
    ensures ranges == Ranges(Dims(l0)) && total == SumNat(Dims(l0))
  {
    ranges := [];
    total := 0;
    var i := 0;
    while i < |l0|
      invariant 0 <= i <= |l0|
      invariant ranges == Ranges(Dims(l0[..i])) && total == SumNat(Dims(l0[..i]))
    {
      var d := l0[i].ss.dim;
      ghost var ws := Dims(l0[..i]);
      DimsPrefix(l0, i);
      RangesAppend(ws, d);
      RangesContiguous(ws);
      assert NextRange(Ranges(ws), d) == (total, total + d);
      assert (ws + [d])[..|ws|] == ws;
      assert SumNat(ws + [d]) == total + d;
      ranges := ranges + [(total, total + d)];
      total := total + d;
      i := i + 1;
    }
    assert l0[..i] == l0;
  }

  /**
   * The functions the units' SOMs are built with: the likelihood keeps the
   * length of its argument, `sqrt` is non-negative on non-negative
   * arguments and `exp` is positive.
   */
  datatype Kernels = Kernels(likelihood: seq<real> -> seq<real>, exp: real -> real, sqrt: real -> real)
  {
    ghost predicate Valid()
    {
      (forall v :: |likelihood(v)| == |v|) && (forall x :: 0.0 <= x ==> 0.0 <= sqrt(x)) && (forall y :: 0.0 < exp(y))
    }
  }

  // ---------------------------------------------------------------------
  // Grouping of one level into the next
  // ---------------------------------------------------------------------

  /**
   * The child index ranges the units of an intermediate level take from the
   * `n` units below (mpfrl/hierarchy.py:209-217): unit `i` takes `[2i, 2i+2)`,
   * except that the last one also takes what is left up to `n`.
   */
  function Groups(n: nat): (g: seq<(nat, nat)>)
    ensures |g| == n / 2 && forall i :: 0 <= i < |g| ==> g[i].0 < g[i].1 <= n
  {
    seq(n / 2, i requires 0 <= i < n / 2 => (2 * i, if i == n / 2 - 1 && 2 * i + 2 < n then n else 2 * i + 2))
  }

  /**
   * The groups tile [0, n) when there are at least two units: the first
   * starts at 0, each later one where the previous one ends, the last ends
   * at `n`; every group has two units except the last, which has two or
   * three. With fewer than two units the level is empty.
   */
  lemma GroupsTile(n: nat)
    ensures n < 2 <==> Groups(n) == []
    ensures n >= 2 ==> Groups(n)[0].0 == 0 && Groups(n)[n / 2 - 1].1 == n
    ensures forall i :: 0 < i < n / 2 ==> Groups(n)[i].0 == Groups(n)[i - 1].1
    ensures forall i :: 0 <= i < n / 2 - 1 ==> Groups(n)[i].1 == Groups(n)[i].0 + 2
    ensures n >= 2 ==> Groups(n)[n / 2 - 1].1 == Groups(n)[n / 2 - 1].0 + 2 + n % 2
  {
  }

  /** Every unit of a level of at least two lands in exactly one group. */
  lemma GroupOf(n: nat, k: nat)
    requires 2 <= n && k < n
    ensures var j := Min2Nat(k / 2, n / 2 - 1); j < n / 2 && Groups(n)[j].0 <= k < Groups(n)[j].1
    ensures forall j :: 0 <= j < n / 2 && Groups(n)[j].0 <= k < Groups(n)[j].1 ==> j == Min2Nat(k / 2, n / 2 - 1)
  {
  }

  function Min2Nat(a: nat, b: nat): (m: nat)
    ensures m <= a && m <= b && (m == a || m == b)
  {
    if a < b then a else b
  }

  /** The number of units `k` levels above `n` bottom units. */
  function LevelSize(n: nat, k: nat): nat
  {
    if k == 0 then n else LevelSize(n, k - 1) / 2
  }

  /** Objects of a sequence of units, as a set (for frames). */
  ghost function Members(us: seq<Unit>): set<Unit>
  {
    set u | u in us
  }

  lemma MembersAppend(a: seq<Unit>, b: seq<Unit>)
    ensures Members(a + b) == Members(a) + Members(b)
  {
  }

  /** Units of a tree, each at most once, all of rank below `level`. */
  ghost predicate Candidates(us: seq<Unit>, world: set<Unit>, level: nat)
  {
    (forall i :: 0 <= i < |us| ==> us[i] in world && us[i].rank < level) &&
    (forall i, j :: 0 <= i < j < |us| ==> us[i] != us[j])
  }

  /** Candidates with no parent yet. */
  ghost predicate Orphans(us: seq<Unit>, world: set<Unit>, level: nat)
    reads Members(us)`parent
  {
    Candidates(us, world, level) && forall i :: 0 <= i < |us| ==> us[i].parent == null
  }

  lemma SumNatPrefix(ws: seq<nat>, j: nat)
    requires j <= |ws|
    ensures SumNat(ws[..j]) <= SumNat(ws)
    decreases |ws|
  {
    if j < |ws| {
      assert ws[..|ws| - 1][..j] == ws[..j];
      SumNatPrefix(ws[..|ws| - 1], j);
    } else {
      assert ws[..j] == ws;
    }
  }

  lemma SumNatAtLeast(ws: seq<nat>, j: nat)
    requires j < |ws|
    ensures ws[j] <= SumNat(ws)
  {
    SumNatPrefix(ws, j + 1);
    assert ws[..j + 1][..j] == ws[..j];
  }

  lemma PrefixStep<T>(s: seq<T>, j: nat)
    requires j < |s|
    ensures s[..j] + [s[j]] == s[..j + 1]
  {
  }

  lemma WidthsPrefix(cs: seq<Unit>, j: nat)
    requires j < |cs|
    ensures Widths(cs[..j + 1]) == Widths(cs)[..j + 1]
  {
  }

  /**
   * `_add_unit` (mpfrl/hierarchy.py:170-196): a new internal unit of the
   * given level and lattice shapes whose input is as wide as its children's
   * temporal SOMs together, adopting the children in order. It joins the
   * tree with the children as its subtrees.
   */
  method AddUnit(children: seq<Unit>, ssShape: (nat, nat), tsShape: (nat, nat), level: nat,
                 ssKind: SOM.SomKind, tsKind: SOM.SomKind, fns: Kernels,
                 ghost world: set<Unit>, ghost top: nat)
    returns (p: Unit)
    requires Tree(world, top) && 0 < |children| && level <= top && Orphans(children, world, level)
    requires ssShape.0 > 0 && ssShape.1 > 0 && tsShape.0 > 0 && tsShape.1 > 0
    requires fns.Valid()
    modifies Members(children)`parent, Members(children)`lo, Members(children)`hi
    ensures fresh(p) && fresh(p.Repr) && Tree(world + {p}, top)
    ensures p.children == children && p.parent == null && p.rank == level
    ensures p.unitType == INTERNAL && p.level == Some(level) && p.hasTs
    ensures p.ss.dim == SumNat(Widths(children)) && p.ss.kind == ssKind && p.ts.kind == tsKind
    ensures p.ss.w == ssShape.0 && p.ss.h == ssShape.1 && p.ts.w == tsShape.0 && p.ts.h == tsShape.1
    ensures forall i :: 0 <= i < |children| ==> children[i].parent == p
  {
    WidthsPositive(children, world, top);
    p := NewInternal(SumNat(Widths(children)), ssShape, tsShape, level, ssKind, tsKind, fns, world, top);
    AdoptAll(p, children, world + {p}, top);
  }

  /**
   * The unit `_add_unit` creates (mpfrl/hierarchy.py:171-189), before it
   * adopts its children: an internal unit of the given level with a
   * temporal SOM, joining the tree on its own.
   */
  method NewInternal(inputDim: nat, ssShape: (nat, nat), tsShape: (nat, nat), level: nat,
                     ssKind: SOM.SomKind, tsKind: SOM.SomKind, fns: Kernels,
                     ghost world: set<Unit>, ghost top: nat)
    returns (p: Unit)
    requires Tree(world, top) && 0 < inputDim && level <= top
    requires ssShape.0 > 0 && ssShape.1 > 0 && tsShape.0 > 0 && tsShape.1 > 0
    requires fns.Valid()
    ensures fresh(p) && fresh(p.Repr) && Tree(world + {p}, top)
    ensures p.children == [] && p.parent == null && p.rank == level
    ensures p.unitType == INTERNAL && p.level == Some(level) && p.hasTs
    ensures p.ss.dim == inputDim && p.ss.kind == ssKind && p.ts.kind == tsKind
    ensures p.ss.w == ssShape.0 && p.ss.h == ssShape.1 && p.ts.w == tsShape.0 && p.ts.h == tsShape.1
  {
    p := new Unit(ssKind, Some(tsKind), inputDim, ssShape.0, ssShape.1, tsShape.0, tsShape.1,
                  INTERNAL, Some(level), fns.likelihood, fns.exp, fns.sqrt, level);
    Enlist(world, top, p);
  }

  /** The children's temporal SOMs give a parent a non-empty input. */
  lemma WidthsPositive(children: seq<Unit>, world: set<Unit>, top: nat)
    requires Tree(world, top) && 0 < |children| && children[0] in world
    ensures 0 < SumNat(Widths(children))
  {
    assert children[0].Valid();
    assert Widths(children)[0] == children[0].ts.w * children[0].ts.h > 0;
    SumNatAtLeast(Widths(children), 0);
  }

  /** `new_unit.add_child(child_unit)` for each child in order (mpfrl/hierarchy.py:191-192). */
  method AdoptAll(p: Unit, children: seq<Unit>, ghost world: set<Unit>, ghost top: nat)
    requires Tree(world, top) && p in world && p.children == [] && Orphans(children, world, p.rank)
    requires SumNat(Widths(children)) <= p.ss.dim
    modifies p`children, p`childInputsNum, Members(children)`parent, Members(children)`lo, Members(children)`hi
    ensures Tree(world, top) && p.children == children
    ensures forall i :: 0 <= i < |children| ==> children[i].parent == p
  {
    var j := 0;
    while j < |children|
      invariant j <= |children| && Adopting(p, children, j, world, top)
    {
      AdoptNext(p, children, j, world, top);
      j := j + 1;
    }
    assert children[..j] == children;
  }

  /** After the first `j` children are adopted: a tree, and the rest still parentless. */
  ghost predicate Adopting(p: Unit, children: seq<Unit>, j: nat, world: set<Unit>, top: nat)
    reads world, Parts(world), Members(children)`parent, p`children
  {
    j <= |children| && Tree(world, top) && p.children == children[..j] &&
    (forall i :: 0 <= i < j ==> children[i].parent == p) &&
    (forall i :: j <= i < |children| ==> children[i].parent == null)
  }

  /** The child after the first `j` is adopted. */
  method AdoptNext(p: Unit, children: seq<Unit>, j: nat, ghost world: set<Unit>, ghost top: nat)
    requires j < |children| && Adopting(p, children, j, world, top) && p in world && Candidates(children, world, p.rank)
    requires SumNat(Widths(children)) <= p.ss.dim
    modifies p`children, p`childInputsNum, Members(children)`parent, Members(children)`lo, Members(children)`hi
    ensures Adopting(p, children, j + 1, world, top)
  {
    WidthsPrefix(children, j);
    SumNatPrefix(Widths(children), j + 1);
    PrefixStep(children, j);
    p.Adopt(children[j], world, top);
  }

  /**
   * The units `above` form the level over `below`: unit `i` has the `i`-th
   * group of `below` as its children, the given level and lattice shapes,
   * and an input as wide as its children's temporal SOMs together.
   */
  ghost predicate LevelBuilt(below: seq<Unit>, above: seq<Unit>, level: nat, ssShape: (nat, nat), tsShape: (nat, nat),
                             ssKind: SOM.SomKind, tsKind: SOM.SomKind)
    reads Members(above)`children
  {
    |above| == |below| / 2 && Grouped(below, above, level, ssShape, tsShape, ssKind, tsKind)
  }

  /** The first `|above|` units of the level over `below`, as LevelBuilt describes them. */
  ghost predicate Grouped(below: seq<Unit>, above: seq<Unit>, level: nat, ssShape: (nat, nat), tsShape: (nat, nat),
                          ssKind: SOM.SomKind, tsKind: SOM.SomKind)
    reads Members(above)`children
  {
    |above| <= |below| / 2 &&
    forall i :: 0 <= i < |above| ==> Placed(below, above, i, level, ssShape, tsShape, ssKind, tsKind)
  }

  /** Unit `i` of the level over `below` has the `i`-th group as its children and is made for the level. */
  ghost predicate Placed(below: seq<Unit>, above: seq<Unit>, i: nat, level: nat, ssShape: (nat, nat), tsShape: (nat, nat),
                         ssKind: SOM.SomKind, tsKind: SOM.SomKind)
    requires i < |above| <= |below| / 2
    reads Members(above)`children
  {
    above[i].children == below[Groups(|below|)[i].0..Groups(|below|)[i].1] &&
    Made(above[i], level, ssShape, tsShape, ssKind, tsKind)
  }

  /** The units of a grouped level all have the level's rank. */
  lemma GroupedRanks(below: seq<Unit>, above: seq<Unit>, level: nat, ssShape: (nat, nat), tsShape: (nat, nat),
                     ssKind: SOM.SomKind, tsKind: SOM.SomKind)
    requires Grouped(below, above, level, ssShape, tsShape, ssKind, tsKind)
    ensures forall k :: 0 <= k < |above| ==> above[k].rank == level
  {
    forall k | 0 <= k < |above|
      ensures above[k].rank == level
    {
      assert Placed(below, above, k, level, ssShape, tsShape, ssKind, tsKind);
    }
  }

  /** A unit `_add_unit` made for the given level, shapes and SOM kinds. */
  ghost predicate Made(u: Unit, level: nat, ssShape: (nat, nat), tsShape: (nat, nat), ssKind: SOM.SomKind, tsKind: SOM.SomKind)
    reads u`children
  {
    u.rank == level && u.unitType == INTERNAL && u.level == Some(level) && u.hasTs &&
    u.ss.dim == SumNat(Widths(u.children)) && u.ss.kind == ssKind && u.ts.kind == tsKind &&
    u.ss.w == ssShape.0 && u.ss.h == ssShape.1 && u.ts.w == tsShape.0 && u.ts.h == tsShape.1
  }

  /**
   * While building the level over `lk`: the first `|next|` units of the new
   * level are built, are new to the tree, have no parent yet and are
   * distinct, and the units of `lk` not grouped yet still have no parent.
   */
  ghost predicate Building(lk: seq<Unit>, next: seq<Unit>, level: nat, start: set<Unit>, world: set<Unit>, top: nat,
                           ssKind: SOM.SomKind, tsKind: SOM.SomKind)
    reads world, Parts(world), Members(lk)`parent, Members(next)`parent, Members(next)`children
  {
    Tree(world, top) && Progress(lk, next, level, start, world, ssKind, tsKind)
  }

  /** The part of Building about the level alone, not the tree. */
  ghost predicate Progress(lk: seq<Unit>, next: seq<Unit>, level: nat, start: set<Unit>, world: set<Unit>,
                           ssKind: SOM.SomKind, tsKind: SOM.SomKind)
    reads Members(lk)`parent, Members(next)`parent, Members(next)`children
  {
    world == start + Members(next) &&
    Candidates(next, world, level + 1) && (forall k :: 0 <= k < |next| ==> next[k] !in start && next[k].parent == null) &&
    Grouped(lk, next, level, INNER_SS, INNER_TS, ssKind, tsKind) &&
    (forall k :: 2 * |next| <= k < |lk| && |next| < |lk| / 2 ==> lk[k].parent == null)
  }

  /**
   * One pass of the loop over a level (mpfrl/hierarchy.py:212-225): the
   * next unit of the level is made over the units `lk[first..last]`.
   */
  method BuildStep(lk: seq<Unit>, next: seq<Unit>, first: nat, last: nat, level: nat,
                   ssKind: SOM.SomKind, tsKind: SOM.SomKind, fns: Kernels,
                   ghost start: set<Unit>, ghost world: set<Unit>, ghost top: nat)
    returns (p: Unit, ghost world': set<Unit>)
    requires Building(lk, next, level, start, world, top, ssKind, tsKind) && Candidates(lk, start, level)
    requires |next| < |lk| / 2 && (first, last) == Groups(|lk|)[|next|] && level <= top
    requires fns.Valid()
    modifies Members(lk)`parent, Members(lk)`lo, Members(lk)`hi
    ensures Building(lk, next + [p], level, start, world', top, ssKind, tsKind)
    ensures p.children == lk[first..last] && fresh(p)
  {
    var children := lk[first..last];
    SliceOrphans(lk, first, last, start, world, level);
    GroupedRanks(lk, next, level, INNER_SS, INNER_TS, ssKind, tsKind);
    RanksApart(lk, next, first, last, start, world, level);
    p := AddUnit(children, INNER_SS, INNER_TS, level, ssKind, tsKind, fns, world, top);
    world' := world + {p};
    ExtendBuilding(lk, next, p, first, last, level, start, world, ssKind, tsKind);
  }

  /** A slice of parentless candidates, in a larger world, is a slice of orphans. */
  lemma SliceOrphans(lk: seq<Unit>, first: nat, last: nat, start: set<Unit>, world: set<Unit>, level: nat)
    requires Candidates(lk, start, level) && start <= world && first <= last <= |lk|
    requires forall k :: first <= k < |lk| ==> lk[k].parent == null
    ensures Orphans(lk[first..last], world, level)
  {
  }

  /**
   * The units being grouped, which rank below the level, are none of the
   * units already built on it, nor those not grouped yet.
   */
  lemma RanksApart(lk: seq<Unit>, next: seq<Unit>, first: nat, last: nat, start: set<Unit>, world: set<Unit>, level: nat)
    requires Candidates(lk, start, level) && first <= last <= |lk|
    requires forall k :: 0 <= k < |next| ==> next[k].rank == level
    ensures Members(next) !! Members(lk)
    ensures forall k :: last <= k < |lk| ==> lk[k] !in Members(lk[first..last])
  {
    forall k | last <= k < |lk|
      ensures lk[k] !in Members(lk[first..last])
    {
      assert forall j :: first <= j < last ==> lk[j] != lk[k];
    }
  }

  /** Building one more unit of the level keeps the loop's invariant. */
  lemma ExtendBuilding(lk: seq<Unit>, next: seq<Unit>, p: Unit, first: nat, last: nat, level: nat,
                       start: set<Unit>, world: set<Unit>, ssKind: SOM.SomKind, tsKind: SOM.SomKind)
    requires world == start + Members(next) && p !in world
    requires Candidates(next, world, level + 1) && (forall k :: 0 <= k < |next| ==> next[k] !in start && next[k].parent == null)
    requires Grouped(lk, next, level, INNER_SS, INNER_TS, ssKind, tsKind)
    requires |next| < |lk| / 2 && (first, last) == Groups(|lk|)[|next|]
    requires p.children == lk[first..last] && p.parent == null && Made(p, level, INNER_SS, INNER_TS, ssKind, tsKind)
    requires forall k :: last <= k < |lk| ==> lk[k].parent == null
    ensures Progress(lk, next + [p], level, start, world + {p}, ssKind, tsKind)
  {
    assert Members(next + [p]) == Members(next) + {p};
    var above := next + [p];
    forall i | 0 <= i < |above|
      ensures Placed(lk, above, i, level, INNER_SS, INNER_TS, ssKind, tsKind)
    {
      if i < |next| {
        assert Placed(lk, next, i, level, INNER_SS, INNER_TS, ssKind, tsKind);
      }
    }
  }

  /**
   * One intermediate level (mpfrl/hierarchy.py:209-227): `floor(n/2)`
   * units over the `n` units of `lk`, unit `i` over the `i`-th group.
   */
  method BuildLevel(lk: seq<Unit>, level: nat, ssKind: SOM.SomKind, tsKind: SOM.SomKind, fns: Kernels,
                    ghost world: set<Unit>, ghost top: nat)
    returns (next: seq<Unit>, ghost world': set<Unit>)
    requires Tree(world, top) && level <= top && Orphans(lk, world, level)
    requires fns.Valid()
    modifies Members(lk)`parent, Members(lk)`lo, Members(lk)`hi
    ensures Tree(world', top) && world' == world + Members(next)
    ensures Orphans(next, world', level + 1) && forall k :: 0 <= k < |next| ==> next[k] !in world
    ensures |next| == |lk| / 2 && LevelBuilt(lk, next, level, INNER_SS, INNER_TS, ssKind, tsKind)
    ensures fresh(Members(next))
  {
    var num := |lk| / 2;
    next := [];
    world' := world;
    var i := 0;
    while i < num
      invariant i <= num && |next| == i
      invariant Building(lk, next, level, world, world', top, ssKind, tsKind)
      invariant forall k :: 0 <= k < |next| ==> fresh(next[k])
    {
      var first := i * 2;
      var last := (i + 1) * 2;
      if i == num - 1 && last < |lk| {
        last := |lk|;
      }
      var p;
      p, world' := BuildStep(lk, next, first, last, level, ssKind, tsKind, fns, world, world', top);
      next := next + [p];
      i := i + 1;
    }
  }

  /** Units of consecutive levels, lowest first, one after the other. */
  function Flatten(ls: seq<seq<Unit>>): (us: seq<Unit>)
  {
    if ls == [] then [] else Flatten(ls[..|ls| - 1]) + ls[|ls| - 1]
  }

  /** The functions of the spatial SOM of a unit of a tree meet what new units need of them. */
  lemma KernelsOf(u: Unit, world: set<Unit>, top: nat)
    requires Tree(world, top) && u in world
    ensures Kernels(u.ss.likelihood, u.ss.exp, u.ss.sqrt).Valid()
  {
    assert u.Valid();
  }

  /** `_check_should_dump` (mpfrl/hierarchy.py:114-117) at time `t`. */
  function DumpDue(period: int, t: nat): bool
  {
    period > 0 && t % period == 0
  }

  /**
   * With a positive period the hierarchy dumps at time 0, then exactly once
   * every `period` steps; with no positive period it never dumps.
   */
  lemma DumpEveryPeriod(period: int, k: nat, j: nat)
    ensures period <= 0 ==> !DumpDue(period, k)
    ensures 0 < period && j < period ==> (DumpDue(period, k * period + j) <==> j == 0)
  {
    if 0 < period && j < period {
      ModMultiple(period, k, j);
    }
  }

  /** The remainder of `k * period + j` is `j`, for `j` below the period. */
  lemma ModMultiple(period: nat, k: nat, j: nat)
    requires 0 < period && j < period
    ensures (k * period + j) % period == j
  {
    var x := k * period + j;
    var q, r := x / period, x % period;
    assert x == q * period + r;
    if q < k {
      assert (k - q) * period == k * period - q * period;
      MulAtLeast(k - q, period);
    } else if k < q {
      assert (q - k) * period == q * period - k * period;
      MulAtLeast(q - k, period);
    }
  }

  /** The units of all the given levels. */
  ghost function LevelUnits(levels: seq<seq<Unit>>): set<Unit>
  {
    set k, u | 0 <= k < |levels| && u in levels[k] :: u
  }

  /** Each level above the first is the level `LevelBuilt` makes over the one below it. */
  ghost predicate Stacked(levels: seq<seq<Unit>>, n: nat, ssKind: SOM.SomKind, tsKind: SOM.SomKind)
    reads LevelUnits(levels)`children
    decreases |levels|
  {
    |levels| <= 1 ||
    (LevelUnitsPrefix(levels);
     Stacked(levels[..|levels| - 1], n, ssKind, tsKind) &&
     |levels[|levels| - 1]| == LevelSize(n, |levels| - 1) &&
     LevelBuilt(levels[|levels| - 2], levels[|levels| - 1], |levels| - 1, INNER_SS, INNER_TS, ssKind, tsKind))
  }

  lemma LevelUnitsPrefix(levels: seq<seq<Unit>>)
    requires 0 < |levels|
    ensures LevelUnits(levels[..|levels| - 1]) <= LevelUnits(levels)
    ensures Members(levels[|levels| - 1]) <= LevelUnits(levels)
  {
  }

  /** In stacked levels, level `k` is the level built over level `k - 1`, of `LevelSize(n, k)` units. */
  lemma {:induction false} StackedAt(levels: seq<seq<Unit>>, n: nat, ssKind: SOM.SomKind, tsKind: SOM.SomKind, k: nat)
    requires Stacked(levels, n, ssKind, tsKind) && 0 < k < |levels|
    ensures |levels[k]| == LevelSize(n, k)
    ensures LevelBuilt(levels[k - 1], levels[k], k, INNER_SS, INNER_TS, ssKind, tsKind)
    decreases |levels|
  {
    if k < |levels| - 1 {
      var p := levels[..|levels| - 1];
      StackedAt(p, n, ssKind, tsKind, k);
      assert p[k] == levels[k] && p[k - 1] == levels[k - 1];
    }
  }

  lemma StackedGrow(levels: seq<seq<Unit>>, lk: seq<Unit>, next: seq<Unit>, level: nat, n: nat,
                    ssKind: SOM.SomKind, tsKind: SOM.SomKind)
    requires Stacked(levels, n, ssKind, tsKind) && |levels| == level && 0 < level && levels[level - 1] == lk
    requires |next| == LevelSize(n, level) && LevelBuilt(lk, next, level, INNER_SS, INNER_TS, ssKind, tsKind)
    ensures Stacked(levels + [next], n, ssKind, tsKind)
  {
    assert (levels + [next])[..|levels|] == levels;
  }

  lemma FlattenStep(levels: seq<seq<Unit>>, next: seq<Unit>)
    requires 0 < |levels|
    ensures Flatten((levels + [next])[1..]) == Flatten(levels[1..]) + next
  {
    var x := (levels + [next])[1..];
    assert x == levels[1..] + [next];
    assert x[..|x| - 1] == levels[1..];
  }

  /**
   * The loop of `__construct_hierarchy` over the intermediate levels
   * (mpfrl/hierarchy.py:206-227): starting from the bottom units, each of
   * the `levels_num - 2` levels groups the one below it. `levels` are the
   * bottom level and the levels built, `lk` the highest of them and `built`
   * the units made, in order.
   */
  method BuildLevels(l0: seq<Unit>, levelsNum: nat, ssKind: SOM.SomKind, tsKind: SOM.SomKind, fns: Kernels,
                     ghost world0: set<Unit>)
    returns (lk: seq<Unit>, built: seq<Unit>, ghost world: set<Unit>, ghost levels: seq<seq<Unit>>)
    requires 2 <= levelsNum && Tree(world0, levelsNum - 1) && Orphans(l0, world0, 1) && fns.Valid()
    modifies Members(l0)`parent, Members(l0)`lo, Members(l0)`hi
    ensures Rung(l0, lk, levelsNum - 2, levels, built, world0, world, levelsNum - 1, ssKind, tsKind)
    ensures (levelsNum == 2 ==> lk == l0) && (2 < levelsNum ==> fresh(Members(lk)))
  {
    lk, built, world, levels := l0, [], world0, [l0];
    var levelId := 0;
    while levelId < levelsNum - 2
      invariant levelId <= levelsNum - 2
      invariant Rung(l0, lk, levelId, levels, built, world0, world, levelsNum - 1, ssKind, tsKind)
      invariant (levelId == 0 ==> lk == l0) && (0 < levelId ==> fresh(Members(lk)))
    {
      var next;
      ghost var w';
      next, w' := Climb(l0, lk, levelId, levels, built, ssKind, tsKind, fns, world0, world, levelsNum - 1);
      built := built + next;
      levels := levels + [next];
      world := w';
      lk := next;
      levelId := levelId + 1;
    }
  }

  /**
   * After `levelId` passes of the loop over the levels: `levels` are the
   * bottom level `l0` and the levels built so far, each grouping the one
   * below it, `lk` the highest of them, and `world` the starting tree with
   * the units built so far, `built`, in order; the highest level has no
   * parents yet.
   */
  ghost predicate Rung(l0: seq<Unit>, lk: seq<Unit>, levelId: nat, levels: seq<seq<Unit>>, built: seq<Unit>,
                       world0: set<Unit>, world: set<Unit>, top: nat, ssKind: SOM.SomKind, tsKind: SOM.SomKind)
    reads world, Parts(world), LevelUnits(levels)`children, Members(lk)`parent
  {
    |levels| == levelId + 1 && levels[0] == l0 && levels[levelId] == lk &&
    |lk| == LevelSize(|l0|, levelId) &&
    Tree(world, top) && Orphans(lk, world, levelId + 1) &&
    world0 <= world && built == Flatten(levels[1..]) && world == world0 + Members(built) &&
    Stacked(levels, |l0|, ssKind, tsKind)
  }

  /** One pass of the loop over the levels (mpfrl/hierarchy.py:207-227). */
  method Climb(l0: seq<Unit>, lk: seq<Unit>, levelId: nat, ghost levels: seq<seq<Unit>>, built: seq<Unit>,
               ssKind: SOM.SomKind, tsKind: SOM.SomKind, fns: Kernels,
               ghost world0: set<Unit>, ghost world: set<Unit>, ghost top: nat)
    returns (next: seq<Unit>, ghost world': set<Unit>)
    requires levelId + 1 <= top && fns.Valid()
    requires Rung(l0, lk, levelId, levels, built, world0, world, top, ssKind, tsKind)
    modifies Members(lk)`parent, Members(lk)`lo, Members(lk)`hi
    ensures Rung(l0, next, levelId + 1, levels + [next], built + next, world0, world', top, ssKind, tsKind)
    ensures fresh(Members(next))
  {
    next, world' := BuildLevel(lk, levelId + 1, ssKind, tsKind, fns, world, top);
    FlattenStep(levels, next);
    assert forall u :: u in LevelUnits(levels) ==> u.children == old(u.children);
    StackedGrow(levels, lk, next, levelId + 1, |l0|, ssKind, tsKind);
    MembersAppend(built, next);
  }

  /**
   * `__construct_hierarchy` (mpfrl/hierarchy.py:162-230): the intermediate
   * levels over the bottom units `l0`, then the top unit over the highest of
   * them. `units` are the units made, lowest level first and the top unit
   * last.
   */
  method Construct(l0: seq<Unit>, levelsNum: nat, ssKind: SOM.SomKind, tsKind: SOM.SomKind, fns: Kernels,
                   ghost world0: set<Unit>)
    returns (units: seq<Unit>, topUnit: Unit, ghost world: set<Unit>, ghost levels: seq<seq<Unit>>)
    requires 2 <= levelsNum && 0 < LevelSize(|l0|, levelsNum - 2)
    requires Tree(world0, levelsNum - 1) && Orphans(l0, world0, 1) && fns.Valid()
    modifies Members(l0)`parent, Members(l0)`lo, Members(l0)`hi
    ensures Tree(world, levelsNum - 1) && topUnit in world && world0 <= world
    ensures |levels| == levelsNum - 1 && levels[0] == l0 && Stacked(levels, |l0|, ssKind, tsKind)
    ensures topUnit.children == levels[|levels| - 1] && topUnit.parent == null
    ensures Made(topUnit, levelsNum - 1, TOP_SS, TOP_TS, ssKind, tsKind)
    ensures units == Flatten(levels[1..]) + [topUnit] && world == world0 + Members(units)
  {
    var lk, built;
    ghost var w;
    lk, built, w, levels := BuildLevels(l0, levelsNum, ssKind, tsKind, fns, world0);
    units, topUnit, world := Crown(l0, lk, levels, built, ssKind, tsKind, fns, world0, w, levelsNum - 1);
  }

  /** The top unit over the highest intermediate level (mpfrl/hierarchy.py:230). */
  method Crown(l0: seq<Unit>, lk: seq<Unit>, ghost levels: seq<seq<Unit>>, built: seq<Unit>,
               ssKind: SOM.SomKind, tsKind: SOM.SomKind, fns: Kernels,
               ghost world0: set<Unit>, ghost world: set<Unit>, top: nat)
    returns (units: seq<Unit>, topUnit: Unit, ghost world': set<Unit>)
    requires 0 < top && 0 < LevelSize(|l0|, top - 1) && fns.Valid()
    requires Rung(l0, lk, top - 1, levels, built, world0, world, top, ssKind, tsKind)
    modifies Members(lk)`parent, Members(lk)`lo, Members(lk)`hi
    ensures Tree(world', top) && topUnit in world' && world0 <= world'
    ensures |levels| == top && levels[0] == l0 && Stacked(levels, |l0|, ssKind, tsKind)
    ensures topUnit.children == levels[|levels| - 1] && topUnit.parent == null
    ensures Made(topUnit, top, TOP_SS, TOP_TS, ssKind, tsKind)
    ensures units == Flatten(levels[1..]) + [topUnit] && world' == world0 + Members(units)
  {
    label levelsBuilt:
    topUnit := AddUnit(lk, TOP_SS, TOP_TS, top, ssKind, tsKind, fns, world, top);
    assert forall u :: u in LevelUnits(levels) ==> u.children == old@levelsBuilt(u.children);
    assert Members(built + [topUnit]) == Members(built) + {topUnit};
    units := built + [topUnit];
    world' := world + {topUnit};
  }

  /** Units at or above any rank, and their objects, are units and objects of the tree. */
  lemma AboveAll(world: set<Unit>, r: nat)
    ensures Above(world, r) <= world && Parts(Above(world, r)) <= Parts(world)
  {
  }

  /** Units at or below any rank, and their objects, are units and objects of the tree. */
  lemma BelowAll(world: set<Unit>, r: nat)
    ensures Below(world, r) <= world && Parts(Below(world, r)) <= Parts(world)
  {
  }

  /** Splicing at `at` leaves every slice that ends by `at` as it was. */
  lemma SpliceKeepsBefore(v: seq<real>, at: nat, part: seq<real>, a: nat, b: nat)
    requires at + |part| <= |v| && a <= b <= at
    ensures Splice(v, at, part)[a..b] == v[a..b]
  {
    var s := Splice(v, at, part);
    assert s[..at] == v[..at];
    assert s[a..b] == s[..at][a..b] && v[a..b] == v[..at][a..b];
  }

  /** The last range ends at the total, so it is the total's tail as wide as the last width. */
  lemma LastRange(widths: seq<nat>)
    requires 0 < |widths|
    ensures Ranges(widths)[|widths| - 1].1 == SumNat(widths)
    ensures widths[|widths| - 1] <= SumNat(widths)
    ensures Ranges(widths)[|widths| - 1].0 == SumNat(widths) - widths[|widths| - 1]
  {
    RangesContiguous(widths);
  }

  /**
   * `MPF_Hierarchy` (mpfrl/hierarchy.py:16-299): the bottom-level units,
   * their ranges of the input and output vectors, the units built above
   * them and the top unit, the reinforcement fed to the units and the time
   * counter. `world` is the tree of all units and `levels` the bottom level
   * and the intermediate levels, lowest first.
   */
  class MpfHierarchy {
    const l0Units: seq<Unit>
    const l0Ranges: seq<(nat, nat)>
    const units: seq<Unit>
    const topUnit: Unit
    const ssKind: SOM.SomKind
    const tsKind: SOM.SomKind
    var outputVec: seq<real>
    var reinforcementPrime: real
    const maxAbsReinforcementPrime: real
    const prevReinforcementPrime: real
    const prevReinforcement: real
    const reinforcementPrimeDecay: real
    var t: nat
    const dumpPeriod: int
    const dumpPath: string
    ghost const world: set<Unit>
    ghost const top: nat
    ghost const levels: seq<seq<Unit>>

    /**
     * A well-formed unit tree holding the bottom units and the top unit (of
     * the highest rank), the bottom units' ranges consecutive and as wide as
     * their inputs, and an output vector covering them all.
     */
    ghost predicate Valid()
      reads this`outputVec, world, Parts(world)
    {
      Tree(world, top) && (this as object) !in Parts(world) &&
      topUnit in world && topUnit.rank == top && 0 < |l0Units| &&
      (forall i :: 0 <= i < |l0Units| ==> l0Units[i] in world) &&
      l0Ranges == Ranges(Dims(l0Units)) && |outputVec| == SumNat(Dims(l0Units))
    }

    /** Whether the hierarchy is dumped at the current time. */
    function ShouldDump(): bool
      reads this`t
    {
      DumpDue(dumpPeriod, t)
    }

    /**
     * The fields `__init__` sets (mpfrl/hierarchy.py:29-106), from the
     * bottom units, their ranges, the units built over them and the SOM
     * kinds: a zero output vector, zero reinforcement state with decay 0.7,
     * time 0 and the dump settings.
     */
    constructor (l0: seq<Unit>, ranges: seq<(nat, nat)>, total: nat, built: seq<Unit>, tu: Unit,
                 ssKind: SOM.SomKind, tsKind: SOM.SomKind, dumpPeriod: int, dumpPath: string,
                 ghost world: set<Unit>, ghost top: nat, ghost levels: seq<seq<Unit>>)
      requires Tree(world, top) && tu in world && tu.rank == top && 0 < |l0|
      requires (forall i :: 0 <= i < |l0| ==> l0[i] in world)
      requires ranges == Ranges(Dims(l0)) && total == SumNat(Dims(l0))
      ensures Valid()
      ensures l0Units == l0 && l0Ranges == ranges && units == built && topUnit == tu
      ensures this.ssKind == ssKind && this.tsKind == tsKind
      ensures this.world == world && this.top == top && this.levels == levels
      ensures outputVec == Constant(total, 0.0)
      ensures reinforcementPrime == 0.0 && maxAbsReinforcementPrime == 0.0 && t == 0
      ensures prevReinforcementPrime == 0.0 && prevReinforcement == 0.0 && reinforcementPrimeDecay == 0.7
      ensures this.dumpPeriod == dumpPeriod && this.dumpPath == dumpPath
    {
      l0Units, l0Ranges, units, topUnit := l0, ranges, built, tu;
      this.ssKind, this.tsKind := ssKind, tsKind;
      outputVec := Constant(total, 0.0);
      reinforcementPrime, maxAbsReinforcementPrime := 0.0, 0.0;
      prevReinforcementPrime, prevReinforcement, reinforcementPrimeDecay := 0.0, 0.0, 0.7;
      t := 0;
      this.dumpPeriod, this.dumpPath := dumpPeriod, dumpPath;
      this.world, this.top, this.levels := world, top, levels;
    }

    /**
     * `evaluate` (mpfrl/hierarchy.py:232-299): the reinforcement becomes the
     * reinforcement prime the units read, each bottom unit runs its forward
     * pass on its range of the input, the top unit runs its backward pass on
     * a uniform random vector, each bottom unit's output is written into its
     * range of the output vector, and time advances. The result is the tail
     * of the output vector as wide as the last bottom unit's input (the whole
     * vector when that width is zero, as Python's `v[-0:]` is), which is the
     * last bottom unit's output. A unit kernel that fails ends that unit's
     * pass; the other bottom units still run theirs.
     */
    method Evaluate(input: seq<real>, reinforcement: real) returns (r: seq<real>)
      requires Valid() && |input| == |outputVec|
      modifies this`outputVec, this`t, this`reinforcementPrime
      modifies world`accu, world`childInputsNum, world`localPred, world`globalPred, world`totalPred,
               world`rewardCorr, world`tsActBias, world`lastTsAct, world`rwLearningRate, world`rwLearningRateDecr,
               world`rwBiasInfluence, world`rwBiasInfluenceDecr, Parts(world)
      ensures Valid()
      ensures reinforcementPrime == reinforcement && t == old(t) + 1
      ensures Merged()
      ensures var n := l0Units[|l0Units| - 1].ss.dim;
        n <= |outputVec| && r == (if n == 0 then outputVec else outputVec[|outputVec| - n..])
      ensures 0 < l0Units[|l0Units| - 1].ss.dim ==> r == l0Units[|l0Units| - 1].accu
    {
      reinforcementPrime := reinforcement;
      Passes(input, reinforcement);
      t := t + 1;
      var n := l0Units[|l0Units| - 1].ss.dim;
      MergedTail();
      r := if n == 0 then outputVec else outputVec[|outputVec| - n..];
    }

    /** mpfrl/hierarchy.py:264-286: the forward passes of the bottom units, the backward pass from the top, and the merge. */
    method Passes(input: seq<real>, rp: real)
      requires Valid() && |input| == |outputVec|
      modifies this`outputVec
      modifies world`accu, world`childInputsNum, world`localPred, world`globalPred, world`totalPred,
               world`rewardCorr, world`tsActBias, world`lastTsAct, world`rwLearningRate, world`rwLearningRateDecr,
               world`rwBiasInfluence, world`rwBiasInfluenceDecr, Parts(world)
      ensures Valid() && Merged()
    {
      ForwardAll(input, rp);
      BackwardTop();
      MergeAll();
    }

    /** The tail of a merged output vector as wide as the last bottom unit's input is that unit's output. */
    lemma MergedTail()
      requires Valid() && Merged()
      ensures var n := l0Units[|l0Units| - 1].ss.dim;
        n <= |outputVec| && (0 < n ==> outputVec[|outputVec| - n..] == l0Units[|l0Units| - 1].accu)
    {
      var last := |l0Units| - 1;
      LastRange(Dims(l0Units));
      assert Dims(l0Units)[last] == l0Units[last].ss.dim;
      assert l0Ranges[last].1 == |outputVec|;
    }

    /** mpfrl/hierarchy.py:264-269: every bottom unit in turn runs its forward pass on its range of the input. */
    method ForwardAll(input: seq<real>, rp: real)
      requires Valid() && |input| == |outputVec|
      modifies world`accu, world`childInputsNum, world`localPred,
               world`rewardCorr, world`tsActBias, world`lastTsAct, world`rwLearningRate, world`rwLearningRateDecr,
               world`rwBiasInfluence, world`rwBiasInfluenceDecr, Parts(world)
      ensures Valid()
    {
      var i := 0;
      while i < |l0Units|
        invariant 0 <= i <= |l0Units| && Valid()
      {
        ForwardLeaf(i, input, rp);
        i := i + 1;
      }
    }

    /** mpfrl/hierarchy.py:277: the top unit runs its backward pass on a uniform random vector. */
    method BackwardTop()
      requires Valid()
      modifies world`accu, world`globalPred, world`totalPred, Parts(world)
      ensures Valid()
    {
      var v := UniformVector(0.0, 1.0, topUnit.TsSize());
      BelowAll(world, topUnit.rank);
      var br, k, c, nv, gc, gnv, handed := topUnit.BackwardPass(v, world, top);
    }

    /** mpfrl/hierarchy.py:283-286: every bottom unit's output is written into its range of the output vector. */
    method MergeAll()
      requires Valid()
      modifies this`outputVec
      ensures Valid() && Merged()
    {
      var i := 0;
      while i < |l0Units|
        invariant 0 <= i <= |l0Units| && Valid() && MergedUpTo(i)
      {
        MergeLeaf(i);
        i := i + 1;
      }
    }

    /** The first `n` bottom units' outputs fill their ranges of the output vector. */
    ghost predicate MergedUpTo(n: nat)
      reads this`outputVec, l0Units`accu
    {
      n <= |l0Units| && |l0Ranges| == |l0Units| &&
      forall j :: 0 <= j < n ==>
        l0Ranges[j].0 <= l0Ranges[j].1 <= |outputVec| && outputVec[l0Ranges[j].0..l0Ranges[j].1] == l0Units[j].accu
    }

    /** Every bottom unit's output fills its range of the output vector. */
    ghost predicate Merged()
      reads this`outputVec, l0Units`accu
    {
      MergedUpTo(|l0Units|)
    }

    /** mpfrl/hierarchy.py:266-269: bottom unit `i` runs its forward pass on its range of the input. */
    method ForwardLeaf(i: nat, input: seq<real>, rp: real)
      requires Valid() && i < |l0Units| && |input| == |outputVec|
      modifies world`accu, world`childInputsNum, world`localPred,
               world`rewardCorr, world`tsActBias, world`lastTsAct, world`rwLearningRate, world`rwLearningRateDecr,
               world`rwBiasInfluence, world`rwBiasInfluenceDecr, Parts(world)
      ensures Valid()
    {
      var u := l0Units[i];
      RangeWithin(Dims(l0Units), i);
      var part := input[l0Ranges[i].0..l0Ranges[i].1];
      AboveAll(world, u.rank);
      var fr, k := u.ForwardPass(part, rp, world, top);
    }

    /** mpfrl/hierarchy.py:284-286: bottom unit `i`'s output is written into its range of the output vector. */
    method MergeLeaf(i: nat)
      requires Valid() && i < |l0Units| && MergedUpTo(i)
      modifies this`outputVec
      ensures Valid() && MergedUpTo(i + 1)
    {
      var u := l0Units[i];
      RangeWithin(Dims(l0Units), i);
      RangesMonotone(Dims(l0Units));
      assert u in world && u.Valid();
      outputVec := Splice(outputVec, l0Ranges[i].0, u.accu);
      forall j | 0 <= j < i
        ensures outputVec[l0Ranges[j].0..l0Ranges[j].1] == old(outputVec)[l0Ranges[j].0..l0Ranges[j].1]
      {
        SpliceKeepsBefore(old(outputVec), l0Ranges[i].0, u.accu, l0Ranges[j].0, l0Ranges[j].1);
      }
    }
  }

  /**
   * `MPF_Hierarchy.__init__` (mpfrl/hierarchy.py:29-106): the bottom units'
   * ranges and the output vector over them, the SOM kinds (the first bottom
   * unit's unless given), then the levels above the bottom units
   * (`__construct_hierarchy`) and the initial reinforcement, time and dump
   * settings. Every level must keep at least one unit for the top unit to
   * have an input.
   */
  method Init(l0: seq<Unit>, levelsNum: nat, dumpPeriod: int, dumpPath: string,
              ssClass: Option<SOM.SomKind>, tsClass: Option<SOM.SomKind>, ghost world0: set<Unit>)
    returns (h: MpfHierarchy)
    requires 0 < |l0| && 2 <= levelsNum && 0 < LevelSize(|l0|, levelsNum - 2)
    requires Tree(world0, levelsNum - 1) && Orphans(l0, world0, 1)
    modifies Members(l0)`parent, Members(l0)`lo, Members(l0)`hi
    ensures fresh(h) && h.Valid() && h.l0Units == l0 && h.top == levelsNum - 1 && world0 <= h.world
    ensures h.l0Ranges == Ranges(Dims(l0)) && h.outputVec == Constant(SumNat(Dims(l0)), 0.0)
    ensures h.ssKind == (if ssClass.Some? then ssClass.value else l0[0].ss.kind)
    ensures h.tsKind == (if tsClass.Some? then tsClass.value else l0[0].ts.kind)
    ensures h.reinforcementPrime == 0.0 && h.maxAbsReinforcementPrime == 0.0 && h.t == 0
    ensures h.prevReinforcementPrime == 0.0 && h.prevReinforcement == 0.0 && h.reinforcementPrimeDecay == 0.7
    ensures h.dumpPeriod == dumpPeriod && h.dumpPath == dumpPath
    ensures |h.levels| == levelsNum - 1 && h.levels[0] == l0 && h.units == Flatten(h.levels[1..]) + [h.topUnit]
    ensures h.world == world0 + Members(h.units)
  {
    var ranges, total := InputRanges(l0);
    var sk := if ssClass.Some? then ssClass.value else l0[0].ss.kind;
    var tk := if tsClass.Some? then tsClass.value else l0[0].ts.kind;
    assert l0[0] in world0;
    KernelsOf(l0[0], world0, levelsNum - 1);
    var fns := Kernels(l0[0].ss.likelihood, l0[0].ss.exp, l0[0].ss.sqrt);
    var us, tu;
    ghost var w, lv;
    us, tu, w, lv := Construct(l0, levelsNum, sk, tk, fns, world0);
    h := new MpfHierarchy(l0, ranges, total, us, tu, sk, tk, dumpPeriod, dumpPath, w, levelsNum - 1, lv);
  }
}
