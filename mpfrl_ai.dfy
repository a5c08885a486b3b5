/*
 * The MPF player of the tic-tac-toe benchmark (benchmarks/tictactoe/mpfrl_ai.py):
 * the hierarchy's output vector is snapped to the cell nominals 0, 0.5 and 1,
 * then corrected into a legal move from the previous field. Fields are the
 * nine cells, flattened.
 */
module MpfrlAi {
  import opened Common

  /** `SIDES_NOMINALS`: the cell value of each side. */
  const CROSS_NOMINAL: real := 1.0
  const NOUGHT_NOMINAL: real := 0.5

  /** A cell value the game knows: empty, nought or cross. */
  predicate IsNominal(x: real)
  {
    x == 0.0 || x == NOUGHT_NOMINAL || x == CROSS_NOMINAL
  }

  // ---------------------------------------------------------------------
  // Snapping the output to nominals
  // ---------------------------------------------------------------------

  /** One cell of `__adjust_move_layout` (mpfrl_ai.py:88-93). */
  function Quantise(x: real): real
  {
    if x <= 0.25 then 0.0 else if x <= 0.75 then 0.5 else 1.0
  }

  /** A snapped cell is a nominal, and no nominal lies nearer to the raw value. */
  lemma QuantiseIsNearest(x: real, n: real)
    requires IsNominal(n)
    ensures IsNominal(Quantise(x))
    ensures Abs(x - Quantise(x)) <= Abs(x - n)
  {
  }

  /** Nominals are left as they are; hence snapping twice is snapping once. */
  lemma QuantiseIdempotent(x: real)
    ensures IsNominal(x) ==> Quantise(x) == x
    ensures Quantise(Quantise(x)) == Quantise(x)
  {
  }

  /** The output vector snapped cell by cell. */
  function Adjusted(s: seq<real>): (r: seq<real>)
    ensures |r| == |s|
  {
    seq(|s|, i requires 0 <= i < |s| => Quantise(s[i]))
  }

  /** Every adjusted cell is a nominal, and adjusting again changes nothing. */
  lemma AdjustedIsIdempotent(s: seq<real>)
    ensures forall i :: 0 <= i < |s| ==> IsNominal(Adjusted(s)[i])
    ensures Adjusted(Adjusted(s)) == Adjusted(s)
  {
    forall i | 0 <= i < |s|
      ensures IsNominal(Adjusted(s)[i]) && Adjusted(Adjusted(s))[i] == Adjusted(s)[i]
    {
      QuantiseIsNearest(s[i], 0.0);
      QuantiseIdempotent(s[i]);
    }
  }

  /** `__adjust_move_layout` (mpfrl_ai.py:80-93): snaps the layout in place. */
  method AdjustMoveLayout(layout: array<real>)
    modifies layout
    ensures layout[..] == Adjusted(old(layout[..]))
  {
    var i := 0;
    while i < layout.Length
      invariant 0 <= i <= layout.Length
      invariant forall j :: 0 <= j < i ==> layout[j] == Quantise(old(layout[j]))
      invariant forall j :: i <= j < layout.Length ==> layout[j] == old(layout[j])
    {
      var x := layout[i];
      if x <= 0.25 {
        layout[i] := 0.0;
      } else if x > 0.25 && x <= 0.75 {
        layout[i] := 0.5;
      } else if x > 0.75 {
        layout[i] := 1.0;
      }
      i := i + 1;
    }
  }

  // ---------------------------------------------------------------------
  // Validating a move
  // ---------------------------------------------------------------------

  /**
   * A layout is a valid move of `mySide` from `prev` when the cells add up to
   * the side's nominal more and no occupied cell changed.
   */
  predicate IsValidMove(prev: seq<real>, layout: seq<real>, mySide: real)
    requires |layout| == |prev|
  {
    Sum(layout) - Sum(prev) == mySide &&
    forall i :: 0 <= i < |prev| ==> prev[i] != 0.0 ==> prev[i] == layout[i]
  }

  /** `__validate_move_layout` (mpfrl_ai.py:95-105). */
  method ValidateMoveLayout(prev: seq<real>, layout: seq<real>, mySide: real) returns (ok: bool)
    requires |layout| == |prev|
    ensures ok <==> IsValidMove(prev, layout, mySide)
  {
    if Sum(layout) - Sum(prev) != mySide {
      return false;
    }
    var i := 0;
    while i < |prev|
      invariant 0 <= i <= |prev|
      invariant forall j :: 0 <= j < i ==> prev[j] != 0.0 ==> prev[j] == layout[j]
    {
      if prev[i] != 0.0 && prev[i] != layout[i] {
        return false;
      }
      i := i + 1;
    }
    return true;
  }

  // ---------------------------------------------------------------------
  // Correcting a move
  // ---------------------------------------------------------------------

  /** The first cell that was empty and that the layout marks with `side`. */
  function FirstMark(prev: seq<real>, layout: seq<real>, side: real): (f: Option<nat>)
    requires |layout| == |prev|
    ensures f.Some? ==> f.value < |prev| && prev[f.value] == 0.0 && layout[f.value] == side && side != 0.0
    ensures f.Some? ==> forall j :: 0 <= j < f.value ==> !(prev[j] == 0.0 && layout[j] == side)
    ensures f.None? ==> side == 0.0 || forall j :: 0 <= j < |prev| ==> !(prev[j] == 0.0 && layout[j] == side)
  {
    if prev == [] then None
    else
      var n := |prev|;
      var f := FirstMark(prev[..n - 1], layout[..n - 1], side);
      if f.Some? then f
      else if prev[n - 1] == 0.0 && layout[n - 1] == side && side != 0.0 then Some(n - 1)
      else None
  }

  /** The first empty cell. */
  function FirstEmpty(t: seq<real>): (f: Option<nat>)
    ensures f.Some? ==> f.value < |t| && t[f.value] == 0.0 && forall j :: 0 <= j < f.value ==> t[j] != 0.0
    ensures f.None? ==> forall j :: 0 <= j < |t| ==> t[j] != 0.0
  {
    if t == [] then None
    else
      var f := FirstEmpty(t[..|t| - 1]);
      if f.Some? then f else if t[|t| - 1] == 0.0 then Some(|t| - 1) else None
  }

  /**
   * The move the correction makes: the previous field with one mark of
   * `side`, on the first empty cell the layout already marks with it, else
   * on the first empty cell; a full field stays as it is.
   */
  function Corrected(prev: seq<real>, layout: seq<real>, side: real): (r: seq<real>)
    requires |layout| == |prev|
    ensures |r| == |prev|
  {
    var m := FirstMark(prev, layout, side);
    if m.Some? then prev[m.value := side]
    else
      var z := FirstEmpty(prev);
      if z.Some? then prev[z.value := side] else prev
  }

  /**
   * `__correct_move_layout` (mpfrl_ai.py:107-175). Stage 1 restores every
   * occupied cell and keeps only the first new mark of `side`; stage 3, when
   * no mark was kept, puts one on the first empty cell. `side` defaults to
   * the player's own.
   */
  method CorrectMoveLayout(prev: seq<real>, layout: array<real>, side: Option<real>, mySide: real)
    requires layout.Length == |prev|
    modifies layout
    ensures layout[..] == Corrected(prev, old(layout[..]), if side.None? then mySide else side.value)
  {
    var s := if side == None then mySide else side.value;
    ghost var adj := layout[..];
    ghost var mark: Option<nat> := None;
    var moveMade := false;
    var i := 0;
    while i < |prev|
      invariant 0 <= i <= |prev|
      invariant mark == FirstMark(prev[..i], adj[..i], s) && (moveMade <==> mark.Some?)
      invariant forall j :: 0 <= j < i ==> layout[j] == if mark == Some(j) then s else prev[j]
      invariant forall j :: i <= j < |prev| ==> layout[j] == adj[j]
    {
      StageOneStep(prev, adj, s, i, mark);
      if prev[i] != layout[i] {
        if prev[i] != 0.0 {
          layout[i] := prev[i];
        } else {
          if moveMade || layout[i] != s {
            layout[i] := 0.0;
          } else {
            moveMade := true;
            mark := Some(i);
          }
        }
      }
      i := i + 1;
    }
    assert prev[..i] == prev && adj[..i] == adj;
    if moveMade {
      assert layout[..] == prev[mark.value := s];
    } else {
      assert layout[..] == prev;
      i := 0;
      while i < layout.Length
        invariant 0 <= i <= layout.Length && layout[..] == prev
        invariant forall j :: 0 <= j < i ==> prev[j] != 0.0
      {
        if layout[i] == 0.0 {
          layout[i] := s;
          assert FirstEmpty(prev) == Some(i);
          return;
        }
        i := i + 1;
      }
      assert FirstEmpty(prev).None?;
    }
  }

  /** What one turn of stage 1 learns about the first `i + 1` cells. */
  lemma StageOneStep(prev: seq<real>, adj: seq<real>, s: real, i: nat, mark: Option<nat>)
    requires |adj| == |prev| && i < |prev|
    requires mark == FirstMark(prev[..i], adj[..i], s)
    ensures FirstMark(prev[..i + 1], adj[..i + 1], s) ==
      if mark.Some? then mark else if prev[i] == 0.0 && adj[i] == s && s != 0.0 then Some(i) else None
  {
    assert prev[..i + 1][..i] == prev[..i] && adj[..i + 1][..i] == adj[..i];
  }

  // ---------------------------------------------------------------------
  // What the correction promises
  // ---------------------------------------------------------------------

  /** Starting from a field with an empty cell, the correction marks exactly one empty cell with `side`. */
  lemma CorrectedIsOneMove(prev: seq<real>, layout: seq<real>, side: real, e: nat)
    requires |layout| == |prev| && e < |prev| && prev[e] == 0.0
    ensures exists i :: 0 <= i < |prev| && prev[i] == 0.0 && Corrected(prev, layout, side) == prev[i := side]
  {
    var m := FirstMark(prev, layout, side);
    if m.None? {
      var z := FirstEmpty(prev);
      assert z.Some?;
      assert Corrected(prev, layout, side) == prev[z.value := side];
    }
  }

  /**
   * Occupied cells are restored, and the cell that gets the mark is the
   * first empty one the layout already marked, when it marked any.
   */
  lemma CorrectedKeepsFirstMark(prev: seq<real>, layout: seq<real>, side: real, k: nat)
    requires |layout| == |prev| && k < |prev| && prev[k] == 0.0 && layout[k] == side && side != 0.0
    ensures forall i :: 0 <= i < |prev| && prev[i] != 0.0 ==> Corrected(prev, layout, side)[i] == prev[i]
    ensures exists i :: 0 <= i <= k && layout[i] == side && Corrected(prev, layout, side) == prev[i := side]
  {
    var m := FirstMark(prev, layout, side);
    assert m.Some?;
    assert m.value <= k;
  }

  /** A full field is left as it is. */
  lemma CorrectedFull(prev: seq<real>, layout: seq<real>, side: real)
    requires |layout| == |prev| && forall i :: 0 <= i < |prev| ==> prev[i] != 0.0
    ensures Corrected(prev, layout, side) == prev
  {
    var m := FirstMark(prev, layout, side);
    assert m.None?;
  }

  lemma {:induction false} SumUpdate(s: seq<real>, i: nat, x: real)
    requires i < |s|
    ensures Sum(s[i := x]) == Sum(s) - s[i] + x
    decreases |s|
  {
    var n := |s|;
    var t := s[i := x];
    assert t[..n - 1] == if i < n - 1 then s[..n - 1][i := x] else s[..n - 1];
    if i < n - 1 {
      SumUpdate(s[..n - 1], i, x);
    }
  }

  /**
   * On a field with an empty cell, the corrected layout of the player's own
   * side is a valid move (mpfrl_ai.py:108-113).
   */
  lemma CorrectedIsValid(prev: seq<real>, layout: seq<real>, mySide: real, e: nat)
    requires |layout| == |prev| && e < |prev| && prev[e] == 0.0
    ensures IsValidMove(prev, Corrected(prev, layout, mySide), mySide)
  {
    CorrectedIsOneMove(prev, layout, mySide, e);
    var i :| 0 <= i < |prev| && prev[i] == 0.0 && Corrected(prev, layout, mySide) == prev[i := mySide];
    SumUpdate(prev, i, mySide);
  }
}
