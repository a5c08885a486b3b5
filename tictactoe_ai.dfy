/*
 * The tic-tac-toe benchmark's maximin player (benchmarks/tictactoe/ai.py).
 *
 * A layout is the 3x3 field flattened row by row into nine cell codes,
 * which are twice the game's side nominals: 0 empty, 1 nought, 2 cross.
 * A layout is known by its base-3 number (cell i is digit i). The raw
 * builder walks every layout reachable from the empty field and records the
 * payout, the children and the side to move. The maximin pass then resolves
 * every open payout, bottom up, from the children's payouts. A side is
 * named by its doubled nominal too: CROSS is 2 and NOUGHT is 1.
 */
module TicTacToeAi {
  import opened Common

  const FIELD_SIZE: nat := 9
  const EMPTY: int := 0
  const NOUGHT: int := 1
  const CROSS: int := 2

  /** The maximin pass's starting bounds (ai.py:195, 230). */
  const MAX_START: real := -1.0e99
  const MIN_START: real := 1.0e20

  type Board = seq<int>

  predicate ValidCells(b: Board)
  {
    forall i :: 0 <= i < |b| ==> 0 <= b[i] <= 2
  }

  predicate ValidBoard(b: Board)
  {
    |b| == FIELD_SIZE && ValidCells(b)
  }

  function Pow3(i: nat): (p: nat)
    ensures 1 <= p
  {
    if i == 0 then 1 else 3 * Pow3(i - 1)
  }

  /** Number of cells of `b` holding `v`. */
  function Count(b: Board, v: int): (n: nat)
    ensures n <= |b|
  {
    if b == [] then 0 else Count(b[..|b| - 1], v) + (if b[|b| - 1] == v then 1 else 0)
  }

  // ---------------------------------------------------------------------
  // Layout numbers
  // ---------------------------------------------------------------------

  /** The layout's number: the dot product of the cells with 3^0 .. 3^8. */
  function Encode(b: Board): int
  {
    if b == [] then 0 else Encode(b[..|b| - 1]) + b[|b| - 1] * Pow3(|b| - 1)
  }

  /** The first `k` base-3 digits of `n`, least significant first. */
  function Digits(n: int, k: nat): (d: Board)
    ensures |d| == k && ValidCells(d)
    decreases k
  {
    if k == 0 then [] else [n % 3] + Digits(n / 3, k - 1)
  }

  /** The layout a number stands for. */
  function Decode(n: int): (b: Board)
    ensures ValidBoard(b)
  {
    Digits(n, FIELD_SIZE)
  }

  /** The number read most significant digit last, one digit at a time. */
  function Horner(b: Board): int
  {
    if b == [] then 0 else b[0] + 3 * Horner(b[1..])
  }

  lemma {:induction false} EncodeIsHorner(b: Board)
    ensures Encode(b) == Horner(b)
    decreases |b|
  {
    if |b| > 1 {
      var n := |b|;
      var p := b[..n - 1];
      EncodeIsHorner(p);
      EncodeIsHorner(b[1..]);
      EncodeIsHorner(p[1..]);
      assert b[1..][..n - 2] == p[1..];
      assert b[1..][n - 2] == b[n - 1];
      assert p[0] == b[0];
      assert Pow3(n - 1) == 3 * Pow3(n - 2);
      assert Encode(b[1..]) == Encode(p[1..]) + b[n - 1] * Pow3(n - 2);
      assert Encode(p) == Horner(p) == p[0] + 3 * Horner(p[1..]);
    } else if |b| == 1 {
      assert b[..0] == [] && b[1..] == [];
    }
  }

  lemma DivModUnique(n: int, d: int, q: int, r: int)
    requires 0 < d && 0 <= r < d && n == d * q + r
    ensures n / d == q && n % d == r
  {
    var q', r' := n / d, n % d;
    assert n == d * q' + r';
    if q' < q {
      assert d * q - d * q' == d * (q - q');
      MulAtLeast(q - q', d);
    } else if q < q' {
      assert d * q' - d * q == d * (q' - q);
      MulAtLeast(q' - q, d);
    }
  }

  /** Splitting off the lowest digit of a remainder by 3 * m. */
  lemma ModSplit(n: int, m: int)
    requires 0 < m
    ensures n % (3 * m) == n % 3 + 3 * ((n / 3) % m)
  {
    var q, r := n / 3, n % 3;
    var qq, rr := q / m, q % m;
    assert n == 3 * q + r;
    assert q == m * qq + rr;
    assert n == (3 * m) * qq + (3 * rr + r);
    DivModUnique(n, 3 * m, qq, 3 * rr + r);
  }

  /** Decoding the number of a layout gives back the layout, for cells in 0 .. 2. */
  lemma {:induction false} DigitsOfHorner(b: Board)
    requires ValidCells(b)
    ensures Digits(Horner(b), |b|) == b
    decreases |b|
  {
    if b != [] {
      var h := Horner(b[1..]);
      DivModUnique(Horner(b), 3, h, b[0]);
      DigitsOfHorner(b[1..]);
    }
  }

  /** Reading back the first `k` digits of `n` gives `n` modulo 3^k. */
  lemma {:induction false} HornerOfDigits(n: int, k: nat)
    ensures Horner(Digits(n, k)) == n % Pow3(k)
    decreases k
  {
    if k == 0 {
      DivModUnique(n, 1, n, 0);
    } else {
      var d := Digits(n, k);
      assert d[1..] == Digits(n / 3, k - 1);
      HornerOfDigits(n / 3, k - 1);
      ModSplit(n, Pow3(k - 1));
    }
  }

  /** `__dec_layout_to_ndarray` inverts `__ndarray_to_dec_layout` on layouts. */
  lemma DecodeEncode(b: Board)
    requires ValidBoard(b)
    ensures Decode(Encode(b)) == b
  {
    EncodeIsHorner(b);
    DigitsOfHorner(b);
  }

  /** ... and the other way round on the numbers of layouts, 0 .. 3^9 - 1. */
  lemma EncodeDecode(n: int)
    requires 0 <= n < Pow3(FIELD_SIZE)
    ensures Encode(Decode(n)) == n
  {
    EncodeIsHorner(Decode(n));
    HornerOfDigits(n, FIELD_SIZE);
    DivModUnique(n, Pow3(FIELD_SIZE), 0, n);
  }

  /** Every number decodes to some layout, so the range 0 .. 3^9 - 1 is all of them. */
  lemma {:induction false} HornerBound(b: Board)
    requires ValidCells(b)
    ensures 0 <= Horner(b) < Pow3(|b|)
    decreases |b|
  {
    if b != [] {
      HornerBound(b[1..]);
    }
  }

  lemma EncodeBound(b: Board)
    requires ValidBoard(b)
    ensures 0 <= Encode(b) < Pow3(FIELD_SIZE)
  {
    EncodeIsHorner(b);
    HornerBound(b);
  }

  /** `__dec_layout_to_ndarray` (ai.py:44-61): nine digits, lowest first. */
  method DecodeLayout(dec: int) returns (b: Board)
    ensures b == Decode(dec)
  {
    b := [];
    var n := dec;
    var i := 0;
    while i < FIELD_SIZE
      invariant 0 <= i <= FIELD_SIZE && |b| == i
      invariant Decode(dec) == b + Digits(n, FIELD_SIZE - i)
    {
      ghost var rest := Digits(n / 3, FIELD_SIZE - i - 1);
      assert Digits(n, FIELD_SIZE - i) == [n % 3] + rest;
      assert b + ([n % 3] + rest) == (b + [n % 3]) + rest;
      b := b + [n % 3];
      n := n / 3;
      i := i + 1;
    }
  }

  // ---------------------------------------------------------------------
  // Sides
  // ---------------------------------------------------------------------

  /** The side to move after `b`: cross when both sides have as many marks. */
  function NextSide(b: Board): (s: int)
    ensures s == CROSS <==> Count(b, CROSS) == Count(b, NOUGHT)
    ensures s == CROSS || s == NOUGHT
  {
    if Count(b, NOUGHT) == Count(b, CROSS) then CROSS else NOUGHT
  }

  lemma CountSnoc(b: Board, d: int, v: int)
    ensures Count(b + [d], v) == Count(b, v) + (if d == v then 1 else 0)
  {
    assert (b + [d])[..|b|] == b;
  }

  /** `__next_move_side` (ai.py:70-84): counts the digits of the layout's number. */
  method NextMoveSide(dec: int) returns (s: int)
    ensures s == NextSide(Decode(dec))
  {
    var counts := [0, 0, 0];
    var n := dec;
    ghost var seen: Board := [];
    var i := 0;
    while i < FIELD_SIZE
      invariant 0 <= i <= FIELD_SIZE && |counts| == 3
      invariant Decode(dec) == seen + Digits(n, FIELD_SIZE - i)
      invariant forall v :: 0 <= v < 3 ==> counts[v] == Count(seen, v)
    {
      var d := n % 3;
      ghost var rest := Digits(n / 3, FIELD_SIZE - i - 1);
      assert Digits(n, FIELD_SIZE - i) == [d] + rest;
      assert seen + ([d] + rest) == (seen + [d]) + rest;
      forall v | 0 <= v < 3
        ensures Count(seen + [d], v) == Count(seen, v) + (if d == v then 1 else 0)
      {
        CountSnoc(seen, d, v);
      }
      counts := counts[d := counts[d] + 1];
      seen := seen + [d];
      n := n / 3;
      i := i + 1;
    }
    assert seen == Decode(dec);
    s := if counts[1] == counts[2] then CROSS else NOUGHT;
  }

  /**
   * The mark `__evolve_layout` places: nought once cross has more marks,
   * cross otherwise (ai.py:88-91).
   */
  function Mover(b: Board): (s: int)
    ensures s == NOUGHT <==> Count(b, CROSS) > Count(b, NOUGHT)
    ensures s == CROSS || s == NOUGHT
  {
    if Count(b, CROSS) - Count(b, NOUGHT) > 0 then NOUGHT else CROSS
  }

  /** A layout reachable by alternate moves, cross first. */
  predicate Balanced(b: Board)
  {
    Count(b, CROSS) == Count(b, NOUGHT) || Count(b, CROSS) == Count(b, NOUGHT) + 1
  }

  /** On reachable layouts the recorded side to move is the side whose mark is placed. */
  lemma MoverIsNextSide(b: Board)
    requires Balanced(b)
    ensures Mover(b) == NextSide(b)
  {
  }

  lemma {:induction false} CountUpdate(b: Board, i: nat, x: int, v: int)
    requires i < |b|
    ensures Count(b[i := x], v) == Count(b, v) - (if b[i] == v then 1 else 0) + (if x == v then 1 else 0)
    decreases |b|
  {
    var n := |b|;
    var c := b[i := x];
    if i < n - 1 {
      assert c[..n - 1] == b[..n - 1][i := x];
      CountUpdate(b[..n - 1], i, x, v);
    } else {
      assert c[..n - 1] == b[..n - 1];
    }
  }

  /** Placing the side to move's mark on an empty cell of a reachable layout keeps it reachable. */
  lemma MoveKeepsBalance(b: Board, i: nat)
    requires Balanced(b) && i < |b| && b[i] == EMPTY
    ensures Balanced(b[i := Mover(b)])
    ensures Count(b[i := Mover(b)], EMPTY) == Count(b, EMPTY) - 1
  {
    CountUpdate(b, i, Mover(b), CROSS);
    CountUpdate(b, i, Mover(b), NOUGHT);
    CountUpdate(b, i, Mover(b), EMPTY);
  }

  // ---------------------------------------------------------------------
  // Moves
  // ---------------------------------------------------------------------

  /** The indices of the empty cells of `b`, in increasing order. */
  function Empties(b: Board): (e: seq<nat>)
    ensures |e| == Count(b, EMPTY)
    ensures forall j :: 0 <= j < |e| ==> e[j] < |b| && b[e[j]] == EMPTY
  {
    if b == [] then [] else Empties(b[..|b| - 1]) + (if b[|b| - 1] == EMPTY then [|b| - 1] else [])
  }

  lemma {:induction false} EmptiesPrefix(b: Board, i: nat)
    requires i <= |b|
    ensures Empties(b[..i]) <= Empties(b)
    decreases |b|
  {
    if i < |b| {
      assert b[..|b| - 1][..i] == b[..i];
      EmptiesPrefix(b[..|b| - 1], i);
    } else {
      assert b[..i] == b;
    }
  }

  /** The layout after the mover marks the `j`-th empty cell. */
  function Child(b: Board, j: nat): (c: Board)
    requires j < |Empties(b)|
    ensures |c| == |b|
  {
    b[Empties(b)[j] := Mover(b)]
  }

  /** What `__evolve_layout(arr, skip)` yields: a negative skip counts as none. */
  function Evolved(b: Board, skip: int): (r: Option<Board>)
    ensures r.Some? <==> (if skip < 0 then 0 else skip) < Count(b, EMPTY)
  {
    var k := if skip < 0 then 0 else skip;
    if k < |Empties(b)| then Some(Child(b, k)) else None
  }

  /** Extending a prefix by one cell adds that cell's index when it is empty. */
  lemma EmptiesStep(b: Board, i: nat)
    requires i < |b|
    ensures Empties(b[..i + 1]) == Empties(b[..i]) + (if b[i] == EMPTY then [i] else [])
  {
    assert b[..i + 1][..i] == b[..i];
  }

  /** Stopping at empty cell `i` after exactly `skip` earlier empties gives the evolved layout. */
  lemma EvolvedAt(b: Board, skip: int, i: nat)
    requires i < |b| && b[i] == EMPTY
    requires |Empties(b[..i])| == (if skip < 0 then 0 else skip)
    ensures Evolved(b, skip) == Some(b[i := Mover(b)])
  {
    EmptiesStep(b, i);
    EmptiesPrefix(b, i + 1);
    assert Empties(b)[|Empties(b[..i])|] == i;
  }

  /** `__evolve_layout` (ai.py:87-101): the mover marks the empty cell after `skip` others. */
  method EvolveLayout(arr: Board, skip: int) returns (r: Option<Board>)
    ensures r == Evolved(arr, skip)
  {
    var mover := if Count(arr, CROSS) - Count(arr, NOUGHT) > 0 then NOUGHT else CROSS;
    var left := skip;
    var i := 0;
    while i < |arr|
      invariant 0 <= i <= |arr|
      invariant left == skip - |Empties(arr[..i])|
      invariant |Empties(arr[..i])| == 0 || |Empties(arr[..i])| <= skip
    {
      EmptiesStep(arr, i);
      if arr[i] == EMPTY {
        if left <= 0 {
          EvolvedAt(arr, skip, i);
          return Some(arr[i := mover]);
        }
        left := left - 1;
      }
      i := i + 1;
    }
    assert arr[..i] == arr;
    return None;
  }

  /** Every reachable child has one empty cell fewer and stays reachable. */
  lemma ChildFacts(b: Board, j: nat)
    requires ValidBoard(b) && Balanced(b) && j < |Empties(b)|
    ensures ValidBoard(Child(b, j)) && Balanced(Child(b, j))
    ensures Count(Child(b, j), EMPTY) == Count(b, EMPTY) - 1
  {
    MoveKeepsBalance(b, Empties(b)[j]);
  }

  // ---------------------------------------------------------------------
  // Payouts
  // ---------------------------------------------------------------------

  /**
   * The eight lines in the order `__layout_payout` scans them (ai.py:106-113):
   * the diagonal, the anti-diagonal, then row i and column i for i = 0, 1, 2.
   */
  function Line(k: nat): (l: (nat, nat, nat))
    requires k < 8
    ensures l.0 < FIELD_SIZE && l.1 < FIELD_SIZE && l.2 < FIELD_SIZE
  {
    if k == 0 then (0, 4, 8)
    else if k == 1 then (6, 4, 2)
    else if k % 2 == 0 then var i := (k - 2) / 2; (3 * i, 3 * i + 1, 3 * i + 2)
    else var i := (k - 3) / 2; (i, i + 3, i + 6)
  }

  function LineProduct(b: Board, k: nat): int
    requires |b| == FIELD_SIZE && k < 8
  {
    var l := Line(k);
    b[l.0] * b[l.1] * b[l.2]
  }

  /** `((side * 2) % 2) + 1`: the doubled nominal of the other side. */
  function Opponent(side: int): (o: int)
    ensures side == CROSS ==> o == NOUGHT
    ensures side == NOUGHT ==> o == CROSS
  {
    side % 2 + 1
  }

  /** The payout read from lines `k` onwards. */
  function PayoutFrom(b: Board, side: int, k: nat): Option<real>
    requires |b| == FIELD_SIZE && k <= 8
    decreases 8 - k
  {
    if k == 8 then None
    else if LineProduct(b, k) == side * side * side then Some(1.0)
    else if LineProduct(b, k) == Opponent(side) * Opponent(side) * Opponent(side) then Some(-1.0)
    else PayoutFrom(b, side, k + 1)
  }

  function Payout(b: Board, side: int): Option<real>
    requires |b| == FIELD_SIZE
  {
    PayoutFrom(b, side, 0)
  }

  /** `__layout_payout` (ai.py:103-121): collects the eight line products, then scans them. */
  method LayoutPayout(b: Board, side: int) returns (p: Option<real>)
    requires |b| == FIELD_SIZE
    ensures p == Payout(b, side)
  {
    var prods := [b[0] * b[4] * b[8], b[6] * b[4] * b[2]];
    var i := 0;
    while i < 3
      invariant 0 <= i <= 3 && |prods| == 2 + 2 * i
      invariant forall k :: 0 <= k < |prods| ==> prods[k] == LineProduct(b, k)
    {
      prods := prods + [b[3 * i] * b[3 * i + 1] * b[3 * i + 2], b[i] * b[i + 3] * b[i + 6]];
      i := i + 1;
    }
    var k := 0;
    while k < |prods|
      invariant 0 <= k <= 8
      invariant PayoutFrom(b, side, 0) == PayoutFrom(b, side, k)
    {
      if prods[k] == side * side * side {
        return Some(1.0);
      } else if prods[k] == Opponent(side) * Opponent(side) * Opponent(side) {
        return Some(-1.0);
      }
      k := k + 1;
    }
    return None;
  }

  /** A line whose three cells all hold `c`. */
  predicate Owns(b: Board, k: nat, c: int)
    requires |b| == FIELD_SIZE && k < 8
  {
    var l := Line(k);
    b[l.0] == c && b[l.1] == c && b[l.2] == c
  }

  /** The side owning the first complete line from line `k` on, in scan order. */
  function WinnerFrom(b: Board, k: nat): Option<int>
    requires |b| == FIELD_SIZE && k <= 8
    decreases 8 - k
  {
    if k == 8 then None
    else if Owns(b, k, CROSS) then Some(CROSS)
    else if Owns(b, k, NOUGHT) then Some(NOUGHT)
    else WinnerFrom(b, k + 1)
  }

  function Winner(b: Board): Option<int>
    requires |b| == FIELD_SIZE
  {
    WinnerFrom(b, 0)
  }

  /** The payout a winner means to `side`. */
  function Verdict(w: Option<int>, side: int): Option<real>
  {
    match w
    case None => None
    case Some(c) => if c == side then Some(1.0) else Some(-1.0)
  }

  /** A product of three cells in 0 .. 2 is 8 or 1 exactly when all three are 2 or all are 1. */
  lemma CubeOwner(x: int, y: int, z: int)
    requires 0 <= x <= 2 && 0 <= y <= 2 && 0 <= z <= 2
    ensures x * y * z == 8 <==> x == 2 && y == 2 && z == 2
    ensures x * y * z == 1 <==> x == 1 && y == 1 && z == 1
  {
    if x == 0 {
    } else if x == 1 {
      if y == 0 {} else if y == 1 {} else {}
    } else {
      if y == 0 {} else if y == 1 {} else {}
    }
  }

  lemma {:induction false} PayoutFromWinner(b: Board, side: int, k: nat)
    requires ValidBoard(b) && (side == CROSS || side == NOUGHT) && k <= 8
    ensures PayoutFrom(b, side, k) == Verdict(WinnerFrom(b, k), side)
    decreases 8 - k
  {
    if k < 8 {
      var l := Line(k);
      assert 0 <= b[l.0] <= 2 && 0 <= b[l.1] <= 2 && 0 <= b[l.2] <= 2;
      CubeOwner(b[l.0], b[l.1], b[l.2]);
      if side == CROSS {
        assert Opponent(side) == NOUGHT;
      } else {
        assert Opponent(side) == CROSS;
      }
      PayoutFromWinner(b, side, k + 1);
    }
  }

  /**
   * The product test of `__layout_payout` finds three in a row: the payout is
   * 1.0 when the first complete line is `side`'s, -1.0 when it is the
   * opponent's, and there is none when no line is complete.
   */
  lemma PayoutIsVerdict(b: Board, side: int)
    requires ValidBoard(b) && (side == CROSS || side == NOUGHT)
    ensures Payout(b, side) == Verdict(Winner(b), side)
  {
    PayoutFromWinner(b, side, 0);
  }

  /** Raw payouts for nought are the raw payouts for cross with the sign turned. */
  lemma PayoutSwap(b: Board)
    requires ValidBoard(b)
    ensures Payout(b, NOUGHT) == Flip(Payout(b, CROSS))
  {
    PayoutIsVerdict(b, CROSS);
    PayoutIsVerdict(b, NOUGHT);
    if Winner(b).Some? {
      WinnerIsSide(b, 0);
    }
  }

  lemma {:induction false} WinnerIsSide(b: Board, k: nat)
    requires |b| == FIELD_SIZE && k <= 8
    ensures WinnerFrom(b, k).Some? ==> WinnerFrom(b, k).value == CROSS || WinnerFrom(b, k).value == NOUGHT
    decreases 8 - k
  {
    if k < 8 {
      WinnerIsSide(b, k + 1);
    }
  }

  /** The sign change of `__build_and_store_dec_layouts` (ai.py:297-302): only wins and losses turn. */
  function Flip(p: Option<real>): (q: Option<real>)
    ensures q.None? <==> p.None?
    ensures p.Some? && (p.value == 1.0 || p.value == -1.0) ==> q == Some(-p.value)
    ensures p.Some? && p.value != 1.0 && p.value != -1.0 ==> q == p
  {
    if p.Some? && Abs(p.value) == 1.0 then Some(-p.value) else p
  }

  // ---------------------------------------------------------------------
  // The raw layouts tree
  // ---------------------------------------------------------------------

  /** The maximin fields of an entry: the best child's number and the children's ranks. */
  datatype Choice = Choice(best: Option<int>, ranks: seq<real>)

  /**
   * A tree entry: the payout (none while open), the children's numbers, the
   * side to move, and, once the maximin pass has ranked the children of a
   * layout where the tree's side moves, its choice.
   */
  datatype Entry = Entry(payout: Option<real>, children: seq<int>, mover: int, choice: Option<Choice>)

  type Tree = map<int, Entry>

  /** The numbers of a layout's children, in the order `__evolve_layout` finds them. */
  function ChildCodes(b: Board): (cs: seq<int>)
    ensures |cs| == Count(b, EMPTY)
  {
    seq(|Empties(b)|, j requires 0 <= j < |Empties(b)| => Encode(Child(b, j)))
  }

  /**
   * The entry the raw builder records for a layout: a decided layout keeps
   * its payout and no children, a full undecided one is a draw, every other
   * one is open with all its children.
   */
  function RawEntry(b: Board, side: int): (e: Entry)
    requires |b| == FIELD_SIZE
    ensures e.payout.None? <==> Payout(b, side).None? && 0 < Count(b, EMPTY)
    ensures e.payout.None? ==> e.children == ChildCodes(b)
    ensures e.payout.Some? ==> e.children == []
    ensures e.mover == NextSide(b) && e.choice.None?
  {
    var p := Payout(b, side);
    if p.Some? then Entry(p, [], NextSide(b), None)
    else if Count(b, EMPTY) == 0 then Entry(Some(0.0), [], NextSide(b), None)
    else Entry(None, ChildCodes(b), NextSide(b), None)
  }

  /** Every entry is the raw entry of its own layout, which is reachable. */
  ghost predicate Recorded(res: Tree, side: int)
  {
    forall k :: k in res ==> RecordedAt(res[k], k, side)
  }

  /** `e` is the raw entry of the reachable layout numbered `k`. */
  ghost predicate RecordedAt(e: Entry, k: int, side: int)
  {
    0 <= k < Pow3(FIELD_SIZE) && Balanced(Decode(k)) && e == RawEntry(Decode(k), side)
  }

  /** Every child of an entry is an entry, or waits among `pending`. */
  ghost predicate ClosedUnder(res: Tree, pending: set<int>)
  {
    forall k, j :: k in res && 0 <= j < |res[k].children| ==> res[k].children[j] in res || res[k].children[j] in pending
  }

  function Codes(q: seq<Board>): set<int>
  {
    set x | x in q :: Encode(x)
  }

  /** An upper bound on the layouts still to be visited from one with `k` empty cells. */
  function Weight(k: nat): (w: nat)
    ensures 1 <= w
  {
    if k == 0 then 1 else 1 + k * Weight(k - 1)
  }

  function Mass(q: seq<Board>): nat
  {
    if q == [] then 0 else Weight(Count(q[0], EMPTY)) + Mass(q[1..])
  }

  lemma {:induction false} MassSnoc(q: seq<Board>, x: Board)
    ensures Mass(q + [x]) == Mass(q) + Weight(Count(x, EMPTY))
    decreases |q|
  {
    if q == [] {
      assert (q + [x])[1..] == [];
    } else {
      assert (q + [x])[1..] == q[1..] + [x];
      MassSnoc(q[1..], x);
    }
  }

  function EmptyBoard(): (b: Board)
    ensures ValidBoard(b) && Balanced(b) && Encode(b) == 0
  {
    var b := seq(FIELD_SIZE, _ => EMPTY);
    ZerosEncode(b);
    ZerosCount(b, CROSS);
    ZerosCount(b, NOUGHT);
    b
  }

  lemma {:induction false} ZerosEncode(b: Board)
    requires forall i :: 0 <= i < |b| ==> b[i] == EMPTY
    ensures Encode(b) == 0
    decreases |b|
  {
    if b != [] {
      ZerosEncode(b[..|b| - 1]);
    }
  }

  lemma {:induction false} ZerosCount(b: Board, v: int)
    requires forall i :: 0 <= i < |b| ==> b[i] == EMPTY
    requires v != EMPTY
    ensures Count(b, v) == 0
    decreases |b|
  {
    if b != [] {
      ZerosCount(b[..|b| - 1], v);
    }
  }

  /**
   * `__build_field_layouts_dec` (ai.py:63-161): a worklist walk from the
   * empty layout; the last layout is taken and its children go to the front.
   * Every layout reachable from the empty one ends up recorded with its raw
   * entry, and every child named is recorded too.
   */
  method BuildFieldLayouts(side: int) returns (res: Tree)
    ensures 0 in res
    ensures Recorded(res, side)
    ensures ClosedUnder(res, {})
  {
    res := map[];
    var queue: seq<Board> := [EmptyBoard()];
    assert EmptyBoard() in queue;
    while |queue| > 0
      invariant Walk(res, queue, side)
      decreases Mass(queue)
    {
      res, queue := Visit(res, queue, side);
    }
    assert Codes(queue) == {};
  }

  /** The builder's loop invariant. */
  ghost predicate Walk(res: Tree, queue: seq<Board>, side: int)
  {
    (forall q :: q in queue ==> ValidBoard(q) && Balanced(q)) &&
    Recorded(res, side) &&
    ClosedUnder(res, Codes(queue)) &&
    (0 in res || 0 in Codes(queue))
  }

  /** One turn of the builder's loop (ai.py:136-159). */
  method Visit(res: Tree, queue: seq<Board>, side: int) returns (res': Tree, queue': seq<Board>)
    requires |queue| > 0 && Walk(res, queue, side)
    ensures Walk(res', queue', side) && Mass(queue') < Mass(queue)
  {
    var cur := queue[|queue| - 1];
    var rest := queue[..|queue| - 1];
    assert queue == rest + [cur];
    MassSnoc(rest, cur);
    assert Codes(queue) == Codes(rest) + {Encode(cur)};
    var w := Weight(Count(cur, EMPTY));
    assert Mass(queue) == Mass(rest) + w;
    var dec := Encode(cur);
    DecodeEncode(cur);
    EncodeBound(cur);
    var payout := LayoutPayout(cur, side);
    var mover := NextMoveSide(dec);
    var e;
    if payout.Some? {
      e := Entry(payout, [], mover, None);
      queue' := rest;
    } else {
      var kids, more := Expand(cur, rest);
      e := Entry(if kids == [] then Some(0.0) else None, kids, mover, None);
      queue' := more;
    }
    assert e == RawEntry(cur, side);
    res' := res[dec := e];
    Record(res, dec, e, side, Codes(queue), Codes(rest), Codes(queue'));
  }

  /** Recording a layout's raw entry keeps the builder's invariant. */
  lemma Record(res: Tree, dec: int, e: Entry, side: int, pending: set<int>, rest: set<int>, pending': set<int>)
    requires Recorded(res, side) && ClosedUnder(res, pending) && (0 in res || 0 in pending)
    requires 0 <= dec < Pow3(FIELD_SIZE) && Balanced(Decode(dec)) && e == RawEntry(Decode(dec), side)
    requires pending == rest + {dec} && rest <= pending'
    requires forall j :: 0 <= j < |e.children| ==> e.children[j] in pending'
    ensures Recorded(res[dec := e], side) && ClosedUnder(res[dec := e], pending')
    ensures 0 in res[dec := e] || 0 in pending'
  {
    RecordKeepsRecorded(res, dec, e, side);
    RecordKeepsClosed(res, dec, e, pending, rest, pending');
  }

  lemma RecordKeepsRecorded(res: Tree, dec: int, e: Entry, side: int)
    requires Recorded(res, side)
    requires 0 <= dec < Pow3(FIELD_SIZE) && Balanced(Decode(dec)) && e == RawEntry(Decode(dec), side)
    ensures Recorded(res[dec := e], side)
  {
    var r := res[dec := e];
    forall k | k in r
      ensures RecordedAt(r[k], k, side)
    {
      if k != dec {
        assert r[k] == res[k];
      }
    }
  }

  lemma RecordKeepsClosed(res: Tree, dec: int, e: Entry, pending: set<int>, rest: set<int>, pending': set<int>)
    requires ClosedUnder(res, pending)
    requires pending == rest + {dec} && rest <= pending'
    requires forall j :: 0 <= j < |e.children| ==> e.children[j] in pending'
    ensures ClosedUnder(res[dec := e], pending')
  {
    var r := res[dec := e];
    forall k, j | k in r && 0 <= j < |r[k].children|
      ensures r[k].children[j] in r || r[k].children[j] in pending'
    {
      if k != dec {
        assert r[k] == res[k];
      }
    }
  }

  /**
   * The child loop of `__build_field_layouts_dec` (ai.py:147-155): the
   * children's numbers, each child pushed in front of the queue.
   */
  method Expand(cur: Board, queue: seq<Board>) returns (kids: seq<int>, more: seq<Board>)
    requires ValidBoard(cur) && Balanced(cur)
    requires forall q :: q in queue ==> ValidBoard(q) && Balanced(q)
    ensures kids == ChildCodes(cur)
    ensures forall q :: q in more ==> ValidBoard(q) && Balanced(q)
    ensures Codes(queue) <= Codes(more)
    ensures forall j :: 0 <= j < |kids| ==> kids[j] in Codes(more)
    ensures Mass(more) < Mass(queue) + Weight(Count(cur, EMPTY))
  {
    kids := [];
    more := queue;
    var e := Count(cur, EMPTY);
    var i := 0;
    while i < 9
      invariant 0 <= i <= e
      invariant kids == ChildCodes(cur)[..i]
      invariant forall q :: q in more ==> ValidBoard(q) && Balanced(q)
      invariant Codes(queue) <= Codes(more)
      invariant forall j :: 0 <= j < i ==> kids[j] in Codes(more)
      invariant 0 < e ==> Mass(more) == Mass(queue) + i * Weight(e - 1)
      invariant e == 0 ==> more == queue
    {
      var child := EvolveLayout(cur, i);
      if child.None? {
        break;
      }
      ChildFacts(cur, i);
      var c := child.value;
      assert ([c] + more)[1..] == more;
      assert (i + 1) * Weight(e - 1) == i * Weight(e - 1) + Weight(e - 1);
      kids := kids + [Encode(c)];
      more := [c] + more;
      i := i + 1;
    }
    assert i == e;
  }

  // ---------------------------------------------------------------------
  // The maximin pass
  // ---------------------------------------------------------------------

  /** Number of empty cells of the layout numbered `k`. */
  function Emptiness(k: int): nat
  {
    Count(Decode(k), EMPTY)
  }

  /** Every child is an entry with fewer empty cells: the tree the builder makes. */
  ghost predicate WellFormed(m: Tree)
  {
    forall k, j :: k in m && 0 <= j < |m[k].children| ==> m[k].children[j] in m && Emptiness(m[k].children[j]) < Emptiness(k)
  }

  /**
   * The first strictly greater value wins, starting from -1e99 with no
   * choice (ai.py:195-213): the largest value and the index of its first
   * occurrence.
   */
  function MaxPick(vals: seq<real>): (r: (real, Option<nat>))
    ensures forall i :: 0 <= i < |vals| ==> vals[i] <= r.0
    ensures MAX_START <= r.0
    ensures r.1.None? <==> r.0 == MAX_START && forall i :: 0 <= i < |vals| ==> vals[i] <= MAX_START
    ensures r.1.Some? ==> MAX_START < r.0 && r.1.value < |vals| && vals[r.1.value] == r.0
    ensures r.1.Some? ==> forall i :: 0 <= i < r.1.value ==> vals[i] < r.0
  {
    if vals == [] then (MAX_START, None)
    else
      var p := MaxPick(vals[..|vals| - 1]);
      if vals[|vals| - 1] > p.0 then (vals[|vals| - 1], Some(|vals| - 1)) else p
  }

  /** The smallest value below 1e20, starting from 1e20 (ai.py:230-240). */
  function MinOf(vals: seq<real>): (r: real)
    ensures r <= MIN_START && forall i :: 0 <= i < |vals| ==> r <= vals[i]
    ensures r == MIN_START || exists i :: 0 <= i < |vals| && vals[i] == r
  {
    if vals == [] then MIN_START
    else
      var p := MinOf(vals[..|vals| - 1]);
      if vals[|vals| - 1] < p then vals[|vals| - 1] else p
  }

  /** The children's ranks: payout + 1, scaled by the best payout + 1 when that is positive. */
  function Ranks(vals: seq<real>, top: real): (r: seq<real>)
    ensures |r| == |vals|
  {
    seq(|vals|, i requires 0 <= i < |vals| => if top > -1.0 then (vals[i] + 1.0) / (top + 1.0) else vals[i] + 1.0)
  }

  /**
   * An entry once its children's payouts `vals` are known: where the tree's
   * side moves it takes the largest and ranks the children, otherwise it
   * takes the smallest; a decided entry stays as it is.
   */
  function Resolve(e: Entry, vals: seq<real>, side: int): (r: Entry)
    requires |vals| == |e.children|
    ensures r.payout.Some? && r.children == e.children && r.mover == e.mover
    ensures e.payout.Some? ==> r == e
  {
    if e.payout.Some? then e
    else if e.mover == side then
      var p := MaxPick(vals);
      var best := if p.1.Some? then Some(e.children[p.1.value]) else None;
      e.(payout := Some(p.0), choice := Some(Choice(best, Ranks(vals, p.0))))
    else e.(payout := Some(MinOf(vals)))
  }

  /** The payouts of the entries `ks` once resolved. */
  function Values(m: Tree, ks: seq<int>, side: int, bound: nat): (vs: seq<real>)
    requires WellFormed(m)
    requires forall i :: 0 <= i < |ks| ==> ks[i] in m && Emptiness(ks[i]) < bound
    ensures |vs| == |ks|
    ensures forall i :: 0 <= i < |ks| ==> Solved(m, ks[i], side).payout == Some(vs[i])
    decreases bound, 0
  {
    seq(|ks|, i requires 0 <= i < |ks| => Solved(m, ks[i], side).payout.value)
  }

  /** Wald's maximin entry of `k`: resolved from its children's resolved payouts. */
  function Solved(m: Tree, k: int, side: int): (e: Entry)
    requires WellFormed(m) && k in m
    ensures e.payout.Some? && e.children == m[k].children && e.mover == m[k].mover
    decreases Emptiness(k), 1
  {
    Resolve(m[k], Values(m, m[k].children, side, Emptiness(k)), side)
  }

  function ChildValues(m: Tree, k: int, side: int): (vs: seq<real>)
    requires WellFormed(m) && k in m
    ensures |vs| == |m[k].children|
  {
    Values(m, m[k].children, side, Emptiness(k))
  }

  predicate Distinct(q: seq<int>)
  {
    forall i, j :: 0 <= i < j < |q| ==> q[i] != q[j]
  }

  /** Every child of `k` has its payout. */
  predicate Ready(m: Tree, k: int)
  {
    k in m && forall j :: 0 <= j < |m[k].children| ==> m[k].children[j] in m && m[m[k].children[j]].payout.Some?
  }

  /** How many layouts at the end of the queue must be put back before one can be resolved. */
  function Unready(m: Tree, q: seq<int>): nat
  {
    if q == [] || Ready(m, q[|q| - 1]) then 0 else 1 + Unready(m, q[..|q| - 1])
  }

  /** Every entry keeps the children and the mover of its raw layout. */
  ghost predicate Shaped(raw: Tree, m: Tree)
    requires m.Keys == raw.Keys
  {
    forall k :: k in m ==> m[k].children == raw[k].children && m[k].mover == raw[k].mover
  }

  /** Every entry with a payout holds its maximin value. */
  ghost predicate SolvedOnes(raw: Tree, m: Tree, side: int)
    requires WellFormed(raw) && m.Keys == raw.Keys
  {
    forall k :: k in m && m[k].payout.Some? ==> m[k] == Solved(raw, k, side)
  }

  /** Every open entry is open in the raw tree, and untouched unless it is the side's own move. */
  ghost predicate OpenOnes(raw: Tree, m: Tree, side: int)
    requires m.Keys == raw.Keys
  {
    forall k :: k in m && m[k].payout.None? ==> raw[k].payout.None? && (m[k].mover != side ==> m[k] == raw[k])
  }

  /** The queue holds exactly the open entries. */
  ghost predicate Queued(m: Tree, q: seq<int>)
  {
    forall k :: k in q <==> k in m && m[k].payout.None?
  }

  /** The maximin loop's invariant. */
  ghost predicate Progress(raw: Tree, m: Tree, q: seq<int>, side: int)
  {
    WellFormed(raw) && m.Keys == raw.Keys && Distinct(q) &&
    Shaped(raw, m) && SolvedOnes(raw, m, side) && OpenOnes(raw, m, side) && Queued(m, q)
  }

  /**
   * `build_maximin_decision_tree` (ai.py:165-246). Without raw layouts there
   * is no tree. Otherwise every open layout is taken from the end of the
   * queue; when one of its children is still open it goes back to the front,
   * else it is resolved. Every entry ends as its maximin entry.
   */
  method BuildMaximinTree(side: int, raw: Option<Tree>) returns (r: Option<Tree>)
    requires raw.Some? ==> WellFormed(raw.value)
    ensures r.Some? <==> raw.Some?
    ensures raw.Some? ==> r.value.Keys == raw.value.Keys
    ensures raw.Some? ==> forall k :: k in raw.value ==> r.value[k] == Solved(raw.value, k, side)
  {
    if raw.None? {
      return None;
    }
    var m := raw.value;
    var q := OpenKeys(m);
    forall k | k in m && m[k].payout.Some?
      ensures m[k] == Solved(raw.value, k, side)
    {
    }
    while |q| > 0
      invariant Progress(raw.value, m, q, side)
      decreases |q|, Unready(m, q)
    {
      m, q := Settle(raw.value, m, q, side);
    }
    r := Some(m);
  }

  /** The open layouts, in the dictionary's order, which the model leaves free. */
  method OpenKeys(m: Tree) returns (q: seq<int>)
    ensures Distinct(q)
    ensures forall k :: k in q <==> k in m && m[k].payout.None?
  {
    q := [];
    var left := m.Keys;
    while left != {}
      invariant left <= m.Keys && Distinct(q)
      invariant forall k :: k in q <==> k in m && k !in left && m[k].payout.None?
      decreases |left|
    {
      NonEmptyHas(left);
      var k :| k in left;
      if m[k].payout.None? {
        q := q + [k];
      }
      left := left - {k};
    }
  }

  lemma NonEmptyHas(s: set<int>)
    requires s != {}
    ensures exists k :: k in s
  {
    if forall k :: k !in s {
    }
  }

  /** One turn of the maximin loop (ai.py:182-243). */
  method Settle(raw: Tree, m: Tree, q: seq<int>, side: int) returns (m': Tree, q': seq<int>)
    requires |q| > 0 && Progress(raw, m, q, side)
    ensures Progress(raw, m', q', side)
    ensures |q'| < |q| || (|q'| == |q| && Unready(m', q') < Unready(m, q))
  {
    var cur := q[|q| - 1];
    var rest := q[..|q| - 1];
    assert q == rest + [cur];
    KnownValues(raw, m, q, cur, side);
    if m[cur].mover == side {
      m', q' := SettleMine(raw, m, q, cur, rest, side);
    } else {
      m', q' := SettleTheirs(raw, m, q, cur, rest, side);
    }
  }

  /** A layout where the tree's side moves (ai.py:184-220). */
  method SettleMine(raw: Tree, m: Tree, q: seq<int>, cur: int, rest: seq<int>, side: int) returns (m': Tree, q': seq<int>)
    requires Progress(raw, m, q, side) && q == rest + [cur] && m[cur].mover == side
    requires forall j :: 0 <= j < |m[cur].children| ==>
      m[cur].children[j] in m &&
      (m[m[cur].children[j]].payout.Some? ==> m[m[cur].children[j]].payout.value == ChildValues(raw, cur, side)[j])
    ensures Progress(raw, m', q', side)
    ensures |q'| < |q| || (|q'| == |q| && Unready(m', q') < Unready(m, q))
  {
    var e := m[cur];
    ghost var vals := ChildValues(raw, cur, side);
    var done, top, best, ranks := PickMax(m, e.children, vals);
    if done {
      var e' := e.(payout := Some(top), choice := Some(Choice(best, Scaled(ranks, top))));
      assert e' == Solved(raw, cur, side);
      m', q' := m[cur := e'], rest;
      Resolved(raw, m, q, cur, rest, e', side);
    } else {
      var e' := e.(choice := Some(Choice(None, ranks)));
      m', q' := m[cur := e'], [cur] + rest;
      PutBack(raw, m, q, cur, rest, e', side);
    }
  }

  /** A layout where the opponent moves (ai.py:222-243). */
  method SettleTheirs(raw: Tree, m: Tree, q: seq<int>, cur: int, rest: seq<int>, side: int) returns (m': Tree, q': seq<int>)
    requires Progress(raw, m, q, side) && q == rest + [cur] && m[cur].mover != side
    requires forall j :: 0 <= j < |m[cur].children| ==>
      m[cur].children[j] in m &&
      (m[m[cur].children[j]].payout.Some? ==> m[m[cur].children[j]].payout.value == ChildValues(raw, cur, side)[j])
    ensures Progress(raw, m', q', side)
    ensures |q'| < |q| || (|q'| == |q| && Unready(m', q') < Unready(m, q))
  {
    var e := m[cur];
    ghost var vals := ChildValues(raw, cur, side);
    var done, low := PickMin(m, e.children, vals);
    if done {
      var e' := e.(payout := Some(low));
      assert e' == Solved(raw, cur, side);
      m', q' := m[cur := e'], rest;
      Resolved(raw, m, q, cur, rest, e', side);
    } else {
      assert m[cur := e] == m;
      m', q' := m, [cur] + rest;
      PutBack(raw, m, q, cur, rest, e, side);
    }
  }

  /** `ranks /= max_payout + 1` when the best payout is above -1 (ai.py:219-220). */
  function Scaled(ranks: seq<real>, top: real): (r: seq<real>)
    ensures |r| == |ranks|
  {
    if top > -1.0 then seq(|ranks|, i requires 0 <= i < |ranks| => ranks[i] / (top + 1.0)) else ranks
  }

  /** Each resolved child of `cur` carries its maximin payout. */
  lemma KnownValues(raw: Tree, m: Tree, q: seq<int>, cur: int, side: int)
    requires Progress(raw, m, q, side) && cur in m
    ensures forall j :: 0 <= j < |m[cur].children| ==>
      m[cur].children[j] in m &&
      (m[m[cur].children[j]].payout.Some? ==> m[m[cur].children[j]].payout.value == ChildValues(raw, cur, side)[j])
  {
    forall j | 0 <= j < |m[cur].children|
      ensures m[cur].children[j] in m &&
        (m[m[cur].children[j]].payout.Some? ==> m[m[cur].children[j]].payout.value == ChildValues(raw, cur, side)[j])
    {
      var c := raw[cur].children[j];
      assert c in raw;
      if m[c].payout.Some? {
        assert m[c] == Solved(raw, c, side);
      }
    }
  }

  /**
   * The child loop where the tree's side moves (ai.py:190-213): the first
   * largest payout, the ranks payout + 1, or a stop at the first open child.
   */
  method PickMax(m: Tree, kids: seq<int>, ghost vals: seq<real>) returns (done: bool, top: real, best: Option<int>, ranks: seq<real>)
    requires |vals| == |kids|
    requires forall j :: 0 <= j < |kids| ==> kids[j] in m && (m[kids[j]].payout.Some? ==> m[kids[j]].payout.value == vals[j])
    ensures |ranks| == |kids|
    ensures done <==> forall j :: 0 <= j < |kids| ==> m[kids[j]].payout.Some?
    ensures done ==> top == MaxPick(vals).0
    ensures done ==> best == (if MaxPick(vals).1.Some? then Some(kids[MaxPick(vals).1.value]) else None)
    ensures done ==> Scaled(ranks, top) == Ranks(vals, top)
  {
    ranks := seq(|kids|, _ => 0.0);
    top, best := MAX_START, None;
    ghost var at: Option<nat> := None;
    var i := 0;
    while i < |kids|
      invariant 0 <= i <= |kids| && |ranks| == |kids|
      invariant forall j :: 0 <= j < i ==> m[kids[j]].payout.Some?
      invariant (top, at) == MaxPick(vals[..i])
      invariant best == (if at.Some? then Some(kids[at.value]) else None)
      invariant forall j :: 0 <= j < i ==> ranks[j] == vals[j] + 1.0
    {
      var c := kids[i];
      if m[c].payout.None? {
        return false, top, best, ranks;
      }
      var v := m[c].payout.value;
      MaxPickStep(vals, i);
      if v > top {
        top, best, at := v, Some(c), Some(i);
      }
      ranks := ranks[i := v + 1.0];
      i := i + 1;
    }
    assert vals[..i] == vals;
    ScaledRanks(ranks, vals, top);
    done := true;
  }

  /** Scaling the ranks payout + 1 gives the children's ranks. */
  lemma ScaledRanks(ranks: seq<real>, vals: seq<real>, top: real)
    requires |ranks| == |vals| && forall j :: 0 <= j < |vals| ==> ranks[j] == vals[j] + 1.0
    ensures Scaled(ranks, top) == Ranks(vals, top)
  {
  }

  /** One more value for the running maximum. */
  lemma MaxPickStep(vals: seq<real>, i: nat)
    requires i < |vals|
    ensures MaxPick(vals[..i + 1]) ==
      if vals[i] > MaxPick(vals[..i]).0 then (vals[i], Some(i)) else MaxPick(vals[..i])
  {
    assert vals[..i + 1][..i] == vals[..i];
  }

  /** The child loop where the opponent moves (ai.py:230-240). */
  method PickMin(m: Tree, kids: seq<int>, ghost vals: seq<real>) returns (done: bool, low: real)
    requires |vals| == |kids|
    requires forall j :: 0 <= j < |kids| ==> kids[j] in m && (m[kids[j]].payout.Some? ==> m[kids[j]].payout.value == vals[j])
    ensures done <==> forall j :: 0 <= j < |kids| ==> m[kids[j]].payout.Some?
    ensures done ==> low == MinOf(vals)
  {
    low := MIN_START;
    var i := 0;
    while i < |kids|
      invariant 0 <= i <= |kids|
      invariant forall j :: 0 <= j < i ==> m[kids[j]].payout.Some?
      invariant low == MinOf(vals[..i])
    {
      var c := kids[i];
      if m[c].payout.None? {
        return false, low;
      }
      assert vals[..i + 1][..i] == vals[..i];
      if m[c].payout.value < low {
        low := m[c].payout.value;
      }
      i := i + 1;
    }
    assert vals[..i] == vals;
    done := true;
  }

  /** Resolving the last layout of the queue keeps the invariant. */
  lemma Resolved(raw: Tree, m: Tree, q: seq<int>, cur: int, rest: seq<int>, e: Entry, side: int)
    requires Progress(raw, m, q, side) && q == rest + [cur]
    requires e == Solved(raw, cur, side)
    ensures Progress(raw, m[cur := e], rest, side)
  {
    DistinctPop(q, cur, rest);
    ResolvedEntries(raw, m, q, cur, e, side);
    ResolvedQueue(m, q, cur, rest, e);
  }

  /** After the last layout of the queue is resolved, every entry still meets the invariant. */
  lemma ResolvedEntries(raw: Tree, m: Tree, q: seq<int>, cur: int, e: Entry, side: int)
    requires Progress(raw, m, q, side) && cur in m
    requires e == Solved(raw, cur, side)
    ensures m[cur := e].Keys == raw.Keys
    ensures Shaped(raw, m[cur := e]) && SolvedOnes(raw, m[cur := e], side) && OpenOnes(raw, m[cur := e], side)
  {
    var m' := m[cur := e];
    forall k | k in m'
      ensures m'[k].children == raw[k].children && m'[k].mover == raw[k].mover
      ensures m'[k].payout.Some? ==> m'[k] == Solved(raw, k, side)
      ensures m'[k].payout.None? ==> raw[k].payout.None? && (m'[k].mover != side ==> m'[k] == raw[k])
    {
      if k != cur {
        assert m'[k] == m[k];
      }
    }
  }

  /** After the last layout of the queue is resolved, the rest of the queue holds exactly the open layouts. */
  lemma ResolvedQueue(m: Tree, q: seq<int>, cur: int, rest: seq<int>, e: Entry)
    requires Queued(m, q)
    requires q == rest + [cur] && cur !in rest && e.payout.Some?
    ensures Queued(m[cur := e], rest)
  {
    forall k
      ensures k in rest <==> k in m[cur := e] && m[cur := e][k].payout.None?
    {
      if k != cur {
        assert k in q <==> k in rest;
      }
    }
  }


  lemma DistinctPop(q: seq<int>, cur: int, rest: seq<int>)
    requires Distinct(q) && q == rest + [cur]
    ensures Distinct(rest) && cur !in rest
  {
    forall i | 0 <= i < |rest|
      ensures rest[i] != cur
    {
      assert rest[i] == q[i] && cur == q[|rest|];
    }
    forall i, j | 0 <= i < j < |rest|
      ensures rest[i] != rest[j]
    {
      assert rest[i] == q[i] && rest[j] == q[j];
    }
  }

  /** Putting the last layout back in front keeps the invariant and brings a resolvable one nearer. */
  lemma PutBack(raw: Tree, m: Tree, q: seq<int>, cur: int, rest: seq<int>, e: Entry, side: int)
    requires Progress(raw, m, q, side) && q == rest + [cur] && !Ready(m, cur)
    requires e.payout.None? && e.children == m[cur].children && e.mover == m[cur].mover
    requires e.mover != side ==> e == m[cur]
    ensures Progress(raw, m[cur := e], [cur] + rest, side)
    ensures Unready(m[cur := e], [cur] + rest) < Unready(m, q)
  {
    PutBackKeeps(raw, m, q, cur, rest, e, side);
    var w := SomeReady(raw, m, q, side);
    PutBackNearer(m, q, cur, rest, e, w);
  }

  /** With a ready layout further up the queue, putting `cur` back shortens the unready tail. */
  lemma PutBackNearer(m: Tree, q: seq<int>, cur: int, rest: seq<int>, e: Entry, w: nat)
    requires q == rest + [cur] && cur in m && !Ready(m, cur)
    requires e.payout == m[cur].payout && e.children == m[cur].children
    requires w < |q| && Ready(m, q[w])
    ensures Unready(m[cur := e], [cur] + rest) < Unready(m, q)
  {
    assert q[|q| - 1] == cur;
    var m' := m[cur := e];
    forall k | k in m'
      ensures m'[k].children == m[k].children && m'[k].payout == m[k].payout
    {
      if k != cur {
        assert m'[k] == m[k];
      }
    }
    assert rest[w] == q[w];
    UnreadyFrame(m, m', [cur] + rest);
    UnreadyCons(m, cur, rest, w);
    assert q[..|q| - 1] == rest;
  }

  lemma PutBackKeeps(raw: Tree, m: Tree, q: seq<int>, cur: int, rest: seq<int>, e: Entry, side: int)
    requires Progress(raw, m, q, side) && q == rest + [cur]
    requires e.payout.None? && e.children == m[cur].children && e.mover == m[cur].mover
    requires e.mover != side ==> e == m[cur]
    ensures Progress(raw, m[cur := e], [cur] + rest, side)
  {
    var m', q' := m[cur := e], [cur] + rest;
    forall k | k in m'
      ensures m'[k].children == raw[k].children && m'[k].mover == raw[k].mover
      ensures m'[k].payout.Some? ==> m'[k] == Solved(raw, k, side)
      ensures m'[k].payout.None? ==> raw[k].payout.None? && (m'[k].mover != side ==> m'[k] == raw[k])
      ensures k in q' <==> m'[k].payout.None?
    {
      if k != cur {
        assert m'[k] == m[k];
      }
    }
    forall i, j | 0 <= i < j < |q'|
      ensures q'[i] != q'[j]
    {
      if i == 0 {
        assert q'[i] == q[|q| - 1] && q'[j] == q[j - 1];
      } else {
        assert q'[i] == q[i - 1] && q'[j] == q[j - 1];
      }
    }
  }

  /** Readiness depends only on the children and the payouts. */
  lemma {:induction false} UnreadyFrame(m: Tree, m': Tree, q: seq<int>)
    requires m.Keys == m'.Keys
    requires forall k :: k in m' ==> m'[k].children == m[k].children && m'[k].payout == m[k].payout
    ensures Unready(m', q) == Unready(m, q)
    decreases |q|
  {
    if q != [] {
      UnreadyFrame(m, m', q[..|q| - 1]);
    }
  }

  lemma {:induction false} UnreadyCons(m: Tree, x: int, p: seq<int>, w: nat)
    requires w < |p| && Ready(m, p[w])
    ensures Unready(m, [x] + p) == Unready(m, p)
    decreases |p|
  {
    var n := |p|;
    assert ([x] + p)[n] == p[n - 1];
    if !Ready(m, p[n - 1]) {
      assert ([x] + p)[..n] == [x] + p[..n - 1];
      assert p[..n - 1][w] == p[w];
      UnreadyCons(m, x, p[..n - 1], w);
    }
  }

  /** Some open layout can be resolved: one with the fewest empty cells. */
  lemma SomeReady(raw: Tree, m: Tree, q: seq<int>, side: int) returns (w: nat)
    requires |q| > 0 && Progress(raw, m, q, side)
    ensures w < |q| && Ready(m, q[w])
  {
    var es := seq(|q|, i requires 0 <= i < |q| => Emptiness(q[i]));
    w := Fullest(es);
    var k := q[w];
    assert k in m;
    forall j | 0 <= j < |m[k].children|
      ensures m[k].children[j] in m && Emptiness(m[k].children[j]) < Emptiness(k)
    {
      assert m[k].children[j] == raw[k].children[j];
    }
    forall i | 0 <= i < |q|
      ensures Emptiness(k) <= Emptiness(q[i])
    {
      assert es[i] == Emptiness(q[i]) && es[w] == Emptiness(k);
    }
    assert forall k :: k in m && m[k].payout.None? ==> k in q;
    ReadyIfFullest(m, q, w);
  }

  lemma ReadyIfFullest(m: Tree, q: seq<int>, w: nat)
    requires w < |q| && q[w] in m
    requires forall k :: k in m && m[k].payout.None? ==> k in q
    requires forall j :: 0 <= j < |m[q[w]].children| ==>
      m[q[w]].children[j] in m && Emptiness(m[q[w]].children[j]) < Emptiness(q[w])
    requires forall i :: 0 <= i < |q| ==> Emptiness(q[w]) <= Emptiness(q[i])
    ensures Ready(m, q[w])
  {
    var k := q[w];
    forall j | 0 <= j < |m[k].children|
      ensures m[m[k].children[j]].payout.Some?
    {
    }
  }

  /** The index of a smallest entry. */
  function Fullest(es: seq<nat>): (i: nat)
    requires |es| > 0
    ensures i < |es| && forall j :: 0 <= j < |es| ==> es[i] <= es[j]
  {
    if |es| == 1 then 0
    else
      var i := Fullest(es[..|es| - 1]);
      if es[|es| - 1] < es[i] then |es| - 1 else i
  }

  // ---------------------------------------------------------------------
  // What the trees promise
  // ---------------------------------------------------------------------

  predicate IsOutcome(v: real)
  {
    v == -1.0 || v == 0.0 || v == 1.0
  }

  /** Decided payouts are wins, draws or losses, and open layouts have children. */
  ghost predicate Sane(m: Tree)
  {
    forall k :: k in m ==>
      (m[k].payout.Some? ==> IsOutcome(m[k].payout.value)) &&
      (m[k].payout.None? ==> |m[k].children| > 0)
  }

  lemma {:induction false} PayoutFromOutcome(b: Board, side: int, k: nat)
    requires |b| == FIELD_SIZE && k <= 8
    ensures PayoutFrom(b, side, k).Some? ==> IsOutcome(PayoutFrom(b, side, k).value)
    decreases 8 - k
  {
    if k < 8 {
      PayoutFromOutcome(b, side, k + 1);
    }
  }

  /** The raw builder's tree is one the maximin pass accepts. */
  lemma BuiltTreeIsWellFormed(res: Tree, side: int)
    requires Recorded(res, side) && ClosedUnder(res, {})
    ensures WellFormed(res) && Sane(res)
  {
    forall k, j | k in res && 0 <= j < |res[k].children|
      ensures res[k].children[j] in res && Emptiness(res[k].children[j]) < Emptiness(k)
    {
      assert RecordedAt(res[k], k, side);
      FewerEmpties(res[k], k, side, j);
    }
    forall k | k in res
      ensures res[k].payout.Some? ==> IsOutcome(res[k].payout.value)
    {
      PayoutFromOutcome(Decode(k), side, 0);
    }
  }

  /** A child of a recorded layout has one empty cell fewer. */
  lemma FewerEmpties(e: Entry, k: int, side: int, j: nat)
    requires RecordedAt(e, k, side) && j < |e.children|
    ensures Emptiness(e.children[j]) < Emptiness(k)
  {
    var b := Decode(k);
    assert e.children == ChildCodes(b);
    ChildFacts(b, j);
    DecodeEncode(Child(b, j));
  }

  /** Every maximin payout of a sane tree is a win, a draw or a loss. */
  lemma {:induction false} SolvedIsOutcome(m: Tree, k: int, side: int)
    requires WellFormed(m) && Sane(m) && k in m
    ensures IsOutcome(Solved(m, k, side).payout.value)
    decreases Emptiness(k)
  {
    var vals := ChildValues(m, k, side);
    forall j | 0 <= j < |vals|
      ensures IsOutcome(vals[j])
    {
      SolvedIsOutcome(m, m[k].children[j], side);
    }
    if m[k].payout.None? {
      assert MAX_START < vals[0] < MIN_START;
    }
  }

  /**
   * Wald's maximin at an open layout of a sane tree: where the tree's side
   * moves, the payout is the largest child payout and the best move is the
   * first child reaching it; where the opponent moves, it is the smallest.
   */
  lemma SolvedIsMaximin(m: Tree, k: int, side: int)
    requires WellFormed(m) && Sane(m) && k in m && m[k].payout.None?
    ensures var v, vals := Solved(m, k, side).payout.value, ChildValues(m, k, side);
      (m[k].mover == side ==> (forall j :: 0 <= j < |vals| ==> vals[j] <= v)) &&
      (m[k].mover != side ==> (forall j :: 0 <= j < |vals| ==> v <= vals[j])) &&
      (exists j :: 0 <= j < |vals| && vals[j] == v)
    ensures m[k].mover == side ==>
      var e, vals := Solved(m, k, side), ChildValues(m, k, side);
      e.choice.Some? && e.choice.value.best.Some? &&
      exists j :: 0 <= j < |vals| && e.choice.value.best.value == m[k].children[j] && vals[j] == e.payout.value &&
        forall i :: 0 <= i < j ==> vals[i] < vals[j]
  {
    var vals := ChildValues(m, k, side);
    ChildOutcomes(m, k, side);
    ResolvedMaximin(m[k], vals, side);
    assert Solved(m, k, side) == Resolve(m[k], vals, side);
  }

  /** The children of an entry of a sane tree have outcomes as payouts. */
  lemma ChildOutcomes(m: Tree, k: int, side: int)
    requires WellFormed(m) && Sane(m) && k in m
    ensures forall j :: 0 <= j < |m[k].children| ==> IsOutcome(ChildValues(m, k, side)[j])
  {
    var vals := ChildValues(m, k, side);
    forall j | 0 <= j < |vals|
      ensures IsOutcome(vals[j])
    {
      SolvedIsOutcome(m, m[k].children[j], side);
    }
  }

  /** Resolving an open entry from outcome payouts `vals` takes their maximum or minimum. */
  lemma ResolvedMaximin(e: Entry, vals: seq<real>, side: int)
    requires e.payout.None? && |vals| == |e.children| > 0
    requires forall j :: 0 <= j < |vals| ==> IsOutcome(vals[j])
    ensures var v := Resolve(e, vals, side).payout.value;
      (e.mover == side ==> (forall j :: 0 <= j < |vals| ==> vals[j] <= v)) &&
      (e.mover != side ==> (forall j :: 0 <= j < |vals| ==> v <= vals[j])) &&
      (exists j :: 0 <= j < |vals| && vals[j] == v)
    ensures e.mover == side ==>
      var r := Resolve(e, vals, side);
      r.choice.Some? && r.choice.value.best.Some? &&
      exists j :: 0 <= j < |vals| && r.choice.value.best.value == e.children[j] && vals[j] == r.payout.value &&
        forall i :: 0 <= i < j ==> vals[i] < vals[j]
  {
    assert MAX_START < vals[0] < MIN_START;
    if e.mover == side {
      var p := MaxPick(vals);
      assert vals[p.1.value] == p.0;
    }
  }

  /**
   * The ranks of a layout where the tree's side moves lie between 0 and 1
   * (ai.py:25); the best move has rank 1 unless every move loses, in which
   * case every rank is 0.
   */
  lemma RanksAreScores(m: Tree, k: int, side: int)
    requires WellFormed(m) && Sane(m) && k in m && m[k].payout.None? && m[k].mover == side
    ensures var e := Solved(m, k, side);
      e.choice.Some? && |e.choice.value.ranks| == |m[k].children| &&
      (forall j :: 0 <= j < |m[k].children| ==> 0.0 <= e.choice.value.ranks[j] <= 1.0) &&
      (e.payout.value > -1.0 ==>
        exists j :: 0 <= j < |m[k].children| && Some(m[k].children[j]) == e.choice.value.best && e.choice.value.ranks[j] == 1.0) &&
      (e.payout.value == -1.0 ==> forall j :: 0 <= j < |m[k].children| ==> e.choice.value.ranks[j] == 0.0)
  {
    var vals := ChildValues(m, k, side);
    ChildOutcomes(m, k, side);
    ResolvedRanks(m[k], vals, side);
    assert Solved(m, k, side) == Resolve(m[k], vals, side);
  }

  /** The ranks an open entry of the tree's side gets from outcome payouts `vals`. */
  lemma ResolvedRanks(e: Entry, vals: seq<real>, side: int)
    requires e.payout.None? && e.mover == side && |vals| == |e.children| > 0
    requires forall j :: 0 <= j < |vals| ==> IsOutcome(vals[j])
    ensures var r := Resolve(e, vals, side);
      r.choice.Some? && |r.choice.value.ranks| == |e.children| &&
      (forall j :: 0 <= j < |e.children| ==> 0.0 <= r.choice.value.ranks[j] <= 1.0) &&
      (r.payout.value > -1.0 ==>
        exists j :: 0 <= j < |e.children| && Some(e.children[j]) == r.choice.value.best && r.choice.value.ranks[j] == 1.0) &&
      (r.payout.value == -1.0 ==> forall j :: 0 <= j < |e.children| ==> r.choice.value.ranks[j] == 0.0)
  {
    assert MAX_START < vals[0];
    var p := MaxPick(vals);
    var rk := Ranks(vals, p.0);
    forall j | 0 <= j < |vals|
      ensures 0.0 <= rk[j] <= 1.0 && (p.0 == -1.0 ==> rk[j] == 0.0)
    {
      RankOfOutcome(vals[j], p.0);
    }
    var w := p.1.value;
    RankOfOutcome(vals[w], p.0);
    assert rk[w] == 1.0 || p.0 == -1.0;
  }

  /** The rank of a child payout `v` under the best payout `top`, both outcomes. */
  lemma RankOfOutcome(v: real, top: real)
    requires IsOutcome(v) && IsOutcome(top) && v <= top
    ensures var r := if top > -1.0 then (v + 1.0) / (top + 1.0) else v + 1.0;
      0.0 <= r <= 1.0 && (v == top && top > -1.0 ==> r == 1.0) && (top == -1.0 ==> r == 0.0)
  {
    if top == 1.0 {
      assert (v + 1.0) / 2.0 == (if v == -1.0 then 0.0 else if v == 0.0 then 0.5 else 1.0);
    } else if top == 0.0 {
      assert (v + 1.0) / 1.0 == v + 1.0;
    }
  }

  // ---------------------------------------------------------------------
  // The nought tree
  // ---------------------------------------------------------------------

  function Inverted(m: Tree): (r: Tree)
    ensures r.Keys == m.Keys
  {
    map k | k in m :: m[k].(payout := Flip(m[k].payout))
  }

  /**
   * `__build_and_store_dec_layouts` (ai.py:288-309, file caching left out):
   * the nought layouts are a copy of the cross layouts with every win and
   * loss turned round.
   */
  method InvertPayouts(m: Tree) returns (r: Tree)
    ensures r == Inverted(m)
  {
    r := m;
    var left := m.Keys;
    while left != {}
      invariant left <= m.Keys && r.Keys == m.Keys
      invariant forall k :: k in m ==> r[k] == if k in left then m[k] else m[k].(payout := Flip(m[k].payout))
      decreases |left|
    {
      NonEmptyHas(left);
      var k :| k in left;
      var p := r[k].payout;
      if p.Some? && Abs(p.value) == 1.0 {
        r := r[k := r[k].(payout := Some(-p.value))];
      }
      left := left - {k};
    }
    assert forall k :: k in m ==> r[k] == Inverted(m)[k];
  }

  /** Turning the payouts round twice gives the tree back. */
  lemma InvertedTwice(m: Tree)
    ensures Inverted(Inverted(m)) == m
  {
    forall k | k in m
      ensures Inverted(Inverted(m))[k] == m[k]
    {
    }
  }

  /** The inverted cross tree is the tree the builder would record for nought. */
  lemma InvertedIsNoughtTree(res: Tree)
    requires Recorded(res, CROSS) && ClosedUnder(res, {})
    ensures Recorded(Inverted(res), NOUGHT) && ClosedUnder(Inverted(res), {})
  {
    var r := Inverted(res);
    forall k | k in r
      ensures 0 <= k < Pow3(FIELD_SIZE) && Balanced(Decode(k)) && r[k] == RawEntry(Decode(k), NOUGHT)
    {
      assert r[k] == res[k].(payout := Flip(res[k].payout));
      RawEntrySwap(Decode(k));
    }
    forall k, j | k in r && 0 <= j < |r[k].children|
      ensures r[k].children[j] in r
    {
      assert r[k].children == res[k].children;
    }
  }

  lemma RawEntrySwap(b: Board)
    requires ValidBoard(b)
    ensures RawEntry(b, NOUGHT) == RawEntry(b, CROSS).(payout := Flip(RawEntry(b, CROSS).payout))
  {
    PayoutSwap(b);
  }

  /**
   * `load_cached_maximin_tree` without its cache files (ai.py:249-285): the
   * maximin trees of both sides, built from the cross layouts and their
   * inversion. Both cover every reachable layout and every entry in them is
   * its maximin entry.
   */
  method BuildDecisionTrees() returns (cross: Tree, nought: Tree, ghost rawCross: Tree, ghost rawNought: Tree)
    ensures Recorded(rawCross, CROSS) && ClosedUnder(rawCross, {}) && 0 in rawCross
    ensures Recorded(rawNought, NOUGHT) && ClosedUnder(rawNought, {}) && rawNought == Inverted(rawCross)
    ensures WellFormed(rawCross) && Sane(rawCross) && WellFormed(rawNought) && Sane(rawNought)
    ensures cross.Keys == rawCross.Keys == nought.Keys
    ensures forall k :: k in cross ==> cross[k] == Solved(rawCross, k, CROSS) && nought[k] == Solved(rawNought, k, NOUGHT)
  {
    var rc := BuildFieldLayouts(CROSS);
    var inv := InvertPayouts(rc);
    rawCross, rawNought := rc, inv;
    InvertedIsNoughtTree(rawCross);
    BuiltTreeIsWellFormed(rawCross, CROSS);
    BuiltTreeIsWellFormed(rawNought, NOUGHT);
    var c := BuildMaximinTree(CROSS, Some(rc));
    var n := BuildMaximinTree(NOUGHT, Some(inv));
    cross, nought := c.value, n.value;
  }

  // ---------------------------------------------------------------------
  // Moving and ranking
  // ---------------------------------------------------------------------

  /** A layout as the game's field: cell codes halved back to nominals. */
  function Nominals(b: Board): (f: seq<real>)
    ensures |f| == |b|
  {
    seq(|b|, i requires 0 <= i < |b| => (b[i] as real) * 0.5)
  }

  /** `np.dot(field * 2, 3^i)` on a field of reals. */
  function FieldDot(f: seq<real>): real
  {
    if f == [] then 0.0 else FieldDot(f[..|f| - 1]) + f[|f| - 1] * 2.0 * (Pow3(|f| - 1) as real)
  }

  /** Python's `int` of a float: truncation toward zero. */
  function Trunc(x: real): (n: int)
    ensures (n as real) <= x < (n as real) + 1.0 || (x < 0.0 && (n as real) - 1.0 < x <= (n as real))
  {
    if x >= 0.0 then x.Floor else -((-x).Floor)
  }

  /** `__ndarray_to_dec_layout(field * 2)`: the number of a field. */
  function FieldNumber(f: seq<real>): int
  {
    Trunc(FieldDot(f))
  }

  lemma {:induction false} FieldDotOfNominals(b: Board)
    ensures FieldDot(Nominals(b)) == Encode(b) as real
    decreases |b|
  {
    if b != [] {
      var n := |b|;
      assert Nominals(b)[..n - 1] == Nominals(b[..n - 1]);
      FieldDotOfNominals(b[..n - 1]);
      assert Nominals(b)[n - 1] * 2.0 == b[n - 1] as real;
      assert (b[n - 1] * Pow3(n - 1)) as real == (b[n - 1] as real) * (Pow3(n - 1) as real);
    }
  }

  /** The field of a layout is numbered like the layout. */
  lemma FieldNumberOfNominals(b: Board)
    ensures FieldNumber(Nominals(b)) == Encode(b)
  {
    FieldDotOfNominals(b);
  }

  /**
   * `make_move` (ai.py:329-341): the field becomes the best child the tree
   * records for it. A field missing from the tree, an entry without a choice
   * (the side does not move there) and a choice without a best child are the
   * errors the source raises.
   */
  method MakeMove(tree: Tree, field: array<real>) returns (r: Result<int>)
    requires field.Length == FIELD_SIZE
    modifies field
    ensures var k := FieldNumber(old(field[..]));
      r.Success? <==> k in tree && tree[k].choice.Some? && tree[k].choice.value.best.Some?
    ensures r.Success? ==> r.value == tree[FieldNumber(old(field[..]))].choice.value.best.value
    ensures r.Success? ==> field[..] == Nominals(Decode(r.value))
    ensures r.Failure? ==> field[..] == old(field[..])
  {
    var k := FieldNumber(field[..]);
    if k !in tree {
      return Failure("KeyError: layout not in the tree");
    }
    if tree[k].choice.None? {
      return Failure("IndexError: layout not ranked");
    }
    var best := tree[k].choice.value.best;
    if best.None? {
      return Failure("TypeError: no best move");
    }
    var b := DecodeLayout(best.value);
    ghost var f := Nominals(b);
    forall i | 0 <= i < FIELD_SIZE {
      field[i] := (b[i] as real) * 0.5;
    }
    assert forall i :: 0 <= i < FIELD_SIZE ==> field[i] == f[i];
    assert field[..] == f;
    r := Success(best.value);
  }

  /** The maximin tree's move is a legal one: the mover's mark on one empty cell. */
  lemma MoveIsLegal(raw: Tree, k: int, side: int)
    requires Recorded(raw, side) && ClosedUnder(raw, {}) && WellFormed(raw) && k in raw
    requires Solved(raw, k, side).choice.Some? && Solved(raw, k, side).choice.value.best.Some?
    requires raw[k].payout.None?
    ensures exists j :: 0 <= j < Count(Decode(k), EMPTY) && Decode(Solved(raw, k, side).choice.value.best.value) == Child(Decode(k), j)
  {
    BuiltTreeIsWellFormed(raw, side);
    var b := Decode(k);
    assert raw[k].mover == side;
    var vals := ChildValues(raw, k, side);
    var p := MaxPick(vals);
    var j := p.1.value;
    assert raw[k].children[j] == Encode(Child(b, j));
    ChildFacts(b, j);
    DecodeEncode(Child(b, j));
  }

  /** The first index of `x` in `s` (Python's `list.index`). */
  function IndexOf(s: seq<int>, x: int): (i: nat)
    requires x in s
    ensures i < |s| && s[i] == x && forall j :: 0 <= j < i ==> s[j] != x
  {
    if s[0] == x then 0 else 1 + IndexOf(s[1..], x)
  }

  /**
   * `rank_move` (ai.py:344-362): the rank of the move from `before` to
   * `after`, read from the entry of `before`. The source fails when `before`
   * is not in the tree, when its entry carries no ranks, when `after` is not
   * one of its children, or when the ranks are shorter than the children.
   */
  function RankMove(tree: Tree, before: seq<real>, after: seq<real>): (r: Result<real>)
    ensures var kb, ka := FieldNumber(before), FieldNumber(after);
      r.Success? <==>
        (kb in tree && tree[kb].choice.Some? && ka in tree[kb].children &&
         IndexOf(tree[kb].children, ka) < |tree[kb].choice.value.ranks|)
    ensures r.Success? ==> var kb, ka := FieldNumber(before), FieldNumber(after);
      r.value == tree[kb].choice.value.ranks[IndexOf(tree[kb].children, ka)]
  {
    var kb := FieldNumber(before);
    if kb !in tree then Failure("KeyError: layout not in the tree")
    else if tree[kb].choice.None? then Failure("AssertionError: layout not ranked")
    else
      var ka := FieldNumber(after);
      if ka !in tree[kb].children then Failure("ValueError: not a move from this layout")
      else
        var i := IndexOf(tree[kb].children, ka);
        if i < |tree[kb].choice.value.ranks| then Success(tree[kb].choice.value.ranks[i])
        else Failure("IndexError: ranks shorter than the children")
  }

  /** Two empty cells of a layout give two different children. */
  lemma ChildrenDistinct(b: Board, i: nat, j: nat)
    requires ValidBoard(b) && Balanced(b) && i < j < |Empties(b)|
    ensures Encode(Child(b, i)) != Encode(Child(b, j))
  {
    EmptiesIncrease(b, i, j);
    var e := Empties(b);
    assert Child(b, i)[e[i]] != EMPTY && Child(b, j)[e[i]] == EMPTY;
    ChildFacts(b, i);
    ChildFacts(b, j);
    DecodeEncode(Child(b, i));
    DecodeEncode(Child(b, j));
  }

  lemma {:induction false} EmptiesIncrease(b: Board, i: nat, j: nat)
    requires i < j < |Empties(b)|
    ensures Empties(b)[i] < Empties(b)[j]
    decreases |b|
  {
    var p := b[..|b| - 1];
    if j < |Empties(p)| {
      EmptiesIncrease(p, i, j);
    } else {
      assert Empties(b)[i] == Empties(p)[i] && Empties(b)[j] == |b| - 1;
    }
  }

  /**
   * Ranking a legal move of the tree's side, from a recorded open layout,
   * in a tree holding the maximin entries (what `BuildMaximinTree` returns),
   * succeeds and gives the move's rank, which lies between 0 and 1.
   */
  lemma RankOfMove(raw: Tree, tree: Tree, k: int, j: nat, side: int)
    requires Recorded(raw, side) && ClosedUnder(raw, {}) && WellFormed(raw)
    requires forall k' :: k' in raw ==> k' in tree && tree[k'] == Solved(raw, k', side)
    requires k in raw && raw[k].payout.None? && raw[k].mover == side
    requires j < Count(Decode(k), EMPTY)
    ensures tree[k].choice.Some? && j < |tree[k].choice.value.ranks|
    ensures RankMove(tree, Nominals(Decode(k)), Nominals(Child(Decode(k), j))) == Success(tree[k].choice.value.ranks[j])
    ensures 0.0 <= tree[k].choice.value.ranks[j] <= 1.0
  {
    BuiltTreeIsWellFormed(raw, side);
    MoveIndex(raw, k, j, side);
    RanksAreScores(raw, k, side);
    assert tree[k] == Solved(raw, k, side);
  }

  /** A layout's field numbers back to it, and its `j`-th move is its `j`-th child. */
  lemma MoveIndex(raw: Tree, k: int, j: nat, side: int)
    requires Recorded(raw, side) && k in raw && raw[k].payout.None?
    requires j < Count(Decode(k), EMPTY)
    ensures FieldNumber(Nominals(Decode(k))) == k
    ensures var ka := FieldNumber(Nominals(Child(Decode(k), j)));
      ka in raw[k].children && IndexOf(raw[k].children, ka) == j
  {
    var b := Decode(k);
    EncodeBound(b);
    EncodeDecode(k);
    FieldNumberOfNominals(b);
    FieldNumberOfNominals(Child(b, j));
    var kids := raw[k].children;
    assert kids == ChildCodes(b);
    var ka := Encode(Child(b, j));
    assert kids[j] == ka;
    forall i | 0 <= i < j
      ensures kids[i] != ka
    {
      ChildrenDistinct(b, i, j);
    }
    assert IndexOf(kids, ka) == j;
  }
}
