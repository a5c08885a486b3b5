/*
 * The game-wide helpers of the snake benchmark
 * (benchmarks/snake/classes/methods.py): the grid dictionary the opponents
 * look at, its numeric-buffer twin, the starting positions and the random
 * choice of players.
 */
module SnakeMethods {
  import opened Common
  import opened SnakeConst
  import opened ProtectedRandom
  import opened Snakes
  import opened GameState

  // ---------------------------------------------------------------------
  // What a cell holds
  // ---------------------------------------------------------------------

  /** The kind of the last fruit of `fruits` on `p`, the one written last. */
  function LastFruit(fruits: seq<Fruit>, p: Point): (r: Option<FruitKind>)
    ensures r.None? <==> forall i :: 0 <= i < |fruits| ==> fruits[i].coords != p
    ensures r.Some? ==> exists i :: (0 <= i < |fruits| && fruits[i].coords == p && fruits[i].kind == r.value &&
      forall j :: i < j < |fruits| ==> fruits[j].coords != p)
  {
    if fruits == [] then None
    else if fruits[|fruits| - 1].coords == p then Some(fruits[|fruits| - 1].kind)
    else
      var r := LastFruit(fruits[..|fruits| - 1], p);
      assert forall i :: 0 <= i < |fruits| - 1 ==> fruits[..|fruits| - 1][i] == fruits[i];
      r
  }

  /** The cells of a list of segments. */
  function Elems(s: seq<Point>): set<Point>
  {
    set q | q in s
  }

  /** The cells of the first `i` snakes' segments. */
  function SegmentsUpTo(allsnake: seq<Snake>, i: nat): set<Point>
    requires i <= |allsnake|
    reads set k | 0 <= k < |allsnake| :: allsnake[k]
  {
    if i == 0 then {} else SegmentsUpTo(allsnake, i - 1) + Elems(allsnake[i - 1].coords)
  }

  /** The cells of every snake's segments. */
  function Segments(allsnake: seq<Snake>): set<Point>
    reads set k | 0 <= k < |allsnake| :: allsnake[k]
  {
    SegmentsUpTo(allsnake, |allsnake|)
  }

  /** A segment is on a cell exactly when some snake has it among its coordinates. */
  lemma {:induction false} SegmentsAre(allsnake: seq<Snake>, i: nat, p: Point)
    requires i <= |allsnake|
    ensures p in SegmentsUpTo(allsnake, i) <==> exists k :: 0 <= k < i && p in allsnake[k].coords
  {
    if i > 0 {
      SegmentsAre(allsnake, i - 1, p);
    }
  }

  /** What `getGrid` leaves on a cell: a fruit above a snake above nothing. */
  function CellAt(allsnake: seq<Snake>, fruits: seq<Fruit>, p: Point): Cell
    reads set k | 0 <= k < |allsnake| :: allsnake[k]
  {
    match LastFruit(fruits, p)
    case Some(k) => FruitCell(k)
    case None => if p in Segments(allsnake) then SnakeCell else Vacant
  }

  /** A key of the comprehension in `getGrid` (methods.py:340), and a cell of the `(CELLWIDTH, CELLHEIGHT + 1)` buffer (methods.py:8-11). */
  predicate InGrid(p: Point)
  {
    0 <= p.x < CELLWIDTH && 0 <= p.y < GRID_ROWS
  }

  /** The playing area lies in the grid; the extra row 0 is the score row. */
  lemma BoardInGrid(p: Point)
    requires OnBoard(p)
    ensures InGrid(p)
  {
  }

  // ---------------------------------------------------------------------
  // getGrid
  // ---------------------------------------------------------------------

  /** The grid after the snake loop: `base`'s keys and `s`, with `s` marked as snake. */
  function Painted(base: set<Point>, s: set<Point>): map<Point, Cell>
  {
    map p | p in base + s :: if p in s then SnakeCell else Vacant
  }

  lemma PaintOne(base: set<Point>, s: set<Point>, q: Point)
    ensures Painted(base, s)[q := SnakeCell] == Painted(base, s + {q})
  {
  }

  /** The grid after writing `fruits` in order over `g`. */
  function Fruited(g: map<Point, Cell>, fruits: seq<Fruit>): map<Point, Cell>
  {
    if fruits == [] then g
    else Fruited(g, fruits[..|fruits| - 1])[fruits[|fruits| - 1].coords := FruitCell(fruits[|fruits| - 1].kind)]
  }

  /** Writing fruit in order leaves the last fruit of each cell, and adds the fruits' cells as keys. */
  lemma {:induction false} FruitedIs(g: map<Point, Cell>, fruits: seq<Fruit>, p: Point)
    ensures p in Fruited(g, fruits) <==> p in g || LastFruit(fruits, p).Some?
    ensures p in Fruited(g, fruits) ==>
      Fruited(g, fruits)[p] == match LastFruit(fruits, p) case Some(k) => FruitCell(k) case None => g[p]
  {
    if fruits != [] {
      FruitedIs(g, fruits[..|fruits| - 1], p);
    }
  }

  /**
   * `getGrid` (methods.py:333-364): every cell of the grid, every snake
   * segment and every fruit is a key; a cell holds its last fruit, else
   * 'snake' if a segment is on it, else 0.
   */
  method GetGrid(allsnake: seq<Snake>, allfruit: seq<Fruit>) returns (grid: map<Point, Cell>)
    ensures forall p :: p in grid <==> InGrid(p) || p in Segments(allsnake) || LastFruit(allfruit, p).Some?
    ensures forall p :: p in grid ==> grid[p] == CellAt(allsnake, allfruit, p)
  {
    ghost var base := set x, y | 0 <= x < CELLWIDTH && 0 <= y < GRID_ROWS :: Point(x, y);
    grid := map x, y | 0 <= x < CELLWIDTH && 0 <= y < GRID_ROWS :: Point(x, y) := Vacant;
    assert grid == Painted(base, {});
    ghost var s: set<Point> := {};
    var i := 0;
    while i < |allsnake|
      invariant 0 <= i <= |allsnake|
      invariant s == SegmentsUpTo(allsnake, i) && grid == Painted(base, s)
    {
      var body := allsnake[i].coords;
      var j := 0;
      while j < |body|
        invariant 0 <= j <= |body|
        invariant s == SegmentsUpTo(allsnake, i) + Elems(body[..j]) && grid == Painted(base, s)
      {
        PaintOne(base, s, body[j]);
        grid := grid[body[j] := SnakeCell];
        assert Elems(body[..j + 1]) == Elems(body[..j]) + {body[j]} by {
          assert body[..j + 1] == body[..j] + [body[j]];
        }
        s := s + {body[j]};
        j := j + 1;
      }
      assert body[..j] == body;
      i := i + 1;
    }
    ghost var painted := grid;
    i := 0;
    while i < |allfruit|
      invariant 0 <= i <= |allfruit|
      invariant grid == Fruited(painted, allfruit[..i])
    {
      assert allfruit[..i + 1][..i] == allfruit[..i];
      grid := grid[allfruit[i].coords := FruitCell(allfruit[i].kind)];
      i := i + 1;
    }
    assert allfruit[..i] == allfruit;
    forall p
      ensures p in grid <==> InGrid(p) || p in Segments(allsnake) || LastFruit(allfruit, p).Some?
      ensures p in grid ==> grid[p] == CellAt(allsnake, allfruit, p)
    {
      FruitedIs(painted, allfruit, p);
      if InGrid(p) {
        assert p in base;
      }
    }
  }

  // ---------------------------------------------------------------------
  // get_grid_nd_array
  // ---------------------------------------------------------------------

  /** The code a fruit leaves in the numeric buffer (methods.py:386-400). */
  function FruitCode(k: FruitKind): (r: real)
    ensures 0.4 <= r <= 1.0
  {
    match k
    case Apple => 0.4
    case Poison => 0.5
    case Orange => 0.6
    case Raspberry => 0.7
    case Blueberry => 0.8
    case Lemon => 0.9
    case Egg => 1.0
  }

  /** The code of a snake segment (methods.py:383). */
  const SNAKE_CODE: real := 0.2

  /** Every fruit is told apart from a snake and from an empty cell, and from any other fruit. */
  lemma CodesDistinct(k1: FruitKind, k2: FruitKind)
    ensures FruitCode(k1) != SNAKE_CODE && FruitCode(k1) != 0.0
    ensures FruitCode(k1) == FruitCode(k2) <==> k1 == k2
  {
  }

  /** The buffer's cell as intended: fruit code, else the snake code on a segment, else 0. */
  function Code(allsnake: seq<Snake>, fruits: seq<Fruit>, p: Point): real
    reads set k | 0 <= k < |allsnake| :: allsnake[k]
  {
    match LastFruit(fruits, p)
    case Some(k) => FruitCode(k)
    case None => if p in Segments(allsnake) then SNAKE_CODE else 0.0
  }

  /** The buffer's cell as the source leaves it: no snake code is ever written. */
  function CodeAsWritten(fruits: seq<Fruit>, p: Point): real
  {
    match LastFruit(fruits, p)
    case Some(k) => FruitCode(k)
    case None => 0.0
  }

  /** The source's skip test for a segment (methods.py:376-379). */
  predicate SkippedAsWritten(p: Point)
  {
    p.x < CELLWIDTH || p.x >= CELLWIDTH || p.y < GRID_ROWS || p.y >= GRID_ROWS
  }

  /** The intended skip test: a segment off the buffer. */
  predicate Skipped(p: Point)
  {
    p.x < 0 || p.x >= CELLWIDTH || p.y < 0 || p.y >= GRID_ROWS
  }

  /** The source's test skips every segment, including those on the buffer. */
  lemma SkipAlwaysTaken(p: Point)
    ensures SkippedAsWritten(p)
    ensures Skipped(p) <==> !InGrid(p)
  {
  }

  /** Where a snake lies and no fruit does, the source's buffer shows an empty cell. */
  lemma AsWrittenHidesSnakes(allsnake: seq<Snake>, fruits: seq<Fruit>, p: Point)
    requires p in Segments(allsnake) && LastFruit(fruits, p).None?
    ensures Code(allsnake, fruits, p) == SNAKE_CODE
    ensures CodeAsWritten(fruits, p) == 0.0
  {
  }

  /** `_nd_array_grid[:] = 0` (methods.py:371). */
  method Clear(buf: array2<real>)
    modifies buf
    ensures forall x, y :: 0 <= x < buf.Length0 && 0 <= y < buf.Length1 ==> buf[x, y] == 0.0
  {
    var x := 0;
    while x < buf.Length0
      invariant 0 <= x <= buf.Length0
      invariant forall x', y :: 0 <= x' < x && 0 <= y < buf.Length1 ==> buf[x', y] == 0.0
    {
      var y := 0;
      while y < buf.Length1
        invariant 0 <= y <= buf.Length1
        invariant forall x', y' :: 0 <= x' < x && 0 <= y' < buf.Length1 ==> buf[x', y'] == 0.0
        invariant forall y' :: 0 <= y' < y ==> buf[x, y'] == 0.0
      {
        buf[x, y] := 0.0;
        y := y + 1;
      }
      x := x + 1;
    }
  }

  /** The value a cell shows once `fruits` are written over `before`. */
  ghost function Shown(fruits: seq<Fruit>, before: Point -> real, p: Point): real
  {
    match LastFruit(fruits, p) case Some(k) => FruitCode(k) case None => before(p)
  }

  /** Writing fruit `i` changes only the cell it sits on. */
  lemma ShownStep(fruits: seq<Fruit>, i: nat, before: Point -> real, p: Point)
    requires i < |fruits|
    ensures Shown(fruits[..i + 1], before, p) ==
      if p == fruits[i].coords then FruitCode(fruits[i].kind) else Shown(fruits[..i], before, p)
  {
    assert fruits[..i + 1][..i] == fruits[..i];
  }

  /** The fruit loop of `get_grid_nd_array` (methods.py:386-400), over a buffer whose other cells are `before`. */
  method WriteFruit(buf: array2<real>, allfruit: seq<Fruit>, ghost before: Point -> real)
    requires buf.Length0 == CELLWIDTH && buf.Length1 == GRID_ROWS
    requires forall i :: 0 <= i < |allfruit| ==> InGrid(allfruit[i].coords)
    requires forall x, y :: 0 <= x < CELLWIDTH && 0 <= y < GRID_ROWS ==> buf[x, y] == before(Point(x, y))
    modifies buf
    ensures forall x, y :: 0 <= x < CELLWIDTH && 0 <= y < GRID_ROWS ==>
      buf[x, y] == match LastFruit(allfruit, Point(x, y)) case Some(k) => FruitCode(k) case None => before(Point(x, y))
  {
    var i := 0;
    while i < |allfruit|
      invariant 0 <= i <= |allfruit|
      invariant forall x, y :: 0 <= x < CELLWIDTH && 0 <= y < GRID_ROWS ==>
        buf[x, y] == Shown(allfruit[..i], before, Point(x, y))
    {
      var f := allfruit[i];
      buf[f.coords.x, f.coords.y] := FruitCode(f.kind);
      forall x, y | 0 <= x < CELLWIDTH && 0 <= y < GRID_ROWS
        ensures buf[x, y] == Shown(allfruit[..i + 1], before, Point(x, y))
      {
        ShownStep(allfruit, i, before, Point(x, y));
      }
      i := i + 1;
    }
    assert allfruit[..i] == allfruit;
  }

  /**
   * `get_grid_nd_array` as written (methods.py:366-402): the buffer is
   * cleared, every segment is skipped, and each fruit leaves its code.
   */
  method GridArrayAsWritten(buf: array2<real>, allsnake: seq<Snake>, allfruit: seq<Fruit>)
    requires buf.Length0 == CELLWIDTH && buf.Length1 == GRID_ROWS
    requires forall i :: 0 <= i < |allfruit| ==> InGrid(allfruit[i].coords)
    modifies buf
    ensures forall x, y :: 0 <= x < CELLWIDTH && 0 <= y < GRID_ROWS ==> buf[x, y] == CodeAsWritten(allfruit, Point(x, y))
  {
    Clear(buf);
    var i := 0;
    while i < |allsnake|
      invariant 0 <= i <= |allsnake|
    {
      var body := allsnake[i].coords;
      var j := 0;
      while j < |body|
        invariant 0 <= j <= |body|
      {
        if !SkippedAsWritten(body[j]) {
          assert false;
        }
        j := j + 1;
      }
      i := i + 1;
    }
    WriteFruit(buf, allfruit, p => 0.0);
  }

  /**
   * `get_grid_nd_array` with the evidently intended skip test: segments on
   * the buffer get the snake code before the fruit is written.
   */
  method GridArray(buf: array2<real>, allsnake: seq<Snake>, allfruit: seq<Fruit>)
    requires buf.Length0 == CELLWIDTH && buf.Length1 == GRID_ROWS
    requires forall i :: 0 <= i < |allfruit| ==> InGrid(allfruit[i].coords)
    modifies buf
    ensures forall x, y :: 0 <= x < CELLWIDTH && 0 <= y < GRID_ROWS ==> buf[x, y] == Code(allsnake, allfruit, Point(x, y))
  {
    Clear(buf);
    ghost var s: set<Point> := {};
    var i := 0;
    while i < |allsnake|
      invariant 0 <= i <= |allsnake|
      invariant s == SegmentsUpTo(allsnake, i)
      invariant forall x, y :: 0 <= x < CELLWIDTH && 0 <= y < GRID_ROWS ==>
        buf[x, y] == if Point(x, y) in s then SNAKE_CODE else 0.0
    {
      var body := allsnake[i].coords;
      var j := 0;
      while j < |body|
        invariant 0 <= j <= |body|
        invariant s == SegmentsUpTo(allsnake, i) + Elems(body[..j])
        invariant forall x, y :: 0 <= x < CELLWIDTH && 0 <= y < GRID_ROWS ==>
          buf[x, y] == if Point(x, y) in s then SNAKE_CODE else 0.0
      {
        var seg := body[j];
        if !Skipped(seg) {
          buf[seg.x, seg.y] := SNAKE_CODE;
        }
        assert Elems(body[..j + 1]) == Elems(body[..j]) + {seg} by {
          assert body[..j + 1] == body[..j] + [seg];
        }
        s := s + {seg};
        j := j + 1;
      }
      assert body[..j] == body;
      i := i + 1;
    }
    WriteFruit(buf, allfruit, p => if p in s then SNAKE_CODE else 0.0);
  }

  // ---------------------------------------------------------------------
  // Starting positions and players
  // ---------------------------------------------------------------------

  /** `getStartCoords` (methods.py:461-469): three segments, head first; `None` past position 4. */
  function StartCoords(pos: int): Option<seq<Point>>
  {
    if pos == 1 then Some([Point(5, 5), Point(4, 5), Point(3, 5)])
    else if pos == 2 then Some([Point(CELLWIDTH - 5, CELLHEIGHT - 5), Point(CELLWIDTH - 4, CELLHEIGHT - 5), Point(CELLWIDTH - 3, CELLHEIGHT - 5)])
    else if pos == 3 then Some([Point(CELLWIDTH - 5, 5), Point(CELLWIDTH - 4, 5), Point(CELLWIDTH - 3, 5)])
    else if pos == 4 then Some([Point(5, CELLHEIGHT - 5), Point(4, CELLHEIGHT - 5), Point(3, CELLHEIGHT - 5)])
    else None
  }

  /**
   * Each of the four starts is a straight, connected body of three cells on
   * the board, headed away from the nearer side wall: right on the left
   * half, left on the right half. The four starts share no cell.
   */
  lemma StartsAreSound(pos: int)
    ensures StartCoords(pos).Some? <==> 1 <= pos <= 4
    ensures StartCoords(pos).Some? ==>
      var c := StartCoords(pos).value;
      |c| == 3 && (forall i :: 0 <= i < 3 ==> OnBoard(c[i])) &&
      c[1] == Step(c[0], Opposite(Heading(c))) && c[2] == Step(c[1], Opposite(Heading(c))) &&
      Heading(c) == (if pos == 1 || pos == 4 then Right else Left)
  {
  }

  lemma StartsApart(p1: int, p2: int, i: int, j: int)
    requires 1 <= p1 <= 4 && 1 <= p2 <= 4 && p1 != p2 && 0 <= i < 3 && 0 <= j < 3
    ensures StartCoords(p1).value[i] != StartCoords(p2).value[j]
  {
  }

  /** The names `getPlayers` can pick for the opponents, as its `if` chain reads. */
  function PlayerFor(r: int): string
  {
    if r == 1 then LINUS else if r == 2 then WIGGLES else if r == 3 then GOOBER else ""
  }

  /**
   * `getPlayers` as written (methods.py:13-31): SNAKEY, then `num`
   * opponents from `randint(1, 3)`, which draws 1 or 2 only.
   */
  method GetPlayers(num: int) returns (players: seq<string>)
    ensures |players| == 1 + (if num > 0 then num else 0) && players[0] == SNAKEY
    ensures forall i :: 1 <= i < |players| ==> players[i] == LINUS || players[i] == WIGGLES
  {
    players := [SNAKEY];
    var n := num;
    while n > 0
      invariant |players| == 1 + (if num > 0 then num - (if n > 0 then n else 0) else 0) && players[0] == SNAKEY
      invariant n <= num || n <= 0
      invariant forall i :: 1 <= i < |players| ==> players[i] == LINUS || players[i] == WIGGLES
    {
      var r := RandInt(1, 3);
      players := players + [PlayerFor(r)];
      n := n - 1;
    }
  }

  /** No draw of `randint(1, 3)` picks GOOBER. */
  lemma GooberNeverDrawn(r: int)
    requires Drawable(r, 1, 3)
    ensures PlayerFor(r) != GOOBER && PlayerFor(r) != ""
  {
  }

  /** `getPlayers` with the upper bound moved past GOOBER's number, so that all three opponents can be drawn. */
  method GetPlayersCorrected(num: int) returns (players: seq<string>)
    ensures |players| == 1 + (if num > 0 then num else 0) && players[0] == SNAKEY
    ensures forall i :: 1 <= i < |players| ==> players[i] == LINUS || players[i] == WIGGLES || players[i] == GOOBER
  {
    players := [SNAKEY];
    var n := num;
    while n > 0
      invariant |players| == 1 + (if num > 0 then num - (if n > 0 then n else 0) else 0) && players[0] == SNAKEY
      invariant n <= num || n <= 0
      invariant forall i :: 1 <= i < |players| ==> players[i] == LINUS || players[i] == WIGGLES || players[i] == GOOBER
    {
      var r := RandInt(1, 4);
      players := players + [PlayerFor(r)];
      n := n - 1;
    }
  }

  /** Every opponent name is a draw of the corrected bound, and no other name is. */
  lemma CorrectedDrawsAll(r: int)
    ensures Drawable(r, 1, 4) <==> 1 <= r <= 3
    ensures Drawable(1, 1, 4) && PlayerFor(1) == LINUS
    ensures Drawable(2, 1, 4) && PlayerFor(2) == WIGGLES
    ensures Drawable(3, 1, 4) && PlayerFor(3) == GOOBER
  {
  }
}
