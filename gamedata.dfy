/*
 * One game of the snake benchmark: the game's dynamics
 * (benchmarks/snake/classes/gamedata.py) and the fruit
 * (benchmarks/snake/classes/fruit.py). They share a module because each
 * needs the other: the game drops fruit, and eating a fruit updates the
 * game's tally. The seven fruit classes are one `Fruit` class with a
 * `kind`; what differs between them is tabled by kind.
 */
module GameState {
  import opened Common
  import opened SnakeConst
  import opened ProtectedRandom
  import opened Snakes

  // ---------------------------------------------------------------------
  // The fruit table
  // ---------------------------------------------------------------------

  /** The points a fruit passes to `updateScore`; the raspberry scores nothing. */
  function Points(k: FruitKind): int
  {
    match k
    case Apple => 10
    case Poison => -25
    case Orange => 50
    case Raspberry => 0
    case Blueberry => 100
    case Lemon => 500
    case Egg => 250
  }

  /** The growth a fruit passes to `updateGrowth`; raspberry and blueberry pass none. */
  function GrowthOf(k: FruitKind): int
  {
    match k
    case Apple => 1
    case Poison => -3
    case Orange => 3
    case Raspberry => 0
    case Blueberry => 0
    case Lemon => 20
    case Egg => 1
  }

  /** The colour change a fruit passes to `updateColor`. */
  function ColourChange(k: FruitKind): Colour
  {
    match k
    case Apple => map["red" := 6, "green" := -5, "blue" := -5]
    case Poison => map["red" := -20, "green" := 20]
    case Orange => map["red" := 10, "green" := 3, "blue" := -10]
    case Raspberry => map["red" := 12, "green" := -15, "blue" := 13]
    case Blueberry => map["red" := -20, "green" := -15, "blue" := 60]
    case Lemon => map["blue" := -20]
    case Egg => map["red" := -35, "green" := -30, "blue" := -25]
  }

  /** The bounds a fruit's timer is drawn between; the apple has no timer. */
  function TimerBounds(k: FruitKind): (int, int)
  {
    match k
    case Apple => (0, 0)
    case Poison => POISON_TIMER
    case Orange => ORANGE_TIMER
    case Raspberry => RASPBERRY_TIMER
    case Blueberry => BLUEBERRY_TIMER
    case Lemon => LEMON_TIMER
    case Egg => EGG_TIMER
  }

  /** Only poison costs points, and only poison shortens the snake. */
  lemma OnlyPoisonHurts(k: FruitKind)
    ensures Points(k) < 0 <==> k == Poison
    ensures GrowthOf(k) < 0 <==> k == Poison
  {
  }

  /** Eating keeps a snake's colour channels in [0, 255]. */
  lemma EatingKeepsColour(c: Colour, k: FruitKind)
    requires forall ch :: ch in c ==> 0 <= c[ch] <= 255
    ensures forall ch :: ch in c ==> 0 <= Recoloured(c, ColourChange(k))[ch] <= 255
  {
    RecolouredClamps(c, ColourChange(k));
  }

  // ---------------------------------------------------------------------
  // Timers
  // ---------------------------------------------------------------------

  /** A fruit's timer after `updateTimer` (fruit.py:46-50): one less while it is positive. */
  function Tick(t: int): (r: int)
    ensures t > 0 ==> r == t - 1
    ensures t <= 0 ==> r == t
    ensures t >= 0 ==> 0 <= r <= t
  {
    if t > 0 then t - 1 else t
  }

  /**
   * The egg's radius after `Egg.updateTimer` (fruit.py:232-237), with the
   * thresholds (40 + 70) * 2 / 3 = 73, 110 / 2 = 55 and 110 / 3 = 36 in
   * integer division.
   */
  function Shrunk(radius: int, t: int): (r: int)
  {
    if t < (EGG_TIMER.0 + EGG_TIMER.1) / 3 then CELLSIZE / 5
    else if t < (EGG_TIMER.0 + EGG_TIMER.1) / 2 then CELLSIZE / 4
    else if t < (EGG_TIMER.0 + EGG_TIMER.1) * 2 / 3 then CELLSIZE / 3
    else radius
  }

  /**
   * From its first radius, an egg's radius never grows while its timer
   * runs down, and it reaches a fifth of a cell in the last 36 ticks.
   */
  lemma EggShrinks(t1: int, t2: int)
    requires t1 <= t2
    ensures Shrunk(Shrunk(CELLSIZE / 2, t2), t1) <= Shrunk(CELLSIZE / 2, t2) <= CELLSIZE / 2
    ensures t1 < 36 ==> Shrunk(Shrunk(CELLSIZE / 2, t2), t1) == CELLSIZE / 5
  {
  }

  // ---------------------------------------------------------------------
  // Where fruit may go
  // ---------------------------------------------------------------------

  /** The bounds `getRandomLocation` hands to `randint` for x (fruit.py:25-29). */
  function XArgs(easy: bool): (int, int)
  {
    if easy then (CELLWIDTH / 5, CELLWIDTH - CELLWIDTH / 5 - 1) else (0, CELLWIDTH - 1)
  }

  /** The bounds `getRandomLocation` hands to `randint` for y (fruit.py:27-30). */
  function YArgs(easy: bool): (int, int)
  {
    if easy then (CELLHEIGHT / 5, CELLHEIGHT - CELLHEIGHT / 5 - 1) else (TOP_BUFFER / CELLSIZE, CELLHEIGHT - 1)
  }

  /** A cell the location draw can produce. */
  predicate InRange(p: Point, easy: bool)
  {
    Drawable(p.x, XArgs(easy).0, XArgs(easy).1) && Drawable(p.y, YArgs(easy).0, YArgs(easy).1)
  }

  /**
   * Every drawn cell is on the board, but, the draw being half-open, never in
   * the last column nor in the last two rows.
   */
  lemma InRangeOnBoard(p: Point, easy: bool)
    requires InRange(p, easy)
    ensures OnBoard(p)
    ensures p.x < CELLWIDTH - 1 && p.y < CELLHEIGHT + TOP_ROW - 2
  {
  }

  /** The heads of the snakes that have any segment. */
  function Heads(allsnake: seq<Snake>): set<Point>
    reads set i | 0 <= i < |allsnake| :: allsnake[i]
  {
    set i | 0 <= i < |allsnake| && |allsnake[i].coords| > 0 :: allsnake[i].coords[0]
  }

  /** A cell held by a fruit or by a snake's head. */
  predicate Occupied(p: Point, fruits: seq<Fruit>, heads: set<Point>)
  {
    p in heads || exists i :: 0 <= i < |fruits| && fruits[i].coords == p
  }

  /** No cell of the draw range is free: there `getRandomLocation` would retry for ever. */
  ghost predicate RangeFull(fruits: seq<Fruit>, heads: set<Point>, easy: bool)
  {
    forall p :: InRange(p, easy) ==> Occupied(p, fruits, heads)
  }

  /** The conflict test of `getRandomLocation` (fruit.py:31-38). */
  method Conflict(p: Point, allfruit: seq<Fruit>, allsnake: seq<Snake>) returns (conflict: bool)
    ensures conflict <==> Occupied(p, allfruit, Heads(allsnake))
  {
    conflict := false;
    var i := 0;
    while i < |allfruit|
      invariant 0 <= i <= |allfruit|
      invariant conflict <==> exists j :: 0 <= j < i && allfruit[j].coords == p
    {
      if allfruit[i].coords.x == p.x && allfruit[i].coords.y == p.y {
        conflict := true;
      }
      i := i + 1;
    }
    ghost var onFruit := conflict;
    i := 0;
    while i < |allsnake|
      invariant 0 <= i <= |allsnake|
      invariant conflict <==> onFruit || exists j :: 0 <= j < i && |allsnake[j].coords| > 0 && allsnake[j].coords[0] == p
    {
      if |allsnake[i].coords| > 0 && allsnake[i].coords[0].x == p.x && allsnake[i].coords[0].y == p.y {
        conflict := true;
      }
      i := i + 1;
    }
    HeadsAre(p, allsnake);
  }

  lemma HeadsAre(p: Point, allsnake: seq<Snake>)
    ensures p in Heads(allsnake) <==> exists j :: 0 <= j < |allsnake| && |allsnake[j].coords| > 0 && allsnake[j].coords[0] == p
  {
  }

  /**
   * `getRandomLocation` (fruit.py:18-40). The source draws cells until one
   * is free; the model returns what that loop can return, a free cell of
   * the draw range picked by the random draw, and `None` exactly when no
   * such cell exists, where the source never returns.
   */
  method GetRandomLocation(allfruit: seq<Fruit>, allsnake: seq<Snake>, easy: bool) returns (loc: Option<Point>)
    ensures loc.Some? ==> InRange(loc.value, easy) && !Occupied(loc.value, allfruit, Heads(allsnake))
    ensures loc.None? ==> RangeFull(allfruit, Heads(allsnake), easy)
  {
    var xb := Bounds(XArgs(easy).0, XArgs(easy).1);
    var yb := Bounds(YArgs(easy).0, YArgs(easy).1);
    ghost var heads := Heads(allsnake);
    var free: seq<Point> := [];
    var x := xb.0;
    while x < xb.1
      invariant xb.0 <= x <= xb.1
      invariant forall q :: q in free ==> InRange(q, easy) && !Occupied(q, allfruit, heads)
      invariant forall q :: InRange(q, easy) && q.x < x && !Occupied(q, allfruit, heads) ==> q in free
    {
      var y := yb.0;
      while y < yb.1
        invariant yb.0 <= y <= yb.1
        invariant forall q :: q in free ==> InRange(q, easy) && !Occupied(q, allfruit, heads)
        invariant forall q :: InRange(q, easy) && (q.x < x || (q.x == x && q.y < y)) && !Occupied(q, allfruit, heads) ==> q in free
      {
        var c := Conflict(Point(x, y), allfruit, allsnake);
        if !c {
          free := free + [Point(x, y)];
        }
        y := y + 1;
      }
      x := x + 1;
    }
    if |free| == 0 {
      return None;
    }
    var i := RandInt(0, |free|);
    return Some(free[i]);
  }

  // ---------------------------------------------------------------------
  // Eaten fruit and the bonus game
  // ---------------------------------------------------------------------

  /** `'x' * n` for a fruit name: the bonus list's runs. */
  function Repeat(k: FruitKind, n: int): (s: seq<FruitKind>)
    ensures |s| == if n > 0 then n else 0
    ensures forall i :: 0 <= i < |s| ==> s[i] == k
    decreases n
  {
    if n <= 0 then [] else Repeat(k, n - 1) + [k]
  }

  /** The counts of the bonus runs, from the size of the board (gamedata.py:167-173). */
  const SQUARES: int := CELLWIDTH * CELLHEIGHT
  const TINY_LOWER: int := SQUARES / 600
  const TINY_UPPER: int := SQUARES / 135
  const SMALL_LOWER: int := SQUARES / 68
  const SMALL_UPPER: int := SQUARES / 45
  const LARGE_LOWER: int := SQUARES / 34
  const LARGE_UPPER: int := SQUARES / 19

  /** The default bonus: poison, orange, raspberry and blueberry runs, in that order. */
  function Mix(a: int, b: int, c: int, d: int): seq<FruitKind>
  {
    Repeat(Poison, a) + Repeat(Orange, b) + Repeat(Raspberry, c) + Repeat(Blueberry, d)
  }

  /** `bonus` is a list `runBonusFruit` builds for bonus type `t` (gamedata.py:176-218). */
  ghost predicate IsBonus(t: int, bonus: seq<FruitKind>)
  {
    if t == 1 then exists n :: Drawable(n, SMALL_LOWER, SMALL_UPPER) && bonus == Repeat(Egg, n)
    else if t == 2 || t == 3 then exists n :: Drawable(n, LARGE_LOWER, LARGE_UPPER) && bonus == Repeat(Poison, n)
    else if t == 4 || t == 5 then exists n :: Drawable(n, LARGE_LOWER, LARGE_UPPER) && bonus == Repeat(Orange, n)
    else if t == 6 then exists n :: Drawable(n, LARGE_LOWER, LARGE_UPPER) && bonus == Repeat(Raspberry, n)
    else if t == 7 then exists n :: Drawable(n, LARGE_LOWER, LARGE_UPPER) && bonus == Repeat(Blueberry, n)
    else exists a, b, c, d :: (bonus == Mix(a, b, c, d) &&
      Drawable(a, TINY_LOWER, TINY_UPPER) && Drawable(b, 5, 20) &&
      Drawable(c, TINY_LOWER, TINY_UPPER) && Drawable(d, TINY_LOWER, TINY_UPPER))
  }

  /**
   * A bonus of types 1 to 7 is of one kind: eggs, poison, oranges,
   * raspberries or blueberries; no bonus ever holds a lemon or an apple,
   * and every bonus holds at least one fruit.
   */
  lemma BonusKinds(t: int, bonus: seq<FruitKind>)
    requires IsBonus(t, bonus)
    ensures |bonus| > 0
    ensures forall i :: 0 <= i < |bonus| ==> bonus[i] != Lemon && bonus[i] != Apple
    ensures t == 1 ==> forall i :: 0 <= i < |bonus| ==> bonus[i] == Egg
    ensures t == 2 || t == 3 ==> forall i :: 0 <= i < |bonus| ==> bonus[i] == Poison
    ensures t == 4 || t == 5 ==> forall i :: 0 <= i < |bonus| ==> bonus[i] == Orange
    ensures t == 6 ==> forall i :: 0 <= i < |bonus| ==> bonus[i] == Raspberry
    ensures t == 7 ==> forall i :: 0 <= i < |bonus| ==> bonus[i] == Blueberry
  {
    if !(1 <= t <= 7) {
      var a, b, c, d :| bonus == Mix(a, b, c, d) &&
        Drawable(a, TINY_LOWER, TINY_UPPER) && Drawable(b, 5, 20) &&
        Drawable(c, TINY_LOWER, TINY_UPPER) && Drawable(d, TINY_LOWER, TINY_UPPER);
      forall i | 0 <= i < |bonus|
        ensures bonus[i] != Lemon && bonus[i] != Apple
      {
        var p, o, r := Repeat(Poison, a), Repeat(Orange, b), Repeat(Raspberry, c);
        var bl := Repeat(Blueberry, d);
        assert bonus == p + o + r + bl;
        if i < |p| {
          assert bonus[i] == p[i];
        } else if i < |p| + |o| {
          assert bonus[i] == o[i - |p|];
        } else if i < |p| + |o| + |r| {
          assert bonus[i] == r[i - |p| - |o|];
        } else {
          assert bonus[i] == bl[i - |p| - |o| - |r|];
        }
      }
    }
  }

  /** `while counter > 0: bonus.append(k); counter -= 1`. */
  method AppendRun(bonus: seq<FruitKind>, k: FruitKind, count: int) returns (r: seq<FruitKind>)
    ensures r == bonus + Repeat(k, count)
  {
    r := bonus;
    var counter := count;
    while counter > 0
      invariant counter <= count || count <= 0
      invariant r == bonus + Repeat(k, count - (if counter > 0 then counter else 0)) || (count <= 0 && r == bonus)
      decreases counter
    {
      r := r + [k];
      counter := counter - 1;
    }
    if count <= 0 {
      assert Repeat(k, count) == [];
    }
  }

  /** The list of fruit names `runBonusFruit` builds for bonus type `t` (gamedata.py:175-218). */
  method BonusFor(t: int) returns (bonus: seq<FruitKind>)
    ensures IsBonus(t, bonus)
  {
    bonus := [];
    if t == 1 {
      var n := RandInt(SMALL_LOWER, SMALL_UPPER);
      bonus := AppendRun(bonus, Egg, n);
    } else if t == 2 || t == 3 {
      var n := RandInt(LARGE_LOWER, LARGE_UPPER);
      bonus := AppendRun(bonus, Poison, n);
    } else if t == 4 || t == 5 {
      var n := RandInt(LARGE_LOWER, LARGE_UPPER);
      bonus := AppendRun(bonus, Orange, n);
    } else if t == 6 {
      var n := RandInt(LARGE_LOWER, LARGE_UPPER);
      bonus := AppendRun(bonus, Raspberry, n);
    } else if t == 7 {
      var n := RandInt(LARGE_LOWER, LARGE_UPPER);
      bonus := AppendRun(bonus, Blueberry, n);
    } else {
      var a := RandInt(TINY_LOWER, TINY_UPPER);
      bonus := AppendRun(bonus, Poison, a);
      var b := RandInt(5, 20);
      bonus := AppendRun(bonus, Orange, b);
      var c := RandInt(TINY_LOWER, TINY_UPPER);
      bonus := AppendRun(bonus, Raspberry, c);
      var d := RandInt(TINY_LOWER, TINY_UPPER);
      bonus := AppendRun(bonus, Blueberry, d);
      assert bonus == Mix(a, b, c, d);
    }
  }

  // ---------------------------------------------------------------------
  // Fruit
  // ---------------------------------------------------------------------

  /** The kinds of a list of fruits, in order. */
  function Kinds(fs: seq<Fruit>): (ks: seq<FruitKind>)
    ensures |ks| == |fs| && forall i :: 0 <= i < |fs| ==> ks[i] == fs[i].kind
  {
    seq(|fs|, i requires 0 <= i < |fs| => fs[i].kind)
  }

  /**
   * The bonus run after `i` of its entries: the old fruits kept, the added
   * ones on free cells of the range and of the run's first kinds in order,
   * and a missing one only because the range is full.
   */
  ghost predicate BonusPrefix(allfruit: seq<Fruit>, r: seq<Fruit>, bonus: seq<FruitKind>, i: nat,
                              heads: set<Point>, easy: bool)
  {
    |allfruit| <= |r| <= |allfruit| + i && i <= |bonus| && r[..|allfruit|] == allfruit &&
    PlacedFrom(r, |allfruit|, heads, easy) && Kinds(r[|allfruit|..]) == bonus[..|r| - |allfruit|] &&
    (|r| - |allfruit| < i ==> RangeFull(r, heads, easy))
  }

  /**
   * A bonus fruit lands only while every earlier one of the run has landed:
   * once the range is full no cell is free, so the added kinds stay a prefix.
   */
  lemma BonusGrows(allfruit: seq<Fruit>, r: seq<Fruit>, f: Fruit, bonus: seq<FruitKind>, i: nat,
                   heads: set<Point>, easy: bool)
    requires BonusPrefix(allfruit, r, bonus, i, heads, easy) && i < |bonus| && f.kind == bonus[i]
    requires InRange(f.coords, easy) && !Occupied(f.coords, r, heads)
    ensures BonusPrefix(allfruit, r + [f], bonus, i + 1, heads, easy)
  {
    assert |r| - |allfruit| == i;
    assert (r + [f])[|allfruit|..] == r[|allfruit|..] + [f];
    assert (r + [f])[..|allfruit|] == r[..|allfruit|];
    PlacedGrows(r, f, |allfruit|, heads, easy);
  }

  /** The added fruits of a bonus run are of the run's kinds, so never apples or lemons. */
  lemma BonusKindsAdded(allfruit: seq<Fruit>, r: seq<Fruit>, t: int, bonus: seq<FruitKind>)
    requires |allfruit| <= |r| && IsBonus(t, bonus) && Kinds(r[|allfruit|..]) <= bonus
    ensures forall i :: |allfruit| <= i < |r| ==> r[i].kind != Apple && r[i].kind != Lemon
  {
    BonusKinds(t, bonus);
    forall i | |allfruit| <= i < |r|
      ensures r[i].kind != Apple && r[i].kind != Lemon
    {
      assert r[i].kind == Kinds(r[|allfruit|..])[i - |allfruit|] == bonus[i - |allfruit|];
    }
  }

  class Fruit {
    const kind: FruitKind
    const coords: Point
    /** Frames left on the board; the apple's stays 0 and is never counted down. */
    var timer: int
    /** The egg's drawn radius; the other kinds do not use it. */
    var radius: int

    /** The state each fruit class's `__init__` (fruit.py:67-219) sets up, at a location already drawn. */
    constructor (k: FruitKind, loc: Point, t: int)
      ensures kind == k && coords == loc && timer == t && radius == CELLSIZE / 2
    {
      kind := k;
      coords := loc;
      timer := t;
      radius := CELLSIZE / 2;
    }

    /**
     * `updateTimer` (fruit.py:42-50), with the egg's override
     * (fruit.py:228-238) that first shrinks the radius.
     */
    method UpdateTimer() returns (running: bool)
      modifies this`timer, this`radius
      ensures running <==> old(timer) > 0
      ensures timer == Tick(old(timer))
      ensures radius == if kind == Egg then Shrunk(old(radius), old(timer)) else old(radius)
    {
      if kind == Egg {
        if timer < (EGG_TIMER.0 + EGG_TIMER.1) * 2 / 3 {
          radius := CELLSIZE / 3;
        }
        if timer < (EGG_TIMER.0 + EGG_TIMER.1) / 2 {
          radius := CELLSIZE / 4;
        }
        if timer < (EGG_TIMER.0 + EGG_TIMER.1) / 3 {
          radius := CELLSIZE / 5;
        }
      }
      if timer > 0 {
        timer := timer - 1;
        running := true;
      } else {
        running := false;
      }
    }

    /**
     * `isEaten` of each fruit class (fruit.py:73-226): both tallies of the
     * kind go up by one, then the score, growth, multiplier and colour of the
     * snake change as the kind says.
     */
    method IsEaten(snake: Snake, game: GameData)
      requires Tallied(snake.fruitEaten) && Tallied(game.fruitEaten)
      modifies snake`fruitEaten, snake`score, snake`growth, snake`multiplier, snake`multipliertimer, snake`color
      modifies game`fruitEaten
      ensures snake.fruitEaten == old(snake.fruitEaten)[kind := old(snake.fruitEaten)[kind] + 1]
      ensures game.fruitEaten == old(game.fruitEaten)[kind := old(game.fruitEaten)[kind] + 1]
      ensures snake.score == old(snake.score) + Points(kind) * old(snake.multiplier)
      ensures snake.growth == old(snake.growth) + GrowthOf(kind)
      ensures snake.multiplier == if kind == Raspberry then 2 else old(snake.multiplier)
      ensures snake.multipliertimer == old(snake.multipliertimer) + if kind == Raspberry then 100 else 0
      ensures snake.color == Recoloured(old(snake.color), ColourChange(kind))
    {
      snake.fruitEaten := snake.fruitEaten[kind := snake.fruitEaten[kind] + 1];
      game.fruitEaten := game.fruitEaten[kind := game.fruitEaten[kind] + 1];
      if kind == Raspberry {
        snake.UpdateMultiplier(2, 100);
      } else {
        snake.UpdateScore(Points(kind));
        if kind != Blueberry {
          snake.UpdateGrowth(GrowthOf(kind));
        }
      }
      snake.UpdateColor(ColourChange(kind));
    }

    /**
     * `Egg.isHatched` (fruit.py:240-248): a one-segment opponent 'junior'
     * appears on the egg's cell, owed a growth of 3 and not scored.
     */
    method IsHatched(allsnake: seq<Snake>) returns (r: seq<Snake>)
      ensures |r| == |allsnake| + 1 && r[..|allsnake|] == allsnake
      ensures fresh(r[|allsnake|])
      ensures var j := r[|allsnake|];
        j.name == "junior" && j.alive && j.coords == [coords] && j.growth == 3 && !j.scored &&
        j.brain == Some(Brain(true, 20, 10, 10, -20, Goals(35, 5, 40, 30, 35, 15, 0)))
    {
      var junior := new Snake.Bot("junior", [coords], PINK, GREEN, 10, 10, -20, [35, 5, 40, 30, 35, 15, 0]);
      junior.growth := 3;
      junior.scored := false;
      r := allsnake + [junior];
    }
  }

  /**
   * A fruit of kind `k` as its class's `__init__` makes it: on a free cell
   * of the draw range, with its timer drawn from the kind's bounds. `None`
   * when no cell is free.
   */
  method NewFruit(k: FruitKind, allfruit: seq<Fruit>, allsnake: seq<Snake>, easy: bool) returns (f: Option<Fruit>)
    ensures f.Some? ==> fresh(f.value) && f.value.kind == k && f.value.radius == CELLSIZE / 2
    ensures f.Some? ==> InRange(f.value.coords, easy) && !Occupied(f.value.coords, allfruit, Heads(allsnake))
    ensures f.Some? && k != Apple ==> Drawable(f.value.timer, TimerBounds(k).0, TimerBounds(k).1)
    ensures f.None? ==> RangeFull(allfruit, Heads(allsnake), easy)
  {
    var loc := GetRandomLocation(allfruit, allsnake, easy);
    if loc.None? {
      return None;
    }
    var t := 0;
    if k != Apple {
      t := RandInt(TimerBounds(k).0, TimerBounds(k).1);
    }
    var fruit := new Fruit(k, loc.value, t);
    return Some(fruit);
  }

  /** Where each optional fruit comes in `runDrop`; the apple comes last. */
  function DropRank(k: FruitKind): int
  {
    match k
    case Poison => 0
    case Orange => 1
    case Raspberry => 2
    case Blueberry => 3
    case Lemon => 4
    case Egg => 5
    case Apple => 6
  }

  /** The fruits from index `n` on each sit on a free cell of the range, given those before them. */
  predicate PlacedFrom(r: seq<Fruit>, n: int, heads: set<Point>, easy: bool)
    requires 0 <= n <= |r|
  {
    forall i :: n <= i < |r| ==> InRange(r[i].coords, easy) && !Occupied(r[i].coords, r[..i], heads)
  }

  /** The fruits from index `n` on come in `runDrop`'s order, at most one of each kind. */
  predicate InDropOrder(r: seq<Fruit>, n: int)
    requires 0 <= n <= |r|
  {
    forall i, j :: n <= i < j < |r| ==> DropRank(r[i].kind) < DropRank(r[j].kind)
  }

  // ---------------------------------------------------------------------
  // The game
  // ---------------------------------------------------------------------

  /** A snake's part in `checkSnakeDeath`. */
  datatype Standing = Standing(scored: bool, alive: bool, place: Option<int>)

  function Members(allsnake: seq<Snake>): set<Snake>
  {
    set i | 0 <= i < |allsnake| :: allsnake[i]
  }

  function Standings(allsnake: seq<Snake>): (st: seq<Standing>)
    reads Members(allsnake)
    ensures |st| == |allsnake|
    ensures forall i :: 0 <= i < |allsnake| ==>
      st[i] == Standing(allsnake[i].scored, allsnake[i].alive, allsnake[i].place)
  {
    seq(|allsnake|, i requires 0 <= i < |allsnake| reads Members(allsnake) =>
      Standing(allsnake[i].scored, allsnake[i].alive, allsnake[i].place))
  }

  /** `snake.place == False`: no place yet (Python's `False` also equals 0). */
  predicate Unplaced(p: Option<int>)
  {
    p.None? || p.value == 0
  }

  /** A scored snake that has died and has no place yet gets one now. */
  predicate Due(s: Standing)
  {
    s.scored && !s.alive && Unplaced(s.place)
  }

  /** How many snakes of `st` are due a place. */
  function CountDue(st: seq<Standing>): (n: nat)
    ensures n <= |st|
  {
    if st == [] then 0 else CountDue(st[..|st| - 1]) + (if Due(st[|st| - 1]) then 1 else 0)
  }

  /** The places after `checkSnakeDeath` (gamedata.py:71-78), and the next free place. */
  function Assign(st: seq<Standing>, cur: int): (r: (seq<Option<int>>, int))
    ensures |r.0| == |st|
  {
    if st == [] then ([], cur)
    else
      var (init, c) := Assign(st[..|st| - 1], cur);
      if Due(st[|st| - 1]) then (init + [Some(c)], c + 1) else (init + [st[|st| - 1].place], c)
  }

  /**
   * The snakes due a place get consecutive places from `cur` on, in list
   * order: the i-th one gets `cur` plus the number due before it. The
   * others keep theirs.
   */
  lemma {:induction false} AssignConsecutive(st: seq<Standing>, cur: int)
    ensures Assign(st, cur).1 == cur + CountDue(st)
    ensures forall i :: 0 <= i < |st| ==>
      Assign(st, cur).0[i] == if Due(st[i]) then Some(cur + CountDue(st[..i])) else st[i].place
  {
    if st != [] {
      var n := |st|;
      AssignConsecutive(st[..n - 1], cur);
      forall i | 0 <= i < n - 1
        ensures st[..i] == st[..n - 1][..i]
      {
      }
    }
  }

  class GameData {
    var fruitEaten: Tally
    const speedTrigger: int
    const bonusFruitTrigger: int
    const easyTrigger: int
    var currentplace: int
    var apples: int
    var basespeed: int
    var currentspeed: int
    var slowtimer: int
    var trailing: bool
    /** Drop odds of each optional fruit (gamedata.py:32-37): the package's half-open `randint(1, n)` makes the chance one in `n - 1`; 0 switches one off. */
    const poisonDrop: int
    const orangeDrop: int
    const raspberryDrop: int
    const blueberryDrop: int
    const lemonDrop: int
    const eggDrop: int

    /** `GameData.__init__` (gamedata.py:20-37). */
    constructor (st: int, bft: int, et: int, a: int)
      ensures fruitEaten == NO_FRUIT && speedTrigger == st && bonusFruitTrigger == bft && easyTrigger == et
      ensures currentplace == 1 && apples == a && basespeed == FPS && currentspeed == FPS
      ensures slowtimer == 0 && !trailing
      ensures poisonDrop == 4 && orangeDrop == 5 && raspberryDrop == 6
      ensures blueberryDrop == 25 && lemonDrop == 100 && eggDrop == 12
    {
      fruitEaten := NO_FRUIT;
      speedTrigger := st;
      bonusFruitTrigger := bft;
      easyTrigger := et;
      currentplace := 1;
      apples := a;
      basespeed := FPS;
      currentspeed := FPS;
      slowtimer := 0;
      trailing := false;
      poisonDrop := 4;
      orangeDrop := 5;
      raspberryDrop := 6;
      blueberryDrop := 25;
      lemonDrop := 100;
      eggDrop := 12;
    }

    /** `checkSpeedTrigger` (gamedata.py:39-46): every `speedTrigger` apples. */
    function CheckSpeedTrigger(): (r: bool)
      requires Apple in fruitEaten && speedTrigger != 0
      reads this
      ensures r <==> exists k :: fruitEaten[Apple] == k * speedTrigger
    {
      MultipleIff(fruitEaten[Apple], speedTrigger);
      fruitEaten[Apple] % speedTrigger == 0
    }

    /** `checkBonusTrigger` (gamedata.py:48-55): every `bonusFruitTrigger` apples. */
    function CheckBonusTrigger(): (r: bool)
      requires Apple in fruitEaten && bonusFruitTrigger != 0
      reads this
      ensures r <==> exists k :: fruitEaten[Apple] == k * bonusFruitTrigger
    {
      MultipleIff(fruitEaten[Apple], bonusFruitTrigger);
      fruitEaten[Apple] % bonusFruitTrigger == 0
    }

    /** `checkEasyTrigger` (gamedata.py:57-64): fruit keeps away from the edges up to `easyTrigger` apples. */
    function CheckEasyTrigger(): (r: bool)
      requires Apple in fruitEaten
      reads this
      ensures r <==> fruitEaten[Apple] <= easyTrigger
    {
      fruitEaten[Apple] <= easyTrigger
    }

    /** `checkSlowTimer` (gamedata.py:108-115). */
    function CheckSlowTimer(): (r: bool)
      reads this
      ensures r <==> slowtimer > 0
    {
      slowtimer > 0
    }

    /** `updateSlowTimer` (gamedata.py:117-121). */
    method UpdateSlowTimer()
      modifies this`slowtimer
      ensures slowtimer == old(slowtimer) - 1
    {
      slowtimer := slowtimer - 1;
    }

    /** `updateBaseSpeed` (gamedata.py:81-89). */
    method UpdateBaseSpeed(value: int)
      modifies this`basespeed, this`currentspeed
      ensures basespeed == BaseSpeedAfter(old(basespeed), value)
      ensures currentspeed == if MIN_FPS < old(basespeed) + value < MAX_FPS then basespeed else old(currentspeed)
    {
      if basespeed + value > MIN_FPS && basespeed + value < MAX_FPS {
        basespeed := basespeed + value;
        currentspeed := basespeed;
      }
    }

    /**
     * `updateCurrentSpeed` (gamedata.py:91-106). The goal defaults to the
     * base speed; Python's `False` default, and a goal of 0 that equals it,
     * are `None` and `Some(0)`.
     */
    method UpdateCurrentSpeed(goal: Option<int>, force: bool)
      modifies this`currentspeed
      ensures var g := if Unplaced(goal) then basespeed else goal.value;
        currentspeed == if force then g else Towards(old(currentspeed), g)
    {
      var g := if goal.None? || goal.value == 0 then basespeed else goal.value;
      if force {
        currentspeed := g;
      } else {
        if currentspeed < g {
          currentspeed := currentspeed + 1;
        } else if currentspeed > g {
          currentspeed := currentspeed - 1;
        }
      }
    }

    /**
     * `checkSnakeDeath` (gamedata.py:66-79): true when no scored snake is
     * alive; each scored dead snake without a place gets the current place,
     * which then moves on. The snakes are distinct objects.
     */
    method CheckSnakeDeath(allsnake: seq<Snake>) returns (gameover: bool)
      requires forall i, j :: 0 <= i < j < |allsnake| ==> allsnake[i] != allsnake[j]
      modifies this`currentplace, Members(allsnake)`place
      ensures gameover <==> forall i :: 0 <= i < |allsnake| && allsnake[i].scored ==> !allsnake[i].alive
      ensures var (places, next) := Assign(old(Standings(allsnake)), old(currentplace));
        currentplace == next && forall i :: 0 <= i < |allsnake| ==> allsnake[i].place == places[i]
    {
      ghost var st := Standings(allsnake);
      ghost var cur := currentplace;
      ghost var places: seq<Option<int>> := [];
      gameover := true;
      var i := 0;
      while i < |allsnake|
        invariant 0 <= i <= |allsnake|
        invariant (places, currentplace) == Assign(st[..i], cur)
        invariant forall j :: 0 <= j < i ==> allsnake[j].place == places[j]
        invariant forall j :: i <= j < |allsnake| ==> allsnake[j].place == st[j].place
        invariant gameover <==> forall j :: 0 <= j < i && allsnake[j].scored ==> !allsnake[j].alive
      {
        AssignStep(st, cur, i);
        var snake := allsnake[i];
        var living := Settle(snake);
        if living {
          gameover := false;
        }
        places := places + [snake.place];
        i := i + 1;
      }
      assert st[..i] == st;
    }

    /** One pass of the loop of `checkSnakeDeath`: a scored dead snake without a place gets the current place. */
    method Settle(snake: Snake) returns (living: bool)
      modifies this`currentplace, snake`place
      ensures living <==> snake.scored && snake.alive
      ensures var s := Standing(snake.scored, snake.alive, old(snake.place));
        if Due(s) then snake.place == Some(old(currentplace)) && currentplace == old(currentplace) + 1
        else snake.place == old(snake.place) && currentplace == old(currentplace)
    {
      living := false;
      if snake.scored {
        if snake.alive {
          living := true;
        } else if snake.place.None? || snake.place.value == 0 {
          snake.place := Some(currentplace);
          currentplace := currentplace + 1;
        }
      }
    }

    /**
     * `runDrop` (gamedata.py:123-154): each optional fruit with a one in
     * `n` chance, then an apple, last. Every new fruit lands on a cell free
     * of the fruit before it and of the snakes' heads.
     */
    method RunDrop(allfruit: seq<Fruit>, allsnake: seq<Snake>) returns (r: seq<Fruit>)
      requires Tallied(fruitEaten)
      ensures |allfruit| <= |r| <= |allfruit| + 7 && r[..|allfruit|] == allfruit
      ensures PlacedFrom(r, |allfruit|, Heads(allsnake), CheckEasyTrigger())
      ensures InDropOrder(r, |allfruit|)
      ensures (|r| > |allfruit| && r[|r| - 1].kind == Apple) || RangeFull(r, Heads(allsnake), CheckEasyTrigger())
    {
      var easy := CheckEasyTrigger();
      ghost var heads := Heads(allsnake);
      r := allfruit;
      r := MaybeDrop(allfruit, r, allsnake, Poison, poisonDrop, easy);
      r := MaybeDrop(allfruit, r, allsnake, Orange, orangeDrop, easy);
      r := MaybeDrop(allfruit, r, allsnake, Raspberry, raspberryDrop, easy);
      r := MaybeDrop(allfruit, r, allsnake, Blueberry, blueberryDrop, easy);
      r := MaybeDrop(allfruit, r, allsnake, Lemon, lemonDrop, easy);
      r := MaybeDrop(allfruit, r, allsnake, Egg, eggDrop, easy);
      r := Drop(allfruit, r, allsnake, Apple, easy);
    }

    /**
     * `runBonusFruit` (gamedata.py:156-234): a bonus type drawn from
     * `randint(1, 20)`, its list of fruit names, and a new fruit for each
     * name, on a free cell while one is left.
     */
    method RunBonusFruit(allfruit: seq<Fruit>, allsnake: seq<Snake>) returns (r: seq<Fruit>)
      requires Tallied(fruitEaten)
      ensures |r| >= |allfruit| && r[..|allfruit|] == allfruit
      ensures forall i :: |allfruit| <= i < |r| ==> fresh(r[i]) && r[i].kind != Apple && r[i].kind != Lemon
      ensures PlacedFrom(r, |allfruit|, Heads(allsnake), CheckEasyTrigger())
      ensures exists t, bonus :: (Drawable(t, 1, 20) && IsBonus(t, bonus) && Kinds(r[|allfruit|..]) <= bonus &&
        (|r| - |allfruit| < |bonus| ==> RangeFull(r, Heads(allsnake), CheckEasyTrigger())))
    {
      var easy := CheckEasyTrigger();
      var t := RandInt(1, 20);
      var bonus := BonusFor(t);
      ghost var heads := Heads(allsnake);
      r := allfruit;
      var i := 0;
      while i < |bonus|
        invariant 0 <= i <= |bonus| && BonusPrefix(allfruit, r, bonus, i, heads, easy)
        invariant forall j :: |allfruit| <= j < |r| ==> fresh(r[j])
      {
        r := BonusStep(allfruit, r, allsnake, bonus, i, easy, heads);
        i := i + 1;
      }
      BonusKindsAdded(allfruit, r, t, bonus);
      assert Kinds(r[|allfruit|..]) <= bonus;
      assert Drawable(t, 1, 20) && IsBonus(t, bonus);
    }

    /** One turn of the bonus drop loop (gamedata.py:221-234): a fruit of the run's next kind, if a cell is free. */
    method BonusStep(allfruit: seq<Fruit>, r: seq<Fruit>, allsnake: seq<Snake>, bonus: seq<FruitKind>, i: nat, easy: bool,
                     ghost heads: set<Point>)
      returns (r': seq<Fruit>)
      requires heads == Heads(allsnake)
      requires i < |bonus| && BonusPrefix(allfruit, r, bonus, i, heads, easy)
      ensures BonusPrefix(allfruit, r', bonus, i + 1, heads, easy)
      ensures |r| <= |r'| <= |r| + 1 && forall j :: 0 <= j < |r| ==> r'[j] == r[j]
      ensures forall j :: |r| <= j < |r'| ==> fresh(r'[j])
    {
      var f := NewFruit(bonus[i], r, allsnake, easy);
      if f.Some? {
        BonusGrows(allfruit, r, f.value, bonus, i, heads, easy);
        r' := r + [f.value];
      } else {
        r' := r;
      }
    }
  }

  /**
   * The fruit list during `runDrop`: the fruit before the drop, then new
   * fruits of ranks up to `rank`, in order and each on a free cell.
   */
  predicate Dropped(base: seq<Fruit>, r: seq<Fruit>, heads: set<Point>, easy: bool, rank: int)
  {
    |base| <= |r| <= |base| + rank + 1 && r[..|base|] == base &&
    PlacedFrom(r, |base|, heads, easy) && InDropOrder(r, |base|) &&
    forall i :: |base| <= i < |r| ==> DropRank(r[i].kind) <= rank
  }

  /** A drop with a one in `chance` chance (`chance != False and randint(1, chance) == 1`). */
  method MaybeDrop(base: seq<Fruit>, fruits: seq<Fruit>, allsnake: seq<Snake>, k: FruitKind, chance: int, easy: bool)
    returns (r: seq<Fruit>)
    requires Dropped(base, fruits, Heads(allsnake), easy, DropRank(k) - 1)
    ensures Dropped(base, r, Heads(allsnake), easy, DropRank(k))
  {
    r := fruits;
    if chance != 0 {
      var d := RandInt(1, chance);
      if d == 1 {
        r := Drop(base, fruits, allsnake, k, easy);
      }
    }
  }

  /** A new fruit of kind `k` appended to the list, when a cell is free. */
  method Drop(base: seq<Fruit>, fruits: seq<Fruit>, allsnake: seq<Snake>, k: FruitKind, easy: bool) returns (r: seq<Fruit>)
    requires Dropped(base, fruits, Heads(allsnake), easy, DropRank(k) - 1)
    ensures Dropped(base, r, Heads(allsnake), easy, DropRank(k))
    ensures (|r| == |fruits| + 1 && r[|fruits|].kind == k) || (r == fruits && RangeFull(fruits, Heads(allsnake), easy))
  {
    var f := NewFruit(k, fruits, allsnake, easy);
    if f.None? {
      return fruits;
    }
    PlacedGrows(fruits, f.value, |base|, Heads(allsnake), easy);
    r := fruits + [f.value];
    assert r[..|base|] == fruits[..|base|];
    forall i | |base| <= i < |r|
      ensures DropRank(r[i].kind) <= DropRank(k)
    {
      if i < |fruits| {
        assert r[i] == fruits[i];
      }
    }
  }

  /** A fruit placed on a free cell keeps the list placed. */
  lemma PlacedGrows(r: seq<Fruit>, f: Fruit, n: int, heads: set<Point>, easy: bool)
    requires 0 <= n <= |r| && PlacedFrom(r, n, heads, easy)
    requires InRange(f.coords, easy) && !Occupied(f.coords, r, heads)
    ensures PlacedFrom(r + [f], n, heads, easy)
  {
    var s := r + [f];
    forall i | n <= i < |s|
      ensures InRange(s[i].coords, easy) && !Occupied(s[i].coords, s[..i], heads)
    {
      if i < |r| {
        assert s[..i] == r[..i];
      } else {
        assert s[..i] == r;
      }
    }
  }

  /** The place a snake's head takes once it is due. */
  lemma AssignStep(st: seq<Standing>, cur: int, i: int)
    requires 0 <= i < |st|
    ensures st[..i + 1][..i] == st[..i]
    ensures var (init, c) := Assign(st[..i], cur);
      Assign(st[..i + 1], cur) == if Due(st[i]) then (init + [Some(c)], c + 1) else (init + [st[i].place], c)
  {
    assert st[..i + 1][..i] == st[..i];
  }

  /** A remainder of zero means a multiple (the test is the same for Python's floored `%`). */
  lemma MultipleIff(n: int, period: int)
    requires period != 0
    ensures n % period == 0 <==> exists k :: n == k * period
  {
    if n % period == 0 {
      assert n == (n / period) * period;
    } else if exists k :: n == k * period {
      var k :| n == k * period;
      var q, r := n / period, n % period;
      assert (k - q) * period == r;
      MultipleGap(k - q, period);
      assert false;
    }
  }

  lemma MultipleGap(a: int, b: int)
    requires a != 0 && b != 0
    ensures a * b >= Iabs(b) || a * b <= -Iabs(b)
  {
    var m, n := Iabs(a), Iabs(b);
    MulAtLeast(m, n);
    assert a * b == m * n || a * b == -(m * n);
  }

  /** The base speed after `updateBaseSpeed(value)`: moved only if it stays strictly between the limits. */
  function BaseSpeedAfter(base: int, value: int): (r: int)
    ensures MIN_FPS < base < MAX_FPS ==> MIN_FPS < r < MAX_FPS
    ensures r == base + value || r == base
    ensures r == base + value <==> value == 0 || MIN_FPS < base + value < MAX_FPS
  {
    if base + value > MIN_FPS && base + value < MAX_FPS then base + value else base
  }

  /** One step of the current speed towards the goal, never past it. */
  function Towards(cur: int, goal: int): (r: int)
    ensures Iabs(r - goal) == if cur == goal then 0 else Iabs(cur - goal) - 1
    ensures cur <= goal ==> cur <= r <= goal
    ensures goal <= cur ==> goal <= r <= cur
  {
    if cur < goal then cur + 1 else if cur > goal then cur - 1 else cur
  }
}
