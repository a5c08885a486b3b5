/*
 * The snakes of the snake benchmark (benchmarks/snake/classes/snake.py): a
 * snake's body, score, growth, multiplier and colours, its collision tests
 * and its move, and the opponent's choice of direction by a bounded flood
 * over the grid dictionary. The `Opponent` subclass is folded into the
 * `Snake` class: an opponent is a snake whose `brain` holds its constant
 * tuning, and its scratch state (`grid`, `nextDirection`) are fields of
 * every snake.
 */
module Snakes {
  import opened Common
  import opened SnakeConst
  import opened ProtectedRandom

  // ---------------------------------------------------------------------
  // Colours
  // ---------------------------------------------------------------------

  /** A colour dictionary, keyed by channel name. */
  type Colour = map<string, int>

  /** `{'red': 0, 'green': 0, 'blue': 0}`: the colour a snake starts from. */
  const CHANNELS: Colour := map["red" := 0, "green" := 0, "blue" := 0]

  /** The change that takes black to `c`. */
  function RgbChange(c: Rgb): Colour
  {
    map["red" := c.0, "green" := c.1, "blue" := c.2]
  }

  /** A channel value brought into [0, 255]. */
  function Clamp(v: int): (r: int)
    ensures 0 <= r <= 255
    ensures 0 <= v <= 255 ==> r == v
  {
    if v < 0 then 0 else if v > 255 then 255 else v
  }

  /** One channel of `updateColor` (snake.py:104-113). */
  function Channel(v: int, d: int): int
  {
    if d > 0 then (if v + d > 255 then 255 else v + d)
    else if d < 0 then (if v + d < 0 then 0 else v + d)
    else v
  }

  /** On a channel in range, the update is the clamped sum; a zero change does nothing. */
  lemma ChannelClamps(v: int, d: int)
    requires 0 <= v <= 255
    ensures Channel(v, d) == Clamp(v + d)
  {
  }

  /** Every channel the colour has is moved by the change to it; other keys of the change are ignored. */
  function Recoloured(c: Colour, change: Colour): (r: Colour)
    ensures r.Keys == c.Keys
  {
    map k | k in c :: if k in change then Channel(c[k], change[k]) else c[k]
  }

  /** Recolouring keeps channels in [0, 255] and clamps the sum on each known channel. */
  lemma RecolouredClamps(c: Colour, change: Colour)
    requires forall k :: k in c ==> 0 <= c[k] <= 255
    ensures forall k :: k in c ==> 0 <= Recoloured(c, change)[k] <= 255
    ensures forall k :: k in c && k in change ==> Recoloured(c, change)[k] == Clamp(c[k] + change[k])
    ensures forall k :: k in c && k !in change ==> Recoloured(c, change)[k] == c[k]
  {
    forall k | k in c
      ensures 0 <= Recoloured(c, change)[k] <= 255
      ensures k in change ==> Recoloured(c, change)[k] == Clamp(c[k] + change[k])
    {
      if k in change {
        ChannelClamps(c[k], change[k]);
      }
    }
  }

  /** A snake's first colour, from black, is the constructor's triple when its channels are in range. */
  lemma StartColour(c: Rgb)
    requires 0 <= c.0 <= 255 && 0 <= c.1 <= 255 && 0 <= c.2 <= 255
    ensures Recoloured(CHANNELS, RgbChange(c)) == RgbChange(c)
  {
    RecolouredClamps(CHANNELS, RgbChange(c));
  }

  /** The loop of `updateColor` and `updateColorBorder` (snake.py:102-113, 121-132), one key of the change at a time. */
  method Recolour(c: Colour, change: Colour) returns (r: Colour)
    ensures r == Recoloured(c, change)
  {
    r := c;
    var todo := change.Keys;
    while todo != {}
      invariant todo <= change.Keys && r.Keys == c.Keys
      invariant forall k :: k in c ==> r[k] == if k in change && k !in todo then Channel(c[k], change[k]) else c[k]
      decreases |todo|
    {
      var k :| k in todo;
      if k in r {
        if change[k] > 0 {
          if r[k] + change[k] > 255 {
            r := r[k := 255];
          } else {
            r := r[k := r[k] + change[k]];
          }
        } else if change[k] < 0 {
          if r[k] + change[k] < 0 {
            r := r[k := 0];
          } else {
            r := r[k := r[k] + change[k]];
          }
        }
      }
      todo := todo - {k};
    }
  }

  // ---------------------------------------------------------------------
  // Places
  // ---------------------------------------------------------------------

  /** The place names of `getPlace`. */
  function Ordinal(rank: int): string
  {
    if rank == 1 then "1st" else if rank == 2 then "2nd" else if rank == 3 then "3rd" else "last"
  }

  // ---------------------------------------------------------------------
  // Moving
  // ---------------------------------------------------------------------

  /** The direction a new snake takes (snake.py:48-55): away from its second segment, else left. */
  function Heading(c: seq<Point>): Direction
  {
    if |c| > 1 then (if c[0].x > c[1].x then Right else Left) else Left
  }

  /**
   * A living snake can move: it has a body, and a one-segment body keeps a
   * segment after the tail is cut (the source fails on an empty one).
   */
  predicate MayMove(body: seq<Point>, growth: int, trailing: bool)
  {
    |body| > 0 && (|body| == 1 ==> growth > 0 || (growth == 0 && trailing))
  }

  /** The segments a living snake keeps, and its growth afterwards (snake.py:281-294). */
  function Kept(body: seq<Point>, growth: int, trailing: bool): (r: (seq<Point>, int))
    requires MayMove(body, growth, trailing)
    ensures 0 < |r.0| <= |body| && r.0 == body[..|r.0|]
  {
    if growth < 0 then
      (if |body| > 3 then body[..|body| - 2] else body[..|body| - 1], growth + 1)
    else if growth > 0 then (body, growth - 1)
    else if !trailing then (body[..|body| - 1], growth)
    else (body, growth)
  }

  /** The body and growth of a living snake after one move (snake.py:279-311). */
  function Advanced(body: seq<Point>, growth: int, d: Direction, trailing: bool): (r: (seq<Point>, int))
    requires MayMove(body, growth, trailing)
  {
    var (kept, g) := Kept(body, growth, trailing);
    ([Step(body[0], d)] + kept, g)
  }

  /**
   * One move: the head goes one cell towards the direction, the rest of the
   * body is a prefix of the old one, and the length changes by the owed
   * growth, one unit of which is paid off.
   */
  lemma AdvancedShape(body: seq<Point>, growth: int, d: Direction, trailing: bool)
    requires MayMove(body, growth, trailing)
    ensures var (b, g) := Advanced(body, growth, d, trailing);
      b[0] == Step(body[0], d) && b[1..] == body[..|b| - 1]
    ensures var (b, g) := Advanced(body, growth, d, trailing);
      |b| == (if growth < 0 then (if |body| > 3 then |body| - 1 else |body|)
              else if growth > 0 || trailing then |body| + 1
              else |body|)
    ensures var (b, g) := Advanced(body, growth, d, trailing);
      g == (if growth < 0 then growth + 1 else if growth > 0 then growth - 1 else 0)
  {
  }

  /** A body with at least two segments moved without growth or trailing keeps its length and gives up its tail. */
  lemma AdvancedSlides(body: seq<Point>, d: Direction)
    requires |body| >= 2
    ensures Advanced(body, 0, d, false).0 == [Step(body[0], d)] + body[..|body| - 1]
  {
  }

  // ---------------------------------------------------------------------
  // Collisions
  // ---------------------------------------------------------------------

  /** A head one cell outside the board, offset by the score row (snake.py:235-238). */
  predicate HitsBound(p: Point)
  {
    p.x == -1 || p.x == CELLWIDTH || p.y == -1 + TOP_ROW || p.y == CELLHEIGHT + TOP_ROW
  }

  /** A head that leaves the board in one step is caught; one that stays on it is not. */
  lemma HitsBoundOnLeaving(p: Point, d: Direction)
    requires OnBoard(p)
    ensures HitsBound(Step(p, d)) <==> !OnBoard(Step(p, d))
  {
  }

  // ---------------------------------------------------------------------
  // The opponent's scoring
  // ---------------------------------------------------------------------

  /** The weight an opponent gives each fruit (`goal`, snake.py:355). */
  datatype Goals = Goals(apple: int, poison: int, orange: int, raspberry: int, blueberry: int, lemon: int, egg: int)

  function GoalOf(g: Goals, k: FruitKind): int
  {
    match k
    case Apple => g.apple
    case Poison => g.poison
    case Orange => g.orange
    case Raspberry => g.raspberry
    case Blueberry => g.blueberry
    case Lemon => g.lemon
    case Egg => g.egg
  }

  /** The constant tuning of an `Opponent` (snake.py:350-355). */
  datatype Brain = Brain(avoidBoundaries: bool, depthPerception: int, randomness: int,
                         preferSameDirection: int, avoidSnake: int, goal: Goals)

  /** The `nextDirection` dictionary: a score per direction. */
  datatype Scores = Scores(left: int, right: int, up: int, down: int)
  {
    function Get(d: Direction): int
    {
      match d
      case Left => left
      case Right => right
      case Up => up
      case Down => down
    }

    /** The score of `d` raised by `v`, the others as they were. */
    function Add(d: Direction, v: int): (s: Scores)
      ensures s.Get(d) == Get(d) + v
      ensures forall e :: e != d ==> s.Get(e) == Get(e)
    {
      match d
      case Left => this.(left := left + v)
      case Right => this.(right := right + v)
      case Up => this.(up := up + v)
      case Down => this.(down := down + v)
    }
  }

  const ZERO: Scores := Scores(0, 0, 0, 0)

  /** The head touches the wall on the side of `d` (snake.py:385-392). */
  predicate AtWall(h: Point, d: Direction)
  {
    match d
    case Left => h.x == 0
    case Right => h.x == CELLWIDTH - 1
    case Up => h.y == TOP_ROW
    case Down => h.y == CELLHEIGHT + TOP_ROW - 1
  }

  /** The grid holds a snake segment next to the head, towards `d` (snake.py:398-405). */
  predicate SnakeNext(g: map<Point, Cell>, h: Point, d: Direction)
  {
    Step(h, d) in g && g[Step(h, d)] == SnakeCell
  }

  /** The number of reasons that cost `d` 1000 points: reversing, a wall, an adjacent snake. */
  function Hazards(b: Brain, h: Point, dir: Direction, g: map<Point, Cell>, d: Direction): (n: int)
    ensures 0 <= n <= 3
  {
    (if d == Opposite(dir) then 1 else 0) +
    (if b.avoidBoundaries && AtWall(h, d) then 1 else 0) +
    (if SnakeNext(g, h, d) then 1 else 0)
  }

  /** The score of one direction before the look: the bonus for going on, less 1000 per hazard. */
  function Plain(b: Brain, h: Point, dir: Direction, g: map<Point, Cell>, d: Direction): int
  {
    (if d == dir then b.preferSameDirection else 0) - 1000 * Hazards(b, h, dir, g, d)
  }

  /** The deterministic scores of `updateDirection` before the look (snake.py:367-405). */
  function Initial(b: Brain, h: Point, dir: Direction, g: map<Point, Cell>): (s: Scores)
    ensures forall d :: s.Get(d) == Plain(b, h, dir, g, d)
  {
    Scores(Plain(b, h, dir, g, Left), Plain(b, h, dir, g, Right), Plain(b, h, dir, g, Up), Plain(b, h, dir, g, Down))
  }

  /** A direction with more hazards scores at least 1000 below one with fewer, less the bonus for going on. */
  lemma MoreHazardsScoreLower(b: Brain, h: Point, dir: Direction, g: map<Point, Cell>, d: Direction, e: Direction)
    requires Hazards(b, h, dir, g, d) > Hazards(b, h, dir, g, e)
    ensures Initial(b, h, dir, g).Get(d) + 1000 <= Initial(b, h, dir, g).Get(e) + Iabs(b.preferSameDirection)
  {
  }

  function Iabs(x: int): (r: int)
    ensures r >= 0 && (r == x || r == -x)
  {
    if x < 0 then -x else x
  }

  /**
   * Every score lies within the noise of `updateDirection` (snake.py:411-412)
   * above its plain value: numpy's draw from [0, randomness).
   */
  predicate Noisy(s: Scores, t: Scores, randomness: int)
  {
    forall d :: 0 <= t.Get(d) - s.Get(d) < randomness
  }

  /** `d` has the highest score, the choice `max(..., key=...)` at snake.py:420 is meant to make. */
  predicate IsBest(s: Scores, d: Direction)
  {
    forall e :: s.Get(e) <= s.Get(d)
  }

  /** The position of a direction in the insertion order of the score dictionary (snake.py:366). */
  function Rank(d: Direction): (k: nat)
    ensures k < 4 && [Left, Right, Up, Down][k] == d
  {
    match d
    case Left => 0
    case Right => 1
    case Up => 2
    case Down => 3
  }

  /** No direction before `d` in dictionary order scores as high as `d`: builtin `max` keeps the first maximum. */
  predicate FirstBest(s: Scores, d: Direction)
  {
    IsBest(s, d) && forall e :: Rank(e) < Rank(d) ==> s.Get(e) < s.Get(d)
  }

  /** A score table has exactly one first best direction. */
  lemma FirstBestUnique(s: Scores, d: Direction, e: Direction)
    requires FirstBest(s, d) && FirstBest(s, e)
    ensures d == e
  {
    assert s.Get(d) == s.Get(e);
    assert Rank(d) == Rank(e);
  }

  /**
   * With nothing in sight and noise and bonus too small to outweigh a
   * penalty, the opponent picks a direction with the fewest hazards: it
   * never reverses or runs into a wall or a snake while a safe way is open.
   */
  lemma BestAvoidsHazards(b: Brain, h: Point, dir: Direction, g: map<Point, Cell>, t: Scores, d: Direction, e: Direction)
    requires Noisy(Initial(b, h, dir, g), t, b.randomness) && IsBest(t, d)
    requires Iabs(b.preferSameDirection) + b.randomness < 1000
    ensures Hazards(b, h, dir, g, d) <= Hazards(b, h, dir, g, e)
  {
    if Hazards(b, h, dir, g, d) > Hazards(b, h, dir, g, e) {
      MoreHazardsScoreLower(b, h, dir, g, d, e);
      assert false;
    }
  }

  /** `influenceDirection` only acts when base and result have the same sign (snake.py:471-480). */
  predicate SameSign(base: int, v: int)
  {
    (v > 0 && base > 0) || (v < 0 && base < 0)
  }

  /** `influenceDirection` (snake.py:461-481): a thing at `p` seen from the head `h`. */
  function Influenced(s: Scores, h: Point, p: Point, base: int): Scores
  {
    var xdiff := h.x - p.x;
    var ydiff := h.y - p.y;
    var s1 :=
      if xdiff > 0 then (if SameSign(base, base - xdiff) then s.Add(Left, base - xdiff) else s)
      else if xdiff < 0 then (if SameSign(base, base + xdiff) then s.Add(Right, base + xdiff) else s)
      else s;
    if ydiff > 0 then (if SameSign(base, base - ydiff) then s1.Add(Up, base - ydiff) else s1)
    else if ydiff < 0 then (if SameSign(base, base + ydiff) then s1.Add(Down, base + ydiff) else s1)
    else s1
  }

  /** How far `p` lies from `h` towards `d`, zero when it does not lie that way. */
  function Offset(h: Point, p: Point, d: Direction): (n: int)
    ensures n >= 0
  {
    match d
    case Left => if p.x < h.x then h.x - p.x else 0
    case Right => if p.x > h.x then p.x - h.x else 0
    case Up => if p.y < h.y then h.y - p.y else 0
    case Down => if p.y > h.y then p.y - h.y else 0
  }

  /**
   * The influence on each direction: `base` less the distance along it, for
   * the directions `p` lies towards, and only while that keeps the sign of
   * `base`. A positive base therefore adds less the farther the thing is; a
   * negative one is never dropped.
   */
  lemma InfluenceByDirection(s: Scores, h: Point, p: Point, base: int, d: Direction)
    ensures var n := Offset(h, p, d);
      Influenced(s, h, p, base).Get(d) - s.Get(d) ==
        if n > 0 && SameSign(base, base - n) then base - n else 0
    ensures base > 0 ==> 0 <= Influenced(s, h, p, base).Get(d) - s.Get(d) < base
    ensures base < 0 ==> Influenced(s, h, p, base).Get(d) - s.Get(d) <= 0
    ensures base == 0 ==> Influenced(s, h, p, base) == s
  {
  }

  /** For a negative base the influence grows in size with the distance, where a decay of 1 per cell is documented. */
  lemma NegativeBaseGrows(s: Scores, h: Point, base: int, n: int)
    requires base < 0 && n > 0
    ensures Influenced(s, h, Point(h.x - n - 1, h.y), base).Get(Left) < Influenced(s, h, Point(h.x - n, h.y), base).Get(Left)
  {
    InfluenceByDirection(s, h, Point(h.x - n - 1, h.y), base, Left);
    InfluenceByDirection(s, h, Point(h.x - n, h.y), base, Left);
  }

  // ---------------------------------------------------------------------
  // The look
  // ---------------------------------------------------------------------

  /** Cells one step apart in either axis. */
  function Dist(p: Point, q: Point): (n: int)
    ensures n >= 0
  {
    Iabs(p.x - q.x) + Iabs(p.y - q.y)
  }

  /**
   * `look` (snake.py:422-459): from `p`, with `depth` steps left, a cell of
   * the grid that is not yet visited influences the scores if it holds a
   * snake or a fruit, is marked visited, and the search goes on left,
   * right, down and up. The head `h` is the origin of the influence.
   */
  function Explore(b: Brain, h: Point, g: map<Point, Cell>, s: Scores, p: Point, depth: int): (r: (map<Point, Cell>, Scores))
    decreases depth
  {
    if depth < 1 || p !in g || g[p] == Visited then (g, s)
    else
      var s0 := match g[p]
        case SnakeCell => Influenced(s, h, p, b.avoidSnake)
        case FruitCell(k) => Influenced(s, h, p, GoalOf(b.goal, k))
        case _ => s;
      var g0 := g[p := Visited];
      var (g1, s1) := Explore(b, h, g0, s0, Point(p.x - 1, p.y), depth - 1);
      var (g2, s2) := Explore(b, h, g1, s1, Point(p.x + 1, p.y), depth - 1);
      var (g3, s3) := Explore(b, h, g2, s2, Point(p.x, p.y + 1), depth - 1);
      Explore(b, h, g3, s3, Point(p.x, p.y - 1), depth - 1)
  }

  /** `g2` is `g` with some cells within distance `depth - 1` of `p` marked visited, and nothing else changed. */
  predicate Explored(g: map<Point, Cell>, g2: map<Point, Cell>, p: Point, depth: int)
  {
    g2.Keys == g.Keys &&
    forall q :: q in g ==> g2[q] == g[q] || (g2[q] == Visited && Dist(p, q) < depth)
  }

  /** A cell of the grid that holds a snake or a fruit. */
  predicate Seen(c: Cell)
  {
    c.SnakeCell? || c.FruitCell?
  }

  /**
   * The look adds no key to the grid, only marks cells visited, never
   * farther than `depth - 1` steps from where it starts, and leaves every
   * cell it enters visited.
   */
  lemma {:induction false} ExploreMarks(b: Brain, h: Point, g: map<Point, Cell>, s: Scores, p: Point, depth: int)
    ensures Explored(g, Explore(b, h, g, s, p, depth).0, p, depth)
    ensures depth >= 1 && p in g ==> Explore(b, h, g, s, p, depth).0[p] == Visited
    decreases depth
  {
    if depth < 1 || p !in g || g[p] == Visited {
    } else {
      var s0 := match g[p]
        case SnakeCell => Influenced(s, h, p, b.avoidSnake)
        case FruitCell(k) => Influenced(s, h, p, GoalOf(b.goal, k))
        case _ => s;
      var g0 := g[p := Visited];
      var p1, p2, p3, p4 := Point(p.x - 1, p.y), Point(p.x + 1, p.y), Point(p.x, p.y + 1), Point(p.x, p.y - 1);
      var (g1, s1) := Explore(b, h, g0, s0, p1, depth - 1);
      var (g2, s2) := Explore(b, h, g1, s1, p2, depth - 1);
      var (g3, s3) := Explore(b, h, g2, s2, p3, depth - 1);
      var (g4, s4) := Explore(b, h, g3, s3, p4, depth - 1);
      ExploreMarks(b, h, g0, s0, p1, depth - 1);
      ExploreMarks(b, h, g1, s1, p2, depth - 1);
      ExploreMarks(b, h, g2, s2, p3, depth - 1);
      ExploreMarks(b, h, g3, s3, p4, depth - 1);
      assert Explore(b, h, g, s, p, depth).0 == g4;
      ExploredChain(g, g0, g1, g2, g3, g4, p, depth);
    }
  }

  /** Four steps of the look from the neighbours of `p` stay within its reach. */
  lemma ExploredChain(g: map<Point, Cell>, g0: map<Point, Cell>, g1: map<Point, Cell>, g2: map<Point, Cell>,
                      g3: map<Point, Cell>, g4: map<Point, Cell>, p: Point, depth: int)
    requires depth >= 1 && p in g && g0 == g[p := Visited]
    requires Explored(g0, g1, Point(p.x - 1, p.y), depth - 1)
    requires Explored(g1, g2, Point(p.x + 1, p.y), depth - 1)
    requires Explored(g2, g3, Point(p.x, p.y + 1), depth - 1)
    requires Explored(g3, g4, Point(p.x, p.y - 1), depth - 1)
    ensures Explored(g, g4, p, depth) && g4[p] == Visited
  {
    forall q | q in g
      ensures g4[q] == g[q] || (g4[q] == Visited && Dist(p, q) < depth)
    {
      assert Dist(p, q) <= Dist(Point(p.x - 1, p.y), q) + 1;
      assert Dist(p, q) <= Dist(Point(p.x + 1, p.y), q) + 1;
      assert Dist(p, q) <= Dist(Point(p.x, p.y + 1), q) + 1;
      assert Dist(p, q) <= Dist(Point(p.x, p.y - 1), q) + 1;
    }
  }

  /** On a grid with neither snakes nor fruit the look leaves the scores as they were. */
  lemma {:induction false} ExploreQuiet(b: Brain, h: Point, g: map<Point, Cell>, s: Scores, p: Point, depth: int)
    requires forall q :: q in g ==> !Seen(g[q])
    ensures Explore(b, h, g, s, p, depth).1 == s
    ensures forall q :: q in Explore(b, h, g, s, p, depth).0 ==> !Seen(Explore(b, h, g, s, p, depth).0[q])
    decreases depth
  {
    if depth < 1 || p !in g || g[p] == Visited {
    } else {
      var g0 := g[p := Visited];
      var p1, p2, p3, p4 := Point(p.x - 1, p.y), Point(p.x + 1, p.y), Point(p.x, p.y + 1), Point(p.x, p.y - 1);
      ExploreQuiet(b, h, g0, s, p1, depth - 1);
      var (g1, s1) := Explore(b, h, g0, s, p1, depth - 1);
      ExploreQuiet(b, h, g1, s, p2, depth - 1);
      var (g2, s2) := Explore(b, h, g1, s, p2, depth - 1);
      ExploreQuiet(b, h, g2, s, p3, depth - 1);
      var (g3, s3) := Explore(b, h, g2, s, p3, depth - 1);
      ExploreQuiet(b, h, g3, s, p4, depth - 1);
    }
  }

  /** Every neighbour of a start cell that is in the grid is visited by a look of depth two or more. */
  lemma NeighboursVisited(b: Brain, h: Point, g: map<Point, Cell>, s: Scores, p: Point, depth: int, d: Direction)
    requires depth >= 2 && p in g && g[p] != Visited && Step(p, d) in g
    ensures Step(p, d) in Explore(b, h, g, s, p, depth).0
    ensures Explore(b, h, g, s, p, depth).0[Step(p, d)] == Visited
  {
    var s0 := match g[p]
      case SnakeCell => Influenced(s, h, p, b.avoidSnake)
      case FruitCell(k) => Influenced(s, h, p, GoalOf(b.goal, k))
      case _ => s;
    var g0 := g[p := Visited];
    var p1, p2, p3, p4 := Point(p.x - 1, p.y), Point(p.x + 1, p.y), Point(p.x, p.y + 1), Point(p.x, p.y - 1);
    var (g1, s1) := Explore(b, h, g0, s0, p1, depth - 1);
    var (g2, s2) := Explore(b, h, g1, s1, p2, depth - 1);
    var (g3, s3) := Explore(b, h, g2, s2, p3, depth - 1);
    var (g4, s4) := Explore(b, h, g3, s3, p4, depth - 1);
    ExploreMarks(b, h, g0, s0, p1, depth - 1);
    ExploreMarks(b, h, g1, s1, p2, depth - 1);
    ExploreMarks(b, h, g2, s2, p3, depth - 1);
    ExploreMarks(b, h, g3, s3, p4, depth - 1);
    assert Explore(b, h, g, s, p, depth).0 == g4;
  }

  /**
   * The dictionary the caller is left with after `updateDirection` as
   * written: `self.grid = grid` (snake.py:364) shares the caller's
   * dictionary, so the look's marks land in it.
   */
  function SharedGridAfter(b: Brain, h: Point, dir: Direction, g: map<Point, Cell>): map<Point, Cell>
  {
    Explore(b, h, g, Initial(b, h, dir, g), h, b.depthPerception).0
  }

  /**
   * As written, an opponent that updates its direction after another one,
   * on the same dictionary, no longer sees a snake segment the first one's
   * look passed over: the 1000-point penalty for running into it is lost.
   */
  lemma SharedGridHidesSnake(b: Brain, h1: Point, dir1: Direction, g: map<Point, Cell>, e: Direction, h2: Point, d: Direction)
    requires b.depthPerception >= 2 && h1 in g && g[h1] != Visited
    requires Step(h1, e) == Step(h2, d) && SnakeNext(g, h2, d)
    ensures !SnakeNext(SharedGridAfter(b, h1, dir1, g), h2, d)
  {
    NeighboursVisited(b, h1, g, Initial(b, h1, dir1, g), h1, b.depthPerception, e);
  }

  /** With the grid copied, every opponent is charged for a snake beside its head. */
  lemma SnakeNeighbourPenalised(b: Brain, h: Point, dir: Direction, g: map<Point, Cell>, d: Direction)
    requires SnakeNext(g, h, d)
    ensures Hazards(b, h, dir, g, d) >= 1
    ensures Initial(b, h, dir, g).Get(d) <= Iabs(b.preferSameDirection) - 1000
  {
  }

  /**
   * The choice snake.py:420 intends, as Python's builtin `max(..., key=...)`
   * makes it: the first direction, in dictionary order, with the highest score.
   */
  method Best(s: Scores) returns (d: Direction)
    ensures IsBest(s, d)
    ensures FirstBest(s, d)
  {
    var dirs := [Left, Right, Up, Down];
    d := dirs[0];
    var i := 1;
    while i < |dirs|
      invariant 1 <= i <= |dirs| && Rank(d) < i
      invariant forall j :: 0 <= j < i ==> s.Get(dirs[j]) <= s.Get(d)
      invariant forall j :: 0 <= j < Rank(d) ==> s.Get(dirs[j]) < s.Get(d)
    {
      if s.Get(dirs[i]) > s.Get(d) {
        d := dirs[i];
      }
      i := i + 1;
    }
    forall e
      ensures s.Get(e) <= s.Get(d)
    {
      assert dirs[Rank(e)] == e;
    }
    forall e | Rank(e) < Rank(d)
      ensures s.Get(e) < s.Get(d)
    {
      assert dirs[Rank(e)] == e;
    }
  }
  /**
   * The call at snake.py:420 as written. The star import at snake.py:14
   * brings in numpy's names through `mpfrl.units` and `mpfrl.common`
   * (mpfrl/common.py:1-4), so `max` there is numpy's `amax`, which has no
   * `key` argument: the call raises TypeError whatever the scores are.
   */
  function AmaxWithKey(s: Scores): (r: Result<Direction>)
    ensures r.Failure?
  {
    Failure("amax() got an unexpected keyword argument 'key'")
  }

  /** Every score table has a best direction, yet the call as written yields none. */
  lemma ChoiceAsWrittenFails(s: Scores)
    ensures AmaxWithKey(s).Failure?
    ensures exists d :: IsBest(s, d)
  {
    var m := s.Get(Left);
    var d := Left;
    if s.Get(Right) > m { m, d := s.Get(Right), Right; }
    if s.Get(Up) > m { m, d := s.Get(Up), Up; }
    if s.Get(Down) > m { m, d := s.Get(Down), Down; }
    assert IsBest(s, d);
  }


  // ---------------------------------------------------------------------
  // The snake
  // ---------------------------------------------------------------------

  class Snake {
    const name: string
    const player: bool
    /** The opponent's tuning; `None` for the player's snake and plain snakes. */
    const brain: Option<Brain>
    var alive: bool
    /** The segments, head first. */
    var coords: seq<Point>
    var direction: Direction
    var color: Colour
    var colorBorder: Colour
    /** Growth still owed (positive) or to be shed (negative), one unit per move. */
    var growth: int
    var multiplier: int
    var multipliertimer: int
    var score: int
    /** The order of death; `False` in the source until the snake dies. */
    var place: Option<int>
    var scored: bool
    var fruitEaten: Tally
    /** The opponent's copy of the grid, marked as its look explores. */
    var grid: map<Point, Cell>
    var nextDirection: Scores

    /** `Snake.__init__` (snake.py:34-72), with the body given. */
    constructor (n: string, c: seq<Point>, colorSnake: Rgb, colorBorderRgb: Rgb)
      ensures name == n && player == (n == SNAKEY) && brain.None?
      ensures alive && coords == c && direction == Heading(c)
      ensures color == Recoloured(CHANNELS, RgbChange(colorSnake))
      ensures colorBorder == Recoloured(CHANNELS, RgbChange(colorBorderRgb))
      ensures growth == 0 && multiplier == 1 && multipliertimer == 0 && score == 0
      ensures place.None? && scored && fruitEaten == NO_FRUIT
    {
      var col := Recolour(CHANNELS, RgbChange(colorSnake));
      var border := Recolour(CHANNELS, RgbChange(colorBorderRgb));
      name := n;
      player := n == SNAKEY;
      brain := None;
      alive := true;
      coords := c;
      direction := Heading(c);
      color := col;
      colorBorder := border;
      growth := 0;
      multiplier := 1;
      multipliertimer := 0;
      score := 0;
      place := None;
      scored := true;
      fruitEaten := NO_FRUIT;
      grid := map[];
      nextDirection := ZERO;
    }

    /** `Opponent.__init__` (snake.py:348-355): a snake with a brain; `g` lists the weights of the seven fruits. */
    constructor Bot(n: string, c: seq<Point>, sc: Rgb, sb: Rgb, r: int, p: int, a: int, g: seq<int>)
      requires |g| >= 7
      ensures name == n && player == (n == SNAKEY)
      ensures brain == Some(Brain(true, 20, r, p, a, Goals(g[0], g[1], g[2], g[3], g[4], g[5], g[6])))
      ensures alive && coords == c && direction == Heading(c)
      ensures color == Recoloured(CHANNELS, RgbChange(sc))
      ensures colorBorder == Recoloured(CHANNELS, RgbChange(sb))
      ensures growth == 0 && multiplier == 1 && multipliertimer == 0 && score == 0
      ensures place.None? && scored && fruitEaten == NO_FRUIT
    {
      var col := Recolour(CHANNELS, RgbChange(sc));
      var border := Recolour(CHANNELS, RgbChange(sb));
      name := n;
      player := n == SNAKEY;
      brain := Some(Brain(true, 20, r, p, a, Goals(g[0], g[1], g[2], g[3], g[4], g[5], g[6])));
      alive := true;
      coords := c;
      direction := Heading(c);
      color := col;
      colorBorder := border;
      growth := 0;
      multiplier := 1;
      multipliertimer := 0;
      score := 0;
      place := None;
      scored := true;
      fruitEaten := NO_FRUIT;
      grid := map[];
      nextDirection := ZERO;
    }

    /** `updateScore` (snake.py:74-79): points count times the multiplier. */
    method UpdateScore(points: int)
      modifies this`score
      ensures score == old(score) + points * multiplier
    {
      score := score + points * multiplier;
    }

    /** `updateGrowth` (snake.py:81-86): owed growth stacks. */
    method UpdateGrowth(g: int)
      modifies this`growth
      ensures growth == old(growth) + g
    {
      growth := growth + g;
    }

    /** `updateMultiplier` (snake.py:88-94): the multiplier is replaced, its time stacks. */
    method UpdateMultiplier(m: int, t: int)
      modifies this`multiplier, this`multipliertimer
      ensures multiplier == m && multipliertimer == old(multipliertimer) + t
    {
      multiplier := m;
      multipliertimer := multipliertimer + t;
    }

    /** `updateColor` (snake.py:96-113). */
    method UpdateColor(change: Colour)
      modifies this`color
      ensures color == Recoloured(old(color), change)
    {
      color := Recolour(color, change);
    }

    /** `updateColorBorder` (snake.py:115-132). */
    method UpdateColorBorder(change: Colour)
      modifies this`colorBorder
      ensures colorBorder == Recoloured(old(colorBorder), change)
    {
      colorBorder := Recolour(colorBorder, change);
    }

    /**
     * `getPlace` (snake.py:184-210). A snake without a place (Python's
     * `False`, which also equals 0) is alive: '1st*'. When every snake is
     * dead, the last to die is 1st; in a game ended early the living share
     * first place and the last of the dead is 2nd.
     */
    function Place(totaldead: int, totalscored: int): (s: string)
      reads this
      ensures place.None? || place.value == 0 ==> s == "1st*"
      ensures place.Some? && place.value != 0 && totaldead == totalscored ==>
        s == Ordinal(totalscored - place.value + 1)
      ensures place.Some? && place.value != 0 && totaldead != totalscored ==>
        s == (if totaldead - place.value + 2 == 1 then "last" else Ordinal(totaldead - place.value + 2))
      ensures s != "1st" || (totaldead == totalscored && place == Some(totalscored))
    {
      var totalalive := totalscored - totaldead;
      if place.None? || place.value == 0 then "1st*"
      else if totalalive == 0 then
        if place.value == totalscored then "1st"
        else if place.value + 1 == totalscored then "2nd"
        else if place.value + 2 == totalscored then "3rd"
        else "last"
      else if place.value == totalscored - totalalive then "2nd"
      else if place.value + 1 == totalscored - totalalive then "3rd"
      else "last"
    }

    /** `getCoords` (snake.py:222-228): the head, when there is one. */
    function Head(): (h: Option<Point>)
      reads this
      ensures h.Some? <==> |coords| > 0
      ensures h.Some? ==> h.value == coords[0]
    {
      if |coords| > 0 then Some(coords[0]) else None
    }

    /** `checkCoords` (snake.py:212-220): the head is at (x, y); never for an empty body. */
    function CheckCoords(x: int, y: int): (r: bool)
      reads this
      ensures r <==> Head() == Some(Point(x, y))
    {
      if |coords| > 0 then coords[0].x == x && coords[0].y == y else false
    }

    /** `boundsCollision` (snake.py:230-241): the head is just outside the board. */
    function BoundsCollision(): (r: bool)
      reads this
      ensures r ==> |coords| > 0 && !OnBoard(coords[0])
      ensures |coords| > 0 && OnBoard(coords[0]) ==> !r
    {
      if |coords| > 0 then HitsBound(coords[0]) else false
    }

    /** `fruitCollision` (snake.py:263-271): the head is on the fruit's cell. */
    function FruitCollision(p: Point): (r: bool)
      reads this
      ensures r <==> |coords| > 0 && coords[0] == p
    {
      Head() == Some(p)
    }

    /**
     * `snakeCollision` (snake.py:243-261): the head lies on a segment of
     * `other`; against itself the head is left out. False when either body
     * is empty.
     */
    method SnakeCollision(other: Snake) returns (hit: bool)
      ensures hit <==> (|coords| > 0 && |other.coords| > 0 &&
        exists i :: (if other == this then 1 else 0) <= i < |other.coords| && other.coords[i] == coords[0])
    {
      if |coords| > 0 && |other.coords| > 0 {
        var start := if other == this then 1 else 0;
        var i := start;
        while i < |other.coords|
          invariant start <= i <= |other.coords|
          invariant forall j :: start <= j < i ==> other.coords[j] != coords[0]
        {
          if other.coords[i].x == coords[0].x && other.coords[i].y == coords[0].y {
            return true;
          }
          i := i + 1;
        }
      }
      return false;
    }

    /**
     * `move` (snake.py:273-315). A living snake cuts its tail as its growth
     * says and puts a new head one cell ahead; a dead one only loses its
     * last segment.
     */
    method Move(trailing: bool)
      requires alive ==> MayMove(coords, growth, trailing)
      modifies this`coords, this`growth
      ensures alive ==> (coords, growth) == Advanced(old(coords), old(growth), direction, trailing)
      ensures !alive ==> (growth == old(growth) &&
        coords == if |old(coords)| > 0 then old(coords)[..|old(coords)| - 1] else old(coords))
    {
      if alive {
        if growth < 0 {
          growth := growth + 1;
          if |coords| > 3 {
            coords := coords[..|coords| - 2];
          } else {
            coords := coords[..|coords| - 1];
          }
        } else if growth > 0 {
          growth := growth - 1;
        } else if !trailing {
          coords := coords[..|coords| - 1];
        }
        var head := coords[0];
        var newhead := match direction
          case Up => Point(head.x, head.y - 1)
          case Down => Point(head.x, head.y + 1)
          case Left => Point(head.x - 1, head.y)
          case Right => Point(head.x + 1, head.y);
        coords := [newhead] + coords;
      } else if |coords| > 0 {
        coords := coords[..|coords| - 1];
      }
    }

    /** `influenceDirection` (snake.py:461-481). */
    method InfluenceDirection(p: Point, base: int)
      requires |coords| > 0
      modifies this`nextDirection
      ensures nextDirection == Influenced(old(nextDirection), coords[0], p, base)
    {
      var xdiff := coords[0].x - p.x;
      var ydiff := coords[0].y - p.y;
      if xdiff > 0 {
        if (base - xdiff > 0 && base > 0) || (base - xdiff < 0 && base < 0) {
          nextDirection := nextDirection.Add(Left, base - xdiff);
        }
      } else if xdiff < 0 {
        if (base + xdiff > 0 && base > 0) || (base + xdiff < 0 && base < 0) {
          nextDirection := nextDirection.Add(Right, base + xdiff);
        }
      }
      if ydiff > 0 {
        if (base - ydiff > 0 && base > 0) || (base - ydiff < 0 && base < 0) {
          nextDirection := nextDirection.Add(Up, base - ydiff);
        }
      } else if ydiff < 0 {
        if (base + ydiff > 0 && base > 0) || (base + ydiff < 0 && base < 0) {
          nextDirection := nextDirection.Add(Down, base + ydiff);
        }
      }
    }

    /** `look` (snake.py:422-459), on the opponent's copy of the grid. */
    method Look(p: Point, depth: int)
      requires brain.Some? && |coords| > 0
      modifies this`grid, this`nextDirection
      ensures (grid, nextDirection) == Explore(brain.value, coords[0], old(grid), old(nextDirection), p, depth)
      decreases depth
    {
      if depth < 1 {
        return;
      }
      if p in grid {
        var c := grid[p];
        if c == Visited {
          return;
        }
        if c == SnakeCell {
          InfluenceDirection(p, brain.value.avoidSnake);
        } else if c.FruitCell? {
          InfluenceDirection(p, GoalOf(brain.value.goal, c.kind));
        }
        grid := grid[p := Visited];
        Look(Point(p.x - 1, p.y), depth - 1);
        Look(Point(p.x + 1, p.y), depth - 1);
        Look(Point(p.x, p.y + 1), depth - 1);
        Look(Point(p.x, p.y - 1), depth - 1);
      }
    }

    /**
     * The scoring part of `Opponent.updateDirection` (snake.py:363-412): the
     * deterministic scores, the look from the head and a random amount per
     * direction. The grid is the opponent's own copy; the caller's
     * dictionary is a value and is left as it was. numpy's draw raises for a
     * randomness of 0 or less, and then the scores stay as the look left them.
     */
    method ScoreDirections(g: map<Point, Cell>) returns (ok: bool)
      requires brain.Some? && |coords| > 0
      modifies this`grid, this`nextDirection
      ensures var b := brain.value;
        var e := Explore(b, coords[0], g, Initial(b, coords[0], direction, g), coords[0], b.depthPerception);
        grid == e.0 && (ok <==> b.randomness > 0) &&
        (if ok then Noisy(e.1, nextDirection, b.randomness) else nextDirection == e.1)
    {
      grid := g;
      nextDirection := PlainScores(brain.value, coords[0], direction, g);
      Look(coords[0], brain.value.depthPerception);
      var noisy := AddNoise(nextDirection, brain.value.randomness);
      ok := noisy.Success?;
      if ok {
        nextDirection := noisy.value;
      }
    }

    /**
     * `Opponent.updateDirection` (snake.py:357-420) with the choice it
     * intends: the scores, then the direction with the highest score. It
     * fails, keeping the heading, where numpy's draw raises.
     */
    method UpdateDirection(g: map<Point, Cell>) returns (ok: bool)
      requires brain.Some? && |coords| > 0
      modifies this`grid, this`nextDirection, this`direction
      ensures var b := brain.value;
        var e := Explore(b, coords[0], g, Initial(b, coords[0], old(direction), g), coords[0], b.depthPerception);
        grid == e.0 && (ok <==> b.randomness > 0) &&
        (if ok then Noisy(e.1, nextDirection, b.randomness) && IsBest(nextDirection, direction) && FirstBest(nextDirection, direction)
         else nextDirection == e.1 && direction == old(direction))
    {
      ok := ScoreDirections(g);
      if ok {
        direction := Best(nextDirection);
      }
    }

    /**
     * `Opponent.updateDirection` as written: the look and the noise run and
     * leave their marks, then the choice at snake.py:420 raises, so the
     * heading never changes.
     */
    method UpdateDirectionAsWritten(g: map<Point, Cell>) returns (r: Result<Direction>)
      requires brain.Some? && |coords| > 0
      modifies this`grid, this`nextDirection
      ensures var b := brain.value;
        var e := Explore(b, coords[0], g, Initial(b, coords[0], direction, g), coords[0], b.depthPerception);
        grid == e.0 && r.Failure? &&
        (if b.randomness > 0 then Noisy(e.1, nextDirection, b.randomness) else nextDirection == e.1)
    {
      var ok := ScoreDirections(g);
      if !ok {
        return Failure("low >= high");
      }
      r := AmaxWithKey(nextDirection);
    }
  }

  /**
   * The deterministic part of `updateDirection` (snake.py:367-405), in the
   * source's order: the reversal, the walls, the bonus for going on, the
   * adjacent snakes.
   */
  method PlainScores(b: Brain, h: Point, dir: Direction, g: map<Point, Cell>) returns (s: Scores)
    ensures s == Initial(b, h, dir, g)
  {
    s := ZERO;
    if dir == Left {
      s := s.Add(Right, -1000);
    } else if dir == Right {
      s := s.Add(Left, -1000);
    } else if dir == Up {
      s := s.Add(Down, -1000);
    } else {
      s := s.Add(Up, -1000);
    }
    ghost var s1 := s;
    assert forall d :: s1.Get(d) == if d == Opposite(dir) then -1000 else 0;
    if b.avoidBoundaries {
      s := AvoidWalls(s, h);
    }
    ghost var s2 := s;
    s := s.Add(dir, b.preferSameDirection);
    ghost var s3 := s;
    s := AvoidSnakes(s, h, g);
    forall d
      ensures s.Get(d) == Plain(b, h, dir, g, d)
    {
      assert s2.Get(d) == s1.Get(d) - if b.avoidBoundaries && AtWall(h, d) then 1000 else 0;
      assert s3.Get(d) == s2.Get(d) + if d == dir then b.preferSameDirection else 0;
      assert s.Get(d) == s3.Get(d) - if SnakeNext(g, h, d) then 1000 else 0;
      PlainTerms(b, h, dir, g, d);
    }
    InitialScores(b, h, dir, g, s);
  }

  /** The plain score as the sum of the four terms `updateDirection` adds in turn. */
  lemma PlainTerms(b: Brain, h: Point, dir: Direction, g: map<Point, Cell>, d: Direction)
    ensures Plain(b, h, dir, g, d) ==
      (if d == Opposite(dir) then -1000 else 0) - (if b.avoidBoundaries && AtWall(h, d) then 1000 else 0) +
      (if d == dir then b.preferSameDirection else 0) - (if SnakeNext(g, h, d) then 1000 else 0)
  {
  }

  /** The wall penalties of `updateDirection` (snake.py:385-392). */
  method AvoidWalls(s: Scores, h: Point) returns (t: Scores)
    ensures forall d :: t.Get(d) == s.Get(d) - if AtWall(h, d) then 1000 else 0
  {
    t := s;
    if h.x == 0 {
      t := t.Add(Left, -1000);
    }
    if h.x == CELLWIDTH - 1 {
      t := t.Add(Right, -1000);
    }
    if h.y == TOP_ROW {
      t := t.Add(Up, -1000);
    }
    if h.y == CELLHEIGHT + TOP_ROW - 1 {
      t := t.Add(Down, -1000);
    }
  }

  /** The penalties for snakes beside the head (snake.py:398-405). */
  method AvoidSnakes(s: Scores, h: Point, g: map<Point, Cell>) returns (t: Scores)
    ensures forall d :: t.Get(d) == s.Get(d) - if SnakeNext(g, h, d) then 1000 else 0
  {
    var x, y := h.x, h.y;
    t := s;
    if Point(x - 1, y) in g && g[Point(x - 1, y)] == SnakeCell {
      t := t.Add(Left, -1000);
    }
    if Point(x + 1, y) in g && g[Point(x + 1, y)] == SnakeCell {
      t := t.Add(Right, -1000);
    }
    if Point(x, y - 1) in g && g[Point(x, y - 1)] == SnakeCell {
      t := t.Add(Up, -1000);
    }
    if Point(x, y + 1) in g && g[Point(x, y + 1)] == SnakeCell {
      t := t.Add(Down, -1000);
    }
  }

  /**
   * The random term of `updateDirection` (snake.py:411-412). Through the star
   * import at snake.py:14, `random` there is numpy's module, not the
   * package's: each direction gets a draw from [0, randomness), and for a
   * randomness of 0 or less numpy raises ValueError at the first draw.
   */
  method AddNoise(s: Scores, randomness: int) returns (r: Result<Scores>)
    ensures r.Failure? <==> randomness <= 0
    ensures r.Success? ==> Noisy(s, r.value, randomness)
  {
    if randomness <= 0 {
      return Failure("low >= high");
    }
    var dirs := [Left, Right, Up, Down];
    var t := s;
    var i := 0;
    while i < |dirs|
      invariant 0 <= i <= |dirs|
      invariant forall j :: 0 <= j < i ==> 0 <= t.Get(dirs[j]) - s.Get(dirs[j]) < randomness
      invariant forall j :: i <= j < |dirs| ==> t.Get(dirs[j]) == s.Get(dirs[j])
    {
      var v := NumpyRandInt(0, randomness);
      t := t.Add(dirs[i], v);
      i := i + 1;
    }
    forall e
      ensures 0 <= t.Get(e) - s.Get(e) < randomness
    {
      var j := match e case Left => 0 case Right => 1 case Up => 2 case Down => 3;
      assert dirs[j] == e;
    }
    return Success(t);
  }

  /** The scores built step by step in `UpdateDirection` are the plain scores. */
  lemma InitialScores(b: Brain, h: Point, dir: Direction, g: map<Point, Cell>, s: Scores)
    requires forall d :: s.Get(d) == Plain(b, h, dir, g, d)
    ensures s == Initial(b, h, dir, g)
  {
  }
}
