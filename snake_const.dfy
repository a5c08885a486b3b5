/*
 * Shared vocabulary of the snake benchmark (benchmarks/snake/classes/const.py):
 * the board geometry at the 640x480 default window, frame rates, fruit
 * timers, snake names, and the value types the game code passes around.
 */
module SnakeConst {

  /** Frame rates (const.py:6-9). */
  const FPS: int := 12
  const MIN_FPS: int := 3
  const MAX_FPS: int := 60
  const FREEZING_POINT: int := 9

  /** Board geometry at the default window of 640x480 pixels (const.py:29-35). */
  const CELLSIZE: int := 20
  const TOP_BUFFER: int := 20
  const CELLWIDTH: int := 32
  const CELLHEIGHT: int := 23

  /** `TOP_BUFFER / CELLSIZE`: the number of rows taken by the score line. */
  const TOP_ROW: int := 1

  /** The rows of the grid dictionary: the score row and the playing rows. */
  const GRID_ROWS: int := 24

  /** Snake names (const.py:72-75). */
  const SNAKEY: string := "snakey"
  const LINUS: string := "linus"
  const WIGGLES: string := "wiggles"
  const GOOBER: string := "goober"

  /** Lowest and highest timer bound handed to the random draw, per fruit (const.py:83-88). */
  const POISON_TIMER: (int, int) := (100, 200)
  const ORANGE_TIMER: (int, int) := (35, 65)
  const RASPBERRY_TIMER: (int, int) := (30, 45)
  const BLUEBERRY_TIMER: (int, int) := (20, 40)
  const LEMON_TIMER: (int, int) := (100, 100)
  const EGG_TIMER: (int, int) := (40, 70)

  /** An RGB triple, as the colour constants of const.py:43-58 are. */
  type Rgb = (int, int, int)

  const GREEN: Rgb := (0, 255, 0)
  const COBALTGREEN: Rgb := (61, 145, 64)
  const GOLDENROD: Rgb := (218, 165, 32)
  const PINK: Rgb := (255, 105, 180)

  /** The four headings `UP`, `DOWN`, `LEFT`, `RIGHT`. */
  datatype Direction = Up | Down | Left | Right

  /** A cell of the board: the `{'x': .., 'y': ..}` dictionaries of the source. */
  datatype Point = Point(x: int, y: int)

  /** The seven fruit classes of fruit.py. */
  datatype FruitKind = Apple | Poison | Orange | Raspberry | Blueberry | Lemon | Egg

  /**
   * A value of the AI's grid dictionary: `0`, `'snake'`, a fruit name, or
   * `'visited'` once an opponent's look has been there.
   */
  datatype Cell = Vacant | SnakeCell | FruitCell(kind: FruitKind) | Visited

  /** The direction that undoes `d`. */
  function Opposite(d: Direction): (r: Direction)
    ensures r != d
  {
    match d
    case Up => Down
    case Down => Up
    case Left => Right
    case Right => Left
  }

  /** The neighbour of `p` one cell towards `d`; y grows downwards. */
  function Step(p: Point, d: Direction): (q: Point)
    ensures q != p && (q.x == p.x || q.y == p.y) && -1 <= q.x - p.x <= 1 && -1 <= q.y - p.y <= 1
    ensures (d == Up <==> q.y < p.y) && (d == Down <==> q.y > p.y)
    ensures (d == Left <==> q.x < p.x) && (d == Right <==> q.x > p.x)
  {
    match d
    case Up => Point(p.x, p.y - 1)
    case Down => Point(p.x, p.y + 1)
    case Left => Point(p.x - 1, p.y)
    case Right => Point(p.x + 1, p.y)
  }

  /** Stepping back the opposite way returns to the start. */
  lemma StepOpposite(p: Point, d: Direction)
    ensures Step(Step(p, d), Opposite(d)) == p
  {
  }

  /** A per-fruit tally (`fruitEaten`): one count for each of the seven kinds. */
  type Tally = map<FruitKind, int>

  /** The tally every snake and game starts with. */
  const NO_FRUIT: Tally := map[Apple := 0, Poison := 0, Orange := 0, Raspberry := 0,
                               Blueberry := 0, Lemon := 0, Egg := 0]

  /** The tally has an entry for every kind, as the source's dictionary literal does. */
  predicate Tallied(t: Tally)
  {
    forall k: FruitKind :: k in t
  }

  /** A cell of the playing area, below the score row. */
  predicate OnBoard(p: Point)
  {
    0 <= p.x < CELLWIDTH && TOP_ROW <= p.y < CELLHEIGHT + TOP_ROW
  }
}
