# mpf_rl in Dafny

A model of mpf_rl with proofs about it. mpf_rl is a reinforcement-learning experiment built on the
Memory-Prediction Framework (MPF). It has two parts, which the model follows module by module.

**The engine** (`mpfrl/`) is a tree of MPF units. Each unit pairs a spatial self-organising map
(SOM) with an optional temporal SOM.

- One evaluation of the hierarchy runs a forward pass from the leaves to the root, then a backward
  pass from the root back down to the leaves.
- In the forward pass, each SOM finds its best-matching unit (BMU) and pulls the neurons around the
  BMU towards the input. Two update rules are modelled: Miller's online rule and the parameterless
  PL-SOM.
- A first-order Markov predictor, built from transition counts between successive BMUs, predicts
  the next activation.
- A categorical sampler draws neurons in proportion to a weight vector and adds decaying noise.
- A scalar reward biases the backward pass, through a reward-correlation vector that each unit
  keeps.

**The benchmarks** are two games the engine was tried on:

- **Tic-tac-toe** (`benchmarks/tictactoe/`). It has:
  - a base-3 field encoding;
  - an exhaustive game-tree builder;
  - a maximin player that ranks moves;
  - the move-layout adjustment and correction that lets the MPF engine play;
  - the game referee's win check and reward schedule.
- **Snake** (`benchmarks/snake/classes/`). It has:
  - snakes with colour, growth and movement;
  - a rule-based opponent that scores the four directions;
  - seven fruit kinds with timers;
  - the game-state bookkeeping: speed, bonus rounds, deaths and placings;
  - the grid dictionary and numeric buffer handed to the opponents;
  - the menu buttons;
  - the package's own bound-normalising `randint`.

How the Python is modelled:

- Python floats are `real`, and numpy vectors are `seq<real>`.
- Objects the source updates in place are classes with `modifies` frames: the SOM, the unit, the
  hierarchy, the noise sources, the snake, the fruit, the game state and the buttons.
- Randomness and the likelihood transforms (`exp`, `sqrt`) are parameters or draw methods whose
  contract is only the range of the draw.
- A zero total that the source turns into NaN, or an exception the source raises, becomes the
  `Failure` (or `None`) case of a `Result` (or `Option`).

Where the code and its own documentation disagree, the model follows the code, except for the PL-SOM maximum (see "Left out"). The documentation is the source's doc comments, and for the PL-SOM the paper it follows, Berglund and Sitte 2006 (cited at mpfrl/SOM.py:643 and 666):

- The PL-SOM running maximum of the BMU distance is taken with numpy's `max(dist, denom)`, which
  passes `denom` as an axis argument. The model reads it as the scalar maximum of Berglund and
  Sitte's PL-SOM. It is listed under "Left out".
- `GaussianNoise.__call__` reads `self.lower`, which the class never sets. So every draw fails
  after the magnitude has decayed (`Noise.GaussianNoise.Call`).
- The reward bias applies numpy `min`/`max` to a scalar. These reduce the adjusted correlations to
  one number, so the bias vector is uniform, and re-weighting by it changes nothing beyond
  renormalising (`Units.UniformBiasIsNeutral`).
- The doc comment of the snake's `influenceDirection` speaks of a decay of 1 per distance; the code
  adds `base - distance` only while that keeps the sign of `base`, so for a negative base the penalty
  grows with distance (`Snakes.NegativeBaseGrows`).

## Model

| member | source | states |
|---|---|---|
| Common.ArgMin | mpfrl/SOM.py:417 | numpy's `argmin`: an index of the vector holding its smallest entry, the first among ties |
| Common.ArgMax | mpfrl/units.py:389 | numpy's `argmax`: an index of the vector holding its largest entry, the first among ties |
| Common.NormalisedSumsToOne | mpfrl/units.py:417 | dividing a vector by its numpy `sum`, when that is not zero, leaves a vector whose entries sum to 1 |
| Common.UniformVector | mpfrl/hierarchy.py:277 | numpy's `random.uniform(lo, hi, n)`: n draws, each in [lo, hi) |
| Noise.DecayStep | mpfrl/noise.py:22-25 | one draw never takes the magnitude below its floor |
| Noise.DecayClosedForm | mpfrl/noise.py:22-25 | after k draws the magnitude is start − k·decrement while that is at or above the floor. From then on it is the floor, and the decrement is 0 |
| Noise.DecayBounded | mpfrl/noise.py:22-25 | with a non-negative decrement, the magnitude stays in [floor, start] for any number of draws |
| Noise.DecayClampedIsFixed | mpfrl/noise.py:22-25 | once clamped to the floor with a zero decrement, further draws change nothing |
| Noise.FirstDrawUsesGivenMagnitude | mpfrl/noise.py:17 | the constructor stores magnitude + decrement, so the first draw uses exactly the magnitude the caller gave |
| Noise.UniformNoise.constructor | mpfrl/noise.py:11-19 | fields as given, shape 1, stored magnitude pre-incremented by the decrement |
| Noise.UniformNoise.Call | mpfrl/noise.py:21-27 | the magnitude state takes one decay step; each of the `shape` outputs is a raw draw in [lower, upper) times the new magnitude |
| Noise.GaussianNoise.constructor | mpfrl/noise.py:30-37 | fields as given, shape 1, stored magnitude pre-incremented |
| Noise.GaussianNoise.Call | mpfrl/noise.py:39-45 | the magnitude decays as in the uniform source, and then the call always fails, because the class has no `lower` |
| ProtectedRandom.Bounds | benchmarks/snake/classes/random.py:8-13 | the interval handed to numpy is ordered and never empty: bounds in either order, with equal bounds widened by one |
| ProtectedRandom.NumpyRandInt | benchmarks/snake/classes/random.py:15 | numpy's half-open draw returns a value in [low, high) |
| ProtectedRandom.RandInt | benchmarks/snake/classes/random.py:7-15 | the result is drawable from the normalised bounds |
| ProtectedRandom.DrawableIs | benchmarks/snake/classes/random.py:7-15 | exactly the values randint can return: the bound itself when the bounds are equal, otherwise [min, max) of the two bounds |
| ProtectedRandom.DrawableSymmetric | benchmarks/snake/classes/random.py:8-11 | swapping the bounds does not change what can be drawn |
| ProtectedRandom.UpperBoundNeverDrawn | benchmarks/snake/classes/random.py:15 | with distinct bounds the upper one is never drawn, while both low and high − 1 can be |
| SnakeConst.Opposite | benchmarks/snake/classes/snake.py:373-381 | the direction that kills the snake is never its own direction |
| SnakeConst.Step | benchmarks/snake/classes/snake.py:296-308 | the new head is one orthogonal unit step from the old one: up and down change only y (y grows downwards), left and right only x |
| SnakeConst.StepOpposite | benchmarks/snake/classes/snake.py:296-308 | a step followed by a step in the opposite direction returns to the start |
| Buttons.EdgeNotInside | benchmarks/snake/classes/button.py:23-30 | a point on a rectangle's edge is never pressed, and a rectangle less than two pixels wide or high can never be pressed |
| Buttons.Button.Pressed | benchmarks/snake/classes/button.py:23-30 | true iff the mouse is strictly inside the rectangle, which is then at least two pixels wide and high |
| Buttons.Button.constructor | benchmarks/snake/classes/button.py:12-18 | the button keeps the rectangle it is given (the font rendering that sizes it is left out) |
| Buttons.SelectButton.constructor | benchmarks/snake/classes/button.py:38-41 | rectangle, value and active flag as given |
| Buttons.SelectButton.Pressed | benchmarks/snake/classes/button.py:51-52 | true iff the mouse is strictly inside the rectangle |
| Buttons.SelectButton.SetActive | benchmarks/snake/classes/button.py:57-62 | this button is active, and every other button in the group is inactive. A button left off the list keeps its state |
| Buttons.OneActive | benchmarks/snake/classes/button.py:57-62 | after `SetActive`, the pressed button is the only active one in its group |
| Buttons.PartsApart | benchmarks/snake/classes/button.py:91-92 | the decrease arrow, the value and the increase arrow never overlap, so the order in which `pressed` tests them decides nothing |
| Buttons.InputButton.constructor | benchmarks/snake/classes/button.py:72-92 | value, rectangle, flag and bounds as given; arrows placed one size to the left and right |
| Buttons.InputButton.SetValue | benchmarks/snake/classes/button.py:131-134 | a change is applied iff the new value lies in [min, max], and a value in range stays in range |
| Buttons.InputButton.Pressed | benchmarks/snake/classes/button.py:104-120 | the decrease arrow lowers the value by one and the increase arrow raises it, each within bounds. Any hit makes this button the group's only active one. A miss changes nothing |
| Snakes.Clamp | benchmarks/snake/classes/snake.py:104-113 | a channel is brought into [0, 255], and a value already in range is untouched |
| Snakes.ChannelClamps | benchmarks/snake/classes/snake.py:104-113 | on an in-range channel, each branch of the update (raise, lower, no change) is the clamped sum |
| Snakes.Recoloured | benchmarks/snake/classes/snake.py:96-113 | recolouring keeps exactly the colour's own channels; other keys of the change are ignored |
| Snakes.RecolouredClamps | benchmarks/snake/classes/snake.py:96-113 | channels stay in [0, 255]. A channel the change names gets the clamped sum, and one it omits is unchanged |
| Snakes.StartColour | benchmarks/snake/classes/snake.py:34-72 | recolouring black by an in-range triple gives exactly that triple, the snake's starting colour |
| Snakes.Recolour | benchmarks/snake/classes/snake.py:102-113 | the loop over the change's keys computes the recoloured map |
| Snakes.Kept | benchmarks/snake/classes/snake.py:281-294 | the growth rule leaves a non-empty prefix of the old body |
| Snakes.AdvancedShape | benchmarks/snake/classes/snake.py:279-311 | after a move the head is one cell ahead and the rest is a prefix of the old body. The length follows the growth rule (−1 for shrinking bodies over 3 segments, +1 for growth or trailing, otherwise unchanged), and one unit of growth is paid off |
| Snakes.AdvancedSlides | benchmarks/snake/classes/snake.py:279-311 | with no growth and no trailing, the snake keeps its length and gives up its tail |
| Snakes.HitsBoundOnLeaving | benchmarks/snake/classes/snake.py:235-238 | from a cell on the board, the bounds check fires iff the next head is off the board |
| Snakes.Hazards | benchmarks/snake/classes/snake.py:367-405 | each direction is penalised for 0 to 3 hazards: reversing, a wall, an adjacent snake |
| Snakes.Initial | benchmarks/snake/classes/snake.py:367-405 | the deterministic scores give each direction its bonus for going on, less 1000 per hazard |
| Snakes.MoreHazardsScoreLower | benchmarks/snake/classes/snake.py:367-405 | a direction with more hazards scores at least 1000 below one with fewer, up to the same-direction bonus |
| Snakes.BestAvoidsHazards | benchmarks/snake/classes/snake.py:367-420 | with bonus and noise under 1000, the direction with the highest noisy score has the fewest hazards: the opponent never reverses, or runs into a wall or a snake, while a safe way is open |
| Snakes.InfluenceByDirection | benchmarks/snake/classes/snake.py:461-481 | each direction's score changes by base − distance for the directions the thing lies towards, and only while that keeps the sign of base. A positive base adds less than base, a negative one subtracts, and a zero base changes nothing |
| Snakes.NegativeBaseGrows | benchmarks/snake/classes/snake.py:468-481 | for a negative base, the penalty grows with distance; the documented decay of 1 per distance holds only for positive bases |
| Snakes.ExploreMarks | benchmarks/snake/classes/snake.py:422-459 | the look adds no key to the grid and marks only cells within depth − 1 steps as visited. Its start cell ends visited |
| Snakes.ExploredChain | benchmarks/snake/classes/snake.py:448-459 | the four recursive looks from the neighbours stay within the reach of the start |
| Snakes.ExploreQuiet | benchmarks/snake/classes/snake.py:422-459 | on a grid with no snake and no fruit, the look leaves the scores unchanged |
| Snakes.NeighboursVisited | benchmarks/snake/classes/snake.py:448-459 | a look of depth at least 2 visits every grid neighbour of its start |
| Snakes.SharedGridHidesSnake | benchmarks/snake/classes/snake.py:364 | as written, an opponent updating after another on the same dictionary no longer sees a snake segment that the first one's look passed over |
| Snakes.SnakeNeighbourPenalised | benchmarks/snake/classes/snake.py:398-405 | with the grid copied, a snake beside the head always costs that direction at least 1000 points |
| Snakes.Best | benchmarks/snake/classes/snake.py:420 | the choice the line intends, by Python's builtin `max` with a key: the chosen direction has the highest score, and every direction before it in the order Left, Right, Up, Down (the insertion order of the dictionary at snake.py:366) scores strictly less |
| Snakes.FirstBestUnique | benchmarks/snake/classes/snake.py:420 | a score table has exactly one first best direction, so the tie-break decides the choice |
| Snakes.AmaxWithKey | benchmarks/snake/classes/snake.py:420 | the line as written: `max` is numpy's `amax` through the star import at snake.py:14, which takes no `key`, so the call always fails |
| Snakes.ChoiceAsWrittenFails | benchmarks/snake/classes/snake.py:420 | for every score table some direction is best, yet the call as written yields a failure |
| Snakes.Snake.constructor | benchmarks/snake/classes/snake.py:34-72 | name, body and colours as given; heading away from the second segment; alive with zero growth, score and timer, and multiplier 1 |
| Snakes.Snake.Bot | benchmarks/snake/classes/snake.py:348-355 | as the constructor, plus the opponent's brain from its tuning and the seven fruit weights |
| Snakes.Snake.UpdateScore | benchmarks/snake/classes/snake.py:74-79 | the score rises by the points times the multiplier |
| Snakes.Snake.UpdateGrowth | benchmarks/snake/classes/snake.py:81-86 | owed growth accumulates |
| Snakes.Snake.UpdateMultiplier | benchmarks/snake/classes/snake.py:88-94 | the multiplier is replaced and its timer accumulates |
| Snakes.Snake.UpdateColor | benchmarks/snake/classes/snake.py:96-113 | the colour is recoloured by the change |
| Snakes.Snake.UpdateColorBorder | benchmarks/snake/classes/snake.py:115-132 | the border colour is recoloured by the change |
| Snakes.Snake.Place | benchmarks/snake/classes/snake.py:184-210 | a snake with no place, or place 0, is "1st*". When every snake has been scored, the ordinal counts from the last to die. Otherwise it is shifted, and a rank of 1 becomes "last". "1st" goes only to the last snake to die when everyone is scored |
| Snakes.Snake.Head | benchmarks/snake/classes/snake.py:222-228 | the head exists iff the body is non-empty, and it is the first segment |
| Snakes.Snake.CheckCoords | benchmarks/snake/classes/snake.py:212-220 | true iff the head is at (x, y) |
| Snakes.Snake.BoundsCollision | benchmarks/snake/classes/snake.py:230-241 | fires only for a body whose head is off the board, and never for a head on the board |
| Snakes.Snake.FruitCollision | benchmarks/snake/classes/snake.py:263-271 | true iff the head is on the fruit's cell |
| Snakes.Snake.SnakeCollision | benchmarks/snake/classes/snake.py:243-261 | true iff the head lies on a segment of the other snake; against itself the head segment is skipped |
| Snakes.Snake.Move | benchmarks/snake/classes/snake.py:273-315 | a living snake takes the advanced body and growth; a dead one keeps its growth and only loses its last segment |
| Snakes.Snake.InfluenceDirection | benchmarks/snake/classes/snake.py:461-481 | the scores become the influenced scores of a thing at p, seen from the head |
| Snakes.Snake.Look | benchmarks/snake/classes/snake.py:422-459 | the opponent's grid and scores become the result of the recursive exploration |
| Snakes.Snake.ScoreDirections | benchmarks/snake/classes/snake.py:363-412 | the new grid is the explored copy; it succeeds iff the randomness is positive, and then each score lies in [0, randomness) above its explored value, and otherwise the scores are the explored ones |
| Snakes.Snake.UpdateDirection | benchmarks/snake/classes/snake.py:357-420 | with the intended choice at line 420: the new grid is the explored copy; for a positive randomness each score lies within the noise above its explored value and the direction is the best one; and, of the best ones, the first in dictionary order; otherwise it fails and keeps the heading |
| Snakes.Snake.UpdateDirectionAsWritten | benchmarks/snake/classes/snake.py:357-420 | as written: the look and the noise still mark the grid and the scores, and the result is always a failure, so the heading never changes |
| Snakes.PlainScores | benchmarks/snake/classes/snake.py:367-405 | the four penalty and bonus passes compute the deterministic scores |
| Snakes.PlainTerms | benchmarks/snake/classes/snake.py:367-405 | the plain score is −1000 for reversing, −1000 for a wall when walls are avoided, the bonus for going on, and −1000 for an adjacent snake |
| Snakes.AvoidWalls | benchmarks/snake/classes/snake.py:385-392 | each direction facing a wall loses 1000, and the others are unchanged |
| Snakes.AvoidSnakes | benchmarks/snake/classes/snake.py:398-405 | each direction with a snake beside the head loses 1000, and the others are unchanged |
| Snakes.AddNoise | benchmarks/snake/classes/snake.py:411-412 | numpy's `randint(0, randomness)`: it fails iff the randomness is 0 or less, and otherwise each score rises by a draw in [0, randomness) |
| Snakes.InitialScores | benchmarks/snake/classes/snake.py:367-405 | scores agreeing with the plain score in every direction are the initial scores |
| GameState.OnlyPoisonHurts | benchmarks/snake/classes/fruit.py:73-226 | a fruit costs points iff it is poison, and shortens the snake iff it is poison |
| GameState.EatingKeepsColour | benchmarks/snake/classes/fruit.py:73-226 | eating any fruit keeps the snake's colour channels in [0, 255] |
| GameState.Tick | benchmarks/snake/classes/fruit.py:46-50 | a positive timer drops by one, and a non-positive one stays. A non-negative timer stays in [0, t] |
| GameState.EggShrinks | benchmarks/snake/classes/fruit.py:232-237 | from its first radius an egg never grows as its timer runs down, and it is a fifth of a cell in the last 36 ticks |
| GameState.InRangeOnBoard | benchmarks/snake/classes/fruit.py:25-30 | every drawable fruit cell is on the board, and never in the last column or the last two rows |
| GameState.Conflict | benchmarks/snake/classes/fruit.py:31-38 | true iff the cell holds a fruit or a snake's head |
| GameState.HeadsAre | benchmarks/snake/classes/fruit.py:31-38 | a cell is a head iff some snake with a body has its first segment there |
| GameState.GetRandomLocation | benchmarks/snake/classes/fruit.py:18-40 | a returned cell is in the draw range and free; None only when no cell of the range is free |
| GameState.Repeat | benchmarks/snake/classes/gamedata.py:176-218 | a repeated run has max(n, 0) entries, all of the given kind |
| GameState.BonusKinds | benchmarks/snake/classes/gamedata.py:176-218 | every bonus list is non-empty and never holds a lemon or an apple. Types 1 to 7 are single-kind: type 1 eggs, 2 and 3 poison, 4 and 5 oranges, 6 raspberries, 7 blueberries |
| GameState.AppendRun | benchmarks/snake/classes/gamedata.py:175-218 | the counting loop appends exactly the repeated run |
| GameState.BonusFor | benchmarks/snake/classes/gamedata.py:175-218 | the list built for a type is a bonus list of that type |
| GameState.Fruit.constructor | benchmarks/snake/classes/fruit.py:67-219 | kind, location and timer as given; radius half a cell |
| GameState.Fruit.UpdateTimer | benchmarks/snake/classes/fruit.py:42-238 | reports whether the timer was running and ticks it (lines 42-50); an egg first shrinks its radius as its time runs out (lines 228-238) |
| GameState.Fruit.IsEaten | benchmarks/snake/classes/fruit.py:73-226 | both tallies of the kind rise by one. Score, growth, multiplier (raspberry: 2 for 100 more ticks) and colour change as the kind dictates |
| GameState.Fruit.IsHatched | benchmarks/snake/classes/fruit.py:240-248 | one new snake is appended: "junior", alive on the egg's cell, owed growth 3, not scored, with the fixed opponent tuning |
| GameState.NewFruit | benchmarks/snake/classes/fruit.py:18-40 | a new fruit of the kind, on a free cell of the range, with its timer drawn from its kind's bounds; None only when the range is full |
| GameState.Standings | benchmarks/snake/classes/gamedata.py:71-78 | one standing per snake, recording whether it is scored, whether it is alive, and its place |
| GameState.CountDue | benchmarks/snake/classes/gamedata.py:71-78 | at most one due place per snake |
| GameState.Assign | benchmarks/snake/classes/gamedata.py:71-78 | one place per snake |
| GameState.AssignConsecutive | benchmarks/snake/classes/gamedata.py:71-79 | the snakes due a place get consecutive places from the current one, in list order, and the others keep theirs. The next place advances by the number due |
| GameState.GameData.constructor | benchmarks/snake/classes/gamedata.py:20-37 | empty tallies, the given triggers and apples, place 1, speeds at FPS, the slow timer 0, and drop odds 4, 5, 6, 25, 100 and 12 |
| GameState.GameData.CheckSpeedTrigger | benchmarks/snake/classes/gamedata.py:39-46 | true iff the apples eaten are a multiple of the speed trigger |
| GameState.GameData.CheckBonusTrigger | benchmarks/snake/classes/gamedata.py:48-55 | true iff the apples eaten are a multiple of the bonus trigger |
| GameState.GameData.CheckEasyTrigger | benchmarks/snake/classes/gamedata.py:57-64 | true iff no more than the easy-trigger number of apples have been eaten |
| GameState.GameData.CheckSlowTimer | benchmarks/snake/classes/gamedata.py:108-115 | true iff the slow timer is positive |
| GameState.GameData.UpdateSlowTimer | benchmarks/snake/classes/gamedata.py:117-121 | the slow timer drops by one |
| GameState.GameData.UpdateBaseSpeed | benchmarks/snake/classes/gamedata.py:81-89 | the base speed moves only if it stays strictly inside the limits, and then the current speed follows it |
| GameState.GameData.UpdateCurrentSpeed | benchmarks/snake/classes/gamedata.py:91-106 | the current speed jumps to the goal when forced, and otherwise takes one step towards it. The goal defaults to the base speed |
| GameState.GameData.CheckSnakeDeath | benchmarks/snake/classes/gamedata.py:66-79 | game over iff no scored snake is alive; the places are assigned consecutively to the scored snakes that died without one |
| GameState.GameData.Settle | benchmarks/snake/classes/gamedata.py:73-79 | a scored dead snake without a place gets the current place, which moves on by one; any other snake keeps its place. It reports whether the snake is scored and alive |
| GameState.GameData.RunDrop | benchmarks/snake/classes/gamedata.py:123-154 | the old fruit list is kept, and at most seven fruits are added. Each lands on a free cell, in drop order, at most one of each kind. An apple comes last unless the board is full |
| GameState.GameData.RunBonusFruit | benchmarks/snake/classes/gamedata.py:156-234 | the old fruit list is kept. The new fruits are fresh and each lands on a free cell; their kinds are a prefix of the run `bonusFruit` lists for some drawn type, never apples or lemons, and the run is cut short only when the draw range is full |
| GameState.GameData.BonusStep | benchmarks/snake/classes/gamedata.py:221-234 | one turn of the drop loop: the fruit so far are kept, and the new one, if any, is fresh, of the next kind of the run, on a free cell; none is added only when the range is full |
| GameState.BonusGrows | benchmarks/snake/classes/gamedata.py:221-234 | adding a free, in-range fruit of the next kind extends the placed prefix of the run by one |
| GameState.BonusKindsAdded | benchmarks/snake/classes/gamedata.py:156-220 | a prefix of any bonus run holds no apple and no lemon |
| GameState.MaybeDrop | benchmarks/snake/classes/gamedata.py:129-151 | the dropped prefix extends to the kind's rank, whether or not the one-in-n draw hits |
| GameState.Drop | benchmarks/snake/classes/gamedata.py:129-154 | either one fruit of the kind is appended on a free cell, or the list is unchanged and the range full |
| GameState.PlacedGrows | benchmarks/snake/classes/gamedata.py:129-154 | appending a fruit on a free cell keeps every fruit of the list on a free cell |
| GameState.MultipleIff | benchmarks/snake/classes/gamedata.py:43 | a zero remainder means an exact multiple, and the converse |
| GameState.BaseSpeedAfter | benchmarks/snake/classes/gamedata.py:86-89 | a base speed inside the limits stays inside. It moves by the value iff the value is 0 or the sum stays inside, and otherwise is unchanged |
| GameState.Towards | benchmarks/snake/classes/gamedata.py:97-106 | the current speed gets one closer to the goal, never passing it, and stays put at the goal |
| TicTacToeAi.Digits | benchmarks/tictactoe/ai.py:44-61 | k base-3 digits, each a valid cell code |
| TicTacToeAi.Decode | benchmarks/tictactoe/ai.py:44-61 | every number decodes to a valid nine-cell layout |
| TicTacToeAi.HornerOfDigits | benchmarks/tictactoe/ai.py:44-61 | reading back the first k digits of n gives n modulo 3^k |
| TicTacToeAi.DigitsOfHorner | benchmarks/tictactoe/ai.py:31-61 | the digits of a layout's number are the layout |
| TicTacToeAi.EncodeIsHorner | benchmarks/tictactoe/ai.py:31-41 | the dot product with the powers of three equals the digit-by-digit reading |
| TicTacToeAi.DecodeEncode | benchmarks/tictactoe/ai.py:31-61 | decoding the number of a layout gives the layout back |
| TicTacToeAi.EncodeDecode | benchmarks/tictactoe/ai.py:31-61 | encoding the layout of any number in 0 .. 3^9 − 1 gives that number back |
| TicTacToeAi.EncodeBound | benchmarks/tictactoe/ai.py:31-41 | every layout's number lies in 0 .. 3^9 − 1 |
| TicTacToeAi.DecodeLayout | benchmarks/tictactoe/ai.py:44-61 | the digit loop computes the decoded layout |
| TicTacToeAi.NextSide | benchmarks/tictactoe/ai.py:70-84 | cross moves iff both sides have as many marks, and otherwise nought moves |
| TicTacToeAi.NextMoveSide | benchmarks/tictactoe/ai.py:70-84 | the digit-counting loop returns the side to move of the decoded layout |
| TicTacToeAi.Mover | benchmarks/tictactoe/ai.py:88-91 | the mark placed is nought iff cross has more marks |
| TicTacToeAi.MoverIsNextSide | benchmarks/tictactoe/ai.py:70-91 | on reachable layouts, the mark placed is the side recorded to move |
| TicTacToeAi.MoveKeepsBalance | benchmarks/tictactoe/ai.py:87-101 | marking an empty cell of a reachable layout keeps it reachable, with one empty cell fewer |
| TicTacToeAi.Empties | benchmarks/tictactoe/ai.py:87-101 | the indices of exactly the empty cells, one per empty cell |
| TicTacToeAi.Evolved | benchmarks/tictactoe/ai.py:87-101 | a child exists iff the skip count, with a negative one read as 0, is below the number of empty cells |
| TicTacToeAi.EvolveLayout | benchmarks/tictactoe/ai.py:87-101 | the loop over the cells returns the evolved layout |
| TicTacToeAi.ChildFacts | benchmarks/tictactoe/ai.py:87-101 | a child of a reachable layout is valid and reachable, with one empty cell fewer |
| TicTacToeAi.Line | benchmarks/tictactoe/ai.py:106-113 | the eight scanned lines index cells of the field |
| TicTacToeAi.Opponent | benchmarks/tictactoe/ai.py:114-121 | the other side's code: nought for cross and cross for nought |
| TicTacToeAi.LayoutPayout | benchmarks/tictactoe/ai.py:103-121 | the loop over the eight line products computes the payout |
| TicTacToeAi.CubeOwner | benchmarks/tictactoe/ai.py:114-121 | a product of three cells is 8 iff all three are cross and 1 iff all three are nought |
| TicTacToeAi.PayoutIsVerdict | benchmarks/tictactoe/ai.py:103-121 | the payout is 1 when the first complete line in scan order is the side's, −1 when it is the opponent's, and absent when no line is complete |
| TicTacToeAi.PayoutSwap | benchmarks/tictactoe/ai.py:297-302 | nought's payouts are cross's with wins and losses swapped |
| TicTacToeAi.Flip | benchmarks/tictactoe/ai.py:297-302 | only wins and losses change sign; draws and open layouts are kept |
| TicTacToeAi.ChildCodes | benchmarks/tictactoe/ai.py:147-155 | one child number per empty cell |
| TicTacToeAi.RawEntry | benchmarks/tictactoe/ai.py:63-161 | an entry is open iff its layout is undecided and has an empty cell, and then it lists all its children. A decided or full layout has no children. The mover is the side to move |
| TicTacToeAi.BuildFieldLayouts | benchmarks/tictactoe/ai.py:63-161 | the empty layout is recorded. Every entry is the raw entry of a reachable layout, and every child of an entry is itself recorded |
| TicTacToeAi.Visit | benchmarks/tictactoe/ai.py:136-159 | one turn of the walk keeps its invariant and strictly lowers the remaining work |
| TicTacToeAi.Record | benchmarks/tictactoe/ai.py:136-159 | recording a layout's raw entry keeps every entry recorded and every child accounted for |
| TicTacToeAi.Expand | benchmarks/tictactoe/ai.py:147-155 | the children's numbers are returned, and each child is queued. Reachability is kept, and the queue's weight grows by less than the layout's own |
| TicTacToeAi.BuiltTreeIsWellFormed | benchmarks/tictactoe/ai.py:63-161 | the builder's tree has children with fewer empty cells, decided payouts that are outcomes, and open layouts with children |
| TicTacToeAi.MaxPick | benchmarks/tictactoe/ai.py:195-213 | the largest value, above the −1e99 start, and the index of its first occurrence. There is no choice iff no value beats the start |
| TicTacToeAi.MinOf | benchmarks/tictactoe/ai.py:230-240 | the smallest of the values and the 1e20 start |
| TicTacToeAi.Resolve | benchmarks/tictactoe/ai.py:182-243 | resolution gives a payout and keeps the children and mover; a decided entry is unchanged |
| TicTacToeAi.Values | benchmarks/tictactoe/ai.py:182-243 | each is the payout of the child's maximin entry |
| TicTacToeAi.Solved | benchmarks/tictactoe/ai.py:165-246 | the maximin entry has a payout and keeps the raw children and mover |
| TicTacToeAi.SolvedIsOutcome | benchmarks/tictactoe/ai.py:165-246 | every maximin payout is a win, a draw or a loss |
| TicTacToeAi.SolvedIsMaximin | benchmarks/tictactoe/ai.py:165-246 | at an open layout the payout is the largest child payout where the side moves, and the smallest where the opponent moves. The best move is the first child reaching the largest |
| TicTacToeAi.ResolvedMaximin | benchmarks/tictactoe/ai.py:182-243 | resolving from outcome payouts takes their maximum, with the first best child, or their minimum |
| TicTacToeAi.BuildMaximinTree | benchmarks/tictactoe/ai.py:165-246 | a tree comes back iff raw layouts were given. It has the same layouts, and every entry is that layout's maximin entry |
| TicTacToeAi.OpenKeys | benchmarks/tictactoe/ai.py:176-181 | exactly the open layouts, each once |
| TicTacToeAi.Settle | benchmarks/tictactoe/ai.py:182-243 | one turn of the maximin loop keeps its invariant, and either shortens the queue or brings a resolvable layout nearer |
| TicTacToeAi.SettleMine | benchmarks/tictactoe/ai.py:184-220 | the same, where the tree's side moves |
| TicTacToeAi.SettleTheirs | benchmarks/tictactoe/ai.py:222-243 | the same, where the opponent moves |
| TicTacToeAi.Scaled | benchmarks/tictactoe/ai.py:219-220 | scaling keeps one rank per child |
| TicTacToeAi.PickMax | benchmarks/tictactoe/ai.py:190-213 | the loop is done iff every child has a payout. Then it gives the largest payout, the first best child, and ranks that scale to the children's ranks |
| TicTacToeAi.PickMin | benchmarks/tictactoe/ai.py:230-240 | the loop is done iff every child has a payout, and then it gives the smallest payout |
| TicTacToeAi.RanksAreScores | benchmarks/tictactoe/ai.py:213-220 | the ranks lie in [0, 1]. The best move has rank 1 unless every move loses, and then every rank is 0 |
| TicTacToeAi.ResolvedRanks | benchmarks/tictactoe/ai.py:213-220 | the same for one resolution from outcome payouts |
| TicTacToeAi.RankOfOutcome | benchmarks/tictactoe/ai.py:213-220 | (v + 1)/(top + 1), or v + 1 when top is a loss, lies in [0, 1]; it is 1 at the best payout and 0 when every move loses |
| TicTacToeAi.Inverted | benchmarks/tictactoe/ai.py:288-309 | inversion keeps the layouts |
| TicTacToeAi.InvertPayouts | benchmarks/tictactoe/ai.py:288-309 | the copy loop computes the inverted tree |
| TicTacToeAi.InvertedTwice | benchmarks/tictactoe/ai.py:297-302 | inverting twice gives the tree back |
| TicTacToeAi.InvertedIsNoughtTree | benchmarks/tictactoe/ai.py:288-309 | the inverted cross layouts are exactly what the builder records for nought |
| TicTacToeAi.RawEntrySwap | benchmarks/tictactoe/ai.py:297-302 | nought's raw entry is cross's with its payout flipped |
| TicTacToeAi.BuildDecisionTrees | benchmarks/tictactoe/ai.py:249-285 | both trees cover every reachable layout. Each entry is its side's maximin entry, and nought's raw layouts are cross's inverted |
| TicTacToeAi.Nominals | benchmarks/tictactoe/ai.py:329-341 | one nominal per cell |
| TicTacToeAi.Trunc | benchmarks/tictactoe/ai.py:329-341 | Python's int() truncates towards zero |
| TicTacToeAi.FieldNumberOfNominals | benchmarks/tictactoe/ai.py:329-341 | a field of nominals is numbered like its layout |
| TicTacToeAi.MakeMove | benchmarks/tictactoe/ai.py:329-341 | succeeds iff the field's layout is in the tree and has a best child. The field then becomes that child and its number is returned; on failure the field is unchanged |
| TicTacToeAi.MoveIsLegal | benchmarks/tictactoe/ai.py:329-341 | the tree's move places the mover's mark on one empty cell |
| TicTacToeAi.IndexOf | benchmarks/tictactoe/ai.py:355 | the first index of the value |
| TicTacToeAi.RankMove | benchmarks/tictactoe/ai.py:344-362 | succeeds iff the layout before the move has ranks and the layout after it is one of its children with a rank. That rank is returned |
| TicTacToeAi.ChildrenDistinct | benchmarks/tictactoe/ai.py:147-155 | different empty cells give different children |
| TicTacToeAi.RankOfMove | benchmarks/tictactoe/ai.py:344-362 | ranking any legal move of the side, in the maximin tree, succeeds with a rank in [0, 1] |
| TicTacToeAi.MoveIndex | benchmarks/tictactoe/ai.py:344-362 | a layout's field numbers back to it, and its j-th move is found as its j-th child |
| MpfrlAi.QuantiseIsNearest | benchmarks/tictactoe/mpfrl_ai.py:88-93 | a snapped cell is a nominal (0, 0.5 or 1), and no nominal is nearer to the raw value |
| MpfrlAi.QuantiseIdempotent | benchmarks/tictactoe/mpfrl_ai.py:88-93 | nominals are left alone, so snapping twice is snapping once |
| MpfrlAi.Adjusted | benchmarks/tictactoe/mpfrl_ai.py:80-93 | the snapped layout has one cell per input cell |
| MpfrlAi.AdjustedIsIdempotent | benchmarks/tictactoe/mpfrl_ai.py:80-93 | every adjusted cell is a nominal, and adjusting again changes nothing |
| MpfrlAi.AdjustMoveLayout | benchmarks/tictactoe/mpfrl_ai.py:80-93 | the layout array is snapped in place |
| MpfrlAi.ValidateMoveLayout | benchmarks/tictactoe/mpfrl_ai.py:95-105 | true iff the cells add up to the previous total plus the side's nominal and no occupied cell changed |
| MpfrlAi.FirstMark | benchmarks/tictactoe/mpfrl_ai.py:107-175 | the first cell that was empty and that the layout marks with the side; None iff there is no such cell, or the side is 0 |
| MpfrlAi.FirstEmpty | benchmarks/tictactoe/mpfrl_ai.py:107-175 | the first empty cell, and None iff the field is full |
| MpfrlAi.CorrectMoveLayout | benchmarks/tictactoe/mpfrl_ai.py:107-175 | the array becomes the corrected move; the side defaults to the player's own |
| MpfrlAi.StageOneStep | benchmarks/tictactoe/mpfrl_ai.py:115-140 | one turn of stage 1 extends the first-mark search by one cell |
| MpfrlAi.CorrectedIsOneMove | benchmarks/tictactoe/mpfrl_ai.py:107-175 | from a field with an empty cell, the correction puts exactly one mark of the side on one empty cell |
| MpfrlAi.CorrectedKeepsFirstMark | benchmarks/tictactoe/mpfrl_ai.py:107-175 | occupied cells are restored, and the kept mark is the first an empty cell already had |
| MpfrlAi.CorrectedFull | benchmarks/tictactoe/mpfrl_ai.py:107-175 | a full field is left unchanged |
| MpfrlAi.CorrectedIsValid | benchmarks/tictactoe/mpfrl_ai.py:108-113 | on a field with an empty cell, the corrected layout of the player's side passes validation |
| TicTacToeGame.WinnerCode | benchmarks/tictactoe/tictactoe.py:46-58 | the code is 0 to 2, and it is 0 iff the game is a draw |
| TicTacToeGame.CubeIsOwner | benchmarks/tictactoe/tictactoe.py:35-58 | on nominal cells, a line's product equals a side's cube iff that side holds the whole line |
| TicTacToeGame.ScanIsFirstOwner | benchmarks/tictactoe/tictactoe.py:35-58 | the product scan gives the verdict of the lines' owners |
| TicTacToeGame.FirstOwnerMeans | benchmarks/tictactoe/tictactoe.py:46-58 | a win means the winner holds a line. It is a draw iff the field is full and no line is held, and open iff the field is not full and no line is held |
| TicTacToeGame.Game.constructor | benchmarks/tictactoe/tictactoe.py:145-148 | the sides as given, no winner yet, reinforcement 0, scores 0 and no draws |
| TicTacToeGame.Game.CheckWin | benchmarks/tictactoe/tictactoe.py:32-58 | the verdict is the product scan's. Its code is recorded as the last winner, and an open field leaves that alone |
| TicTacToeGame.Game.EndGame | benchmarks/tictactoe/tictactoe.py:163-180 | the reinforcement becomes the reward, the winner's score or the draws rise by one, and the last winner is cleared |
| TicTacToeGame.Game.AfterMove | benchmarks/tictactoe/tictactoe.py:201-208 | the reinforcement becomes the reinforced value of the move |
| TicTacToeGame.CheckWinIsOwners | benchmarks/tictactoe/tictactoe.py:32-58 | the referee's verdict is read from the lines' owners: a draw iff the field is full with no line held, and a win only for a side holding a line |
| TicTacToeGame.Sign | benchmarks/tictactoe/tictactoe.py:202 | numpy's sign: 1, −1 or 0 as x is positive, negative or zero |
| TicTacToeGame.Reward | benchmarks/tictactoe/tictactoe.py:163-180 | the reward is ±1, negative iff the player won |
| TicTacToeGame.DecayTowardsZero | benchmarks/tictactoe/tictactoe.py:201-208 | without the AI's bonus the reinforcement moves half a point towards zero, never past it. It stays a whole number of half points |
| TicTacToeGame.AiGainRaises | benchmarks/tictactoe/tictactoe.py:204-207 | an AI move with a positive rank raises the reinforcement by at least half a point |
| TicTacToeGame.RewardHalves | benchmarks/tictactoe/tictactoe.py:163-180 | end-of-game rewards are whole numbers of half points |
| TicTacToeGame.ChooseSide | benchmarks/tictactoe/tictactoe.py:103-116 | an accepted answer gives a side and the AI's name, and the AI is "cross" iff the player is nought |
| TicTacToeGame.CrossMovesFirst | benchmarks/tictactoe/tictactoe.py:136-143 | whichever side the player picks, cross is seated first |
| SOM.Coords | mpfrl/SOM.py:118-120 | the lattice coordinates of a flat index: x below the width, and y·w + x is the index |
| SOM.IndexCoords | mpfrl/SOM.py:118-120 | coordinates and the row-major index are inverse |
| SOM.IndexInLattice | mpfrl/SOM.py:118-120 | every lattice point's index lies below w·h |
| SOM.LatticeDist2 | mpfrl/SOM.py:455-459 | the squared lattice distance is 0 iff the two neurons are the same |
| SOM.NeighbourInRange | mpfrl/SOM.py:224-255 | every stored neighbour index is a neuron |
| SOM.NeighbourMovedIffOnLattice | mpfrl/SOM.py:224-255 | an entry differs from the neuron itself iff its candidate lies on the lattice |
| SOM.AdjNumCountsRealNeighbours | mpfrl/SOM.py:230-240 | adj_num counts exactly the entries that are not self-substitutions |
| SOM.NeighbourSymmetric | mpfrl/SOM.py:224-255 | adjacency is symmetric: if k is i's left, right, up or down neighbour, then i is k's opposite one |
| SOM.BuildAdjacency | mpfrl/SOM.py:224-255 | the N×4 table holds each neuron's four neighbours in order, with off-lattice ones replaced by the neuron itself. adj_num counts its on-lattice ones |
| SOM.NormSq | mpfrl/SOM.py:416 | a squared norm is non-negative |
| SOM.RowNorms | mpfrl/SOM.py:416 | diag(D·Dᵀ) is the squared norm of every row |
| SOM.VecMat | mpfrl/SOM.py:518 | entry c of a·M is the dot product with column c |
| SOM.VecMatPreservesSum | mpfrl/SOM.py:509-520 | multiplying by a row-stochastic matrix keeps the total of the vector |
| SOM.CumSum | mpfrl/SOM.py:548 | entry k of cumsum is the sum of the first k + 1 entries |
| SOM.CumSumMonotone | mpfrl/SOM.py:548 | the cumulative sums of a non-negative vector never decrease |
| SOM.Digitize | mpfrl/SOM.py:556 | digitize returns the number of leading bins not above x: bins before it are ≤ x, and x is below the bin at it |
| SOM.ChosenIndexHasWeight | mpfrl/SOM.py:545-556 | a draw in [0, 1) against the normalised cumulative weights lands on a neuron with positive weight; a zero-weight neuron is never chosen |
| SOM.DigitizeScaled | mpfrl/SOM.py:553-556 | digitizing against bins normalised by a positive total is digitizing the scaled draw against the raw sums |
| SOM.DrawNeurons | mpfrl/SOM.py:556 | n draws in [0, 1), each mapped to the neuron of its bin, which has positive weight |
| SOM.MillerError | mpfrl/SOM.py:624-625 | Miller's error is the mean squared BMU distance, floored at EPS |
| SOM.PlError | mpfrl/SOM.py:672-675 | the running maximum is at least the last maximum and the distance. The ratio lies in [0, 1], times the maximum gives the distance, and is 0 iff the distance is 0 |
| SOM.PlSigma | mpfrl/SOM.py:679-680 | the PL-SOM width is never below 1, and is k·error when that is at least 1 |
| SOM.Step | mpfrl/SOM.py:618-696 | Miller always applies at rate 1 with width² = error·k², keeping the denominator. PL-SOM's rate is the ratio in [0, 1]; it applies iff that is positive, with width² = PlSigma², and the denominator becomes the running maximum |
| SOM.NhVector | mpfrl/SOM.py:446-460 | one Gaussian neighbourhood weight per neuron |
| SOM.WeighRows | mpfrl/SOM.py:628 | each difference row is scaled by its neuron's weight, as both kernels do (PL-SOM at line 695) |
| SOM.AddScaledRows | mpfrl/SOM.py:696 | each weight row moves by the rate times its difference row (Miller, line 629, moves at rate 1) |
| SOM.Counted | mpfrl/SOM.py:359 | one more count for the transition p → b, and nothing else changes |
| SOM.Renormalised | mpfrl/SOM.py:361-363 | row p becomes the normalised count row, with the other rows kept |
| SOM.KernelMovesBmu | mpfrl/SOM.py:627-628 | with exp(0) = 1, the kernel moves the BMU by its difference row times the rate |
| SOM.MillerBmuReachesInput | mpfrl/SOM.py:624-628 | Miller's kernel puts the BMU exactly onto the input |
| SOM.BmuApproachesInput | mpfrl/SOM.py:618-696 | a kernel step moves the BMU towards the input: each coordinate's gap shrinks by the factor 1 − rate |
| SOM.PlBmuApproachesInput | mpfrl/SOM.py:672-692 | the PL-SOM kernel closes the BMU's gap to the input by its error ratio in [0, 1]; a zero ratio leaves it in place |
| SOM.CountedRowTotal | mpfrl/SOM.py:359 | counting a transition adds exactly one to its row's total |
| SOM.InitialRowRule | mpfrl/SOM.py:290-293 | a row with no counts beside the identity row meets the predictor's rule |
| SOM.NewTransitionTables | mpfrl/SOM.py:290-293 | zero counts and the identity transition matrix, N by N, with every row meeting the rule |
| SOM.Som.TransitionRowsSumToOne | mpfrl/SOM.py:350-366 | every transition row is a probability distribution: entries non-negative, summing to 1 |
| SOM.Som.constructor | mpfrl/SOM.py:45-153 | weights drawn in [0, 1), zero differences and activation, and decay 0.7 for RSOM. The predictor is off, the PL denominator is EPS, and the noise source is shaped to the input |
| SOM.Som.DiffRows | mpfrl/SOM.py:328-348 | the difference matrix entry by entry, from the previous one, the input and the weights |
| SOM.Som.CalcDiff | mpfrl/SOM.py:328-348 | the difference matrix is recomputed; RSOM caches exactly that matrix, and the plain SOM leaves the cache alone |
| SOM.Som.FindBmu | mpfrl/SOM.py:406-444 | the BMU is the first neuron at minimal squared distance over the fresh or the given matrix. With the flag, the activation is the likelihood of the distances. The BMU's weight row is returned |
| SOM.Som.SetActivation | mpfrl/units.py:379-385 | the activation vector is overwritten |
| SOM.Som.UpdateKernel | mpfrl/SOM.py:618-696 | the step is the kind's step from the BMU's difference and the old denominator. The kernel's outcome holds: differences weighted by the neighbourhood, weights moved by rate × difference |
| SOM.Som.NextStep | mpfrl/SOM.py:624-680 | the step for the BMU, and the denominator it leaves: Miller's error from lines 624-625, PL-SOM's ratio from lines 672-680 |
| SOM.Som.WeighByNeighbourhood | mpfrl/SOM.py:628 | every difference row is multiplied by its neuron's neighbourhood weight; the weights stay as they were (PL-SOM at line 695) |
| SOM.Som.AddScaledDiff | mpfrl/SOM.py:629 | every weight row moves by the rate times its difference row, which stays as it was (PL-SOM at line 696) |
| SOM.Som.UpdateNeurons | mpfrl/SOM.py:465-490 | the kernel runs on the fresh or the cached differences. With the predictor on, the transition from the previous BMU is counted and the BMU becomes the previous one; with it off, the predictor is untouched |
| SOM.Som.Train | mpfrl/SOM.py:465-490 | a plain-SOM training step on fresh differences: the step of the SOM's rule for the BMU's distance and the previous denominator, which becomes the new denominator, the kernel's outcome with that step, and the predictor's when it is on |
| SOM.Som.Learn | mpfrl/SOM.py:484-490 | the kind's kernel on the current differences, then the transition count when the predictor is on |
| SOM.Som.Feed | mpfrl/SOM.py:492-507 | the differences of the input, the first nearest neuron, the activation as the likelihood, the kernel's and predictor's outcome for that BMU, and the BMU's updated weights |
| SOM.Som.Absorb | mpfrl/SOM.py:492-507 | the same step as a parent unit's temporal SOM sees it: the BMU, the activation, the rule's step for the BMU's distance and the previous denominator (which becomes the new one), and the kernel's outcome. An RSOM keeps the new difference matrix as its memory for the next step (SOM.py:343-348); a plain SOM keeps its old one |
| SOM.Som.Generate | mpfrl/SOM.py:533-557 | the activation is made non-negative in place. Failure iff its total is 0 (the source's ValueError). Otherwise each draw in [0, 1) picks a neuron of positive weight from the normalised cumulative bins, and all samples share one noise vector added to the picked weights |
| SOM.Som.Pick | mpfrl/SOM.py:554-557 | on non-negative weights of non-zero total, each draw in [0, 1) picks the neuron of its normalised cumulative bin, which has positive weight, and one noise vector is added to every picked weight vector: zeros without a noise source, and otherwise a draw after which the noise magnitude takes one decay step |
| SOM.Som.Sample | mpfrl/SOM.py:545-556 | one sample: a neuron of positive weight plus noise, failing iff the absolute weights total 0 |
| SOM.Som.InitPredictor | mpfrl/SOM.py:270-302 | the predictor is on, with zero counts, identity transitions, a zero prediction and no previous BMU |
| SOM.Som.UpdateTransProbs | mpfrl/SOM.py:350-366 | the first call only records the BMU. Later ones count the transition from the previous BMU and renormalise that row alone |
| SOM.Som.CountTransition | mpfrl/SOM.py:359 | the count matrix gains exactly one count at the transition, and its row total rises by 1 |
| SOM.Som.RenormaliseRow | mpfrl/SOM.py:361-363 | only row p of the transitions changes, to the normalised counts |
| SOM.Som.PredictNext | mpfrl/SOM.py:509-520 | with the predictor on, the prediction is the activation times the transition matrix; without it the call fails |
| SOM.Som.PredictionKeepsTotal | mpfrl/SOM.py:509-520 | the prediction keeps the activation's total mass |
| Units.NoiseDecrease | mpfrl/units.py:44-47 | the decrement is in (0, 0.0001], and exactly 0.0001 for level 0 or no level |
| Units.NoiseDecreaseTenfold | mpfrl/units.py:44-47 | one level up, the noise decrement is a tenth of the one below |
| Units.RangesExtend | mpfrl/units.py:114-121 | adding a child keeps the earlier ranges. The new one starts where the last ended and ends at the new total width |
| Units.RangesContiguous | mpfrl/units.py:114-121 | the ranges tile [0, total): each is its child's width wide, the first starts at 0, each later one starts where the previous one ends, and the last ends at the total |
| Units.RangesPartition | mpfrl/units.py:114-121 | every input position below the total lies in exactly one child's range |
| Units.RangesMonotone | mpfrl/units.py:114-121 | later ranges start no earlier than earlier ones end |
| Units.FanInRunSplit | mpfrl/units.py:140-143 | a run of reports can be split at any point |
| Units.FanInQuiet | mpfrl/units.py:140-143 | within a round the counter only climbs, and the unit does not fire |
| Units.FanInFiresOncePerRound | mpfrl/units.py:140-143 | from a reset counter, each round of one report per child fires the unit exactly once and resets the counter |
| Units.NormaliseFloored | mpfrl/units.py:382-386 | the activation is divided by its total, or by EPS when the total is 0 |
| Units.NormaliseFlooredSum | mpfrl/units.py:382-386 | a non-zero total gives a PMF summing to 1, and a zero total stays at 0 |
| Units.OneHotWinner | mpfrl/units.py:410-411 | the one-hot vector of the winner has its first maximum at the winner, and sums to 1 |
| Units.ReinforceCorr | mpfrl/units.py:423-426 | each entry moves towards the reinforcement derivative in proportion to the last output there. It stays between the two, is unchanged where the output is 0, and takes the derivative where the output is 1 |
| Units.ReinforceCorrBounded | mpfrl/units.py:423-426 | the reward correlation stays in [−1, 1] when the derivative and the outputs stay in range |
| Units.BiasLevel | mpfrl/units.py:428-435 | the backward bias is one scalar: the smallest adjusted·influence + 1/n, clamped to [EPS, 1] |
| Units.Rebias | mpfrl/units.py:466-469 | the reweighting is None iff a total is 0 (numpy's NaN), and otherwise sums to 1 |
| Units.UniformBiasIsNeutral | mpfrl/units.py:466-469 | a uniform bias leaves the normalised top-down vector unchanged |
| Units.TotalTermsPositive | mpfrl/units.py:493-496 | non-negative predictions give a combined prediction with a positive total, so its normalisation never divides by 0 |
| Units.Splice | mpfrl/units.py:135-137 | the slice assignment writes exactly the child's range and keeps every other entry |
| Units.HandedMore | mpfrl/units.py:194-201 | giving the next child its range of the output extends what has been handed out by one |
| Units.NewSpatial | mpfrl/units.py:50-53 | a fresh plain SOM over the input with its predictor started. Its own uniform noise is in [−0.5, 0.5), with magnitude 1, floor 0.001 and the level's decrement |
| Units.NewTemporal | mpfrl/units.py:63-67 | a fresh RSOM over the spatial neurons, sharing nothing with the spatial SOM. It has no predictor and noise like the spatial one's |
| Units.NewPoolers | mpfrl/units.py:50-67 | both SOMs are fresh and well formed, either distinct and disjoint or one standing in for both, with the given shapes and noise |
| Units.Unit.constructor | mpfrl/units.py:34-86 | leaves are at level 0. There is a temporal SOM iff a kind is given, and noise with the level's decrement on both. There are no parent or children. Predictions start at ones, the output at zeros and the bias at ones; the rates are 1, decaying by 0.001 to floors 0.01 and 0.1 |
| Units.Unit.AddChild | mpfrl/units.py:109-131 | the child is appended and points back. Its range starts where the last child's ends and is its temporal width wide. The capacity check holds iff the range fits the input, and it resets the counter |
| Units.Unit.Adopt | mpfrl/units.py:109-131 | in a tree, a parentless lower unit becomes the last child at the next range, and the tree stays well formed |
| Units.Unit.AppendedRanges | mpfrl/units.py:114-121 | appending a fresh child keeps the children's ranges consecutive |
| Units.Unit.BiasedActivation | mpfrl/units.py:376-385 | the activation becomes the likelihood of the input's distances times the total prediction, normalised with the EPS floor |
| Units.Unit.TrainWinner | mpfrl/units.py:389-390 | the winner is the first maximum of the biased activation. It is trained towards the input with the step of the SOM's own rule for the winner's distance and the previous PL-SOM denominator, which it leaves as the new denominator, and its transition is counted by the predictor |
| Units.Unit.PredictLocally | mpfrl/units.py:396-404 | the local prediction is the activation times the transition matrix, normalised to 1. A zero total fails (numpy's NaN) and keeps the old prediction |
| Units.Unit.ShowWinner | mpfrl/units.py:410-411 | the spatial activation becomes the winner's one-hot vector |
| Units.Unit.FeedTemporal | mpfrl/units.py:413 | the temporal SOM trains on the spatial activation at its nearest neuron, with the step of its own rule for that neuron's distance and the previous denominator, which it leaves as the new one; its activation is the likelihood of its distances, and the new difference matrix becomes the RSOM's memory |
| Units.Unit.NormaliseTemporal | mpfrl/units.py:417 | the temporal activation is normalised to 1, failing iff its total is 0 |
| Units.Unit.Reinforce | mpfrl/units.py:423-451 | the correlation update, the clamped scalar bias, the output kept scaled by the learning rate, and one decay step of both rates |
| Units.Unit.Correlate | mpfrl/units.py:423-435 | the correlation update and the bias it gives |
| Units.Unit.Decay | mpfrl/units.py:439-451 | the scaled output is kept, and both rates take one decay step |
| Units.Unit.KeepOutput | mpfrl/units.py:439 | the temporal output scaled by the learning rate is kept |
| Units.Unit.DecayRates | mpfrl/units.py:441-451 | the learning rate and the bias influence each take one decay step towards their floors |
| Units.Unit.ForwardSpatial | mpfrl/units.py:376-404 | the biased activation (the likelihood of the distances to the input times the total prediction, EPS-floored), its first maximum as the new BMU, trained with its rule's step and its transition counted by the predictor, and the local prediction: that activation times the new transition matrix, normalised to 1. Fails iff the prediction's total is 0, keeping the old one. The reward fields and the rates are untouched |
| Units.Unit.TrainAndPredict | mpfrl/units.py:386-398 | the first maximum of the shown activation becomes the BMU. It is trained with its rule's step (the new weights, differences and denominator), the transition into it is counted and its row renormalised, and the local prediction is that activation times the new transition matrix, normalised; fails iff its total is 0, keeping the old prediction |
| Units.Unit.ForwardTemporal | mpfrl/units.py:407-417 | the winner's one-hot vector trains the temporal SOM at its nearest neuron with its rule's step, and its activation, the likelihood of the distances, is normalised to 1; failure iff that total is 0, leaving the raw activation. The new difference matrix becomes the RSOM's memory. The rates are unchanged |
| Units.Unit.ForwardRest | mpfrl/units.py:407-451 | the temporal half as in `ForwardTemporal`, the RSOM's new memory included, then, unless the temporal activation totals 0, the reward step: the reward correlation moves towards `rp` by the old kept output, the bias is the clamped scalar level from it, the kept output is the activation scaled by the old learning rate, and the rates take one decay step; on failure all of these are unchanged |
| Units.Unit.ForwardKernel | mpfrl/units.py:368-451 | fails iff the local prediction, or the temporal activation when there is one, totals 0. It states the spatial half (distances, biased activation, BMU, its training step and counted transition, local prediction, kept on failure), the temporal half when there is a temporal SOM (one-hot input, distances, training step, the RSOM's new memory, normalised activation), and the reward step on success: the correlation moves towards `rp` by the old kept output, the bias is the clamped level, the kept output is the activation scaled by the old learning rate, and the rates decay once. On failure the reward fields and rates are unchanged |
| Units.Unit.OwnKernel | mpfrl/units.py:368-451 | the reward step of `ForwardKernel` on success (the correlation, the bias, the kept output and the rates' decay), and none of it on failure |
| Units.Unit.FramedKernel | mpfrl/units.py:368-451 | the reward step as in `OwnKernel`; the unit's parent, range, accumulated input and fan-in counter are untouched |
| Units.Unit.TreeKernel | mpfrl/units.py:368-451 | the reward step as in `OwnKernel`, for a unit of a tree: the tree stays well formed, and neither the unit's links and accumulated input nor its parent's accumulated input change |
| Units.Unit.GlobalPrediction | mpfrl/units.py:465-488 | the top-down vector is reweighted by the bias, failing when that gives NaN. With a temporal SOM, a neuron of non-zero weight is sampled, and its weights plus noise, normalised, become the global prediction. It sums to 1 |
| Units.Unit.DrawGlobal | mpfrl/units.py:479-480 | a temporal neuron of non-zero weight, plus noise |
| Units.Unit.DrawOutput | mpfrl/units.py:499-500 | the prediction is made absolute in place, and a spatial neuron of positive weight plus noise is drawn |
| Units.Unit.TotalPrediction | mpfrl/units.py:493-500 | the total prediction is global·local + 1/n, normalised and made absolute. The output is a sampled neuron of positive weight plus noise |
| Units.Unit.BackwardKernel | mpfrl/units.py:453-500 | on success (`BackwardDone`): the global prediction is the one the top-down vector yields under the bias, by way of a sampled temporal neuron of non-zero reweighted weight plus noise, normalised (or the reweighted vector itself without a temporal SOM), and it sums to 1; the total prediction is global·local + 1/n, normalised and made absolute; the output is a sampled spatial neuron of positive total prediction plus noise. The reweighting's NaN fails and keeps the output |
| Units.Unit.OwnBackwardKernel | mpfrl/units.py:453-500 | the outcome of `BackwardKernel` |
| Units.Unit.TreeBackwardKernel | mpfrl/units.py:453-500 | the outcome of `BackwardKernel`, for a unit of a tree, which stays well formed |
| Units.GlobalSumsToOne | mpfrl/units.py:466-485 | a global prediction the top-down vector yields is a distribution: it sums to 1 |
| Units.Unit.ForwardPassFromChild | mpfrl/units.py:134-143 | the child's temporal activation is written into exactly its range, and the fan-in counter advances. Only when the last child reports does the unit run its own pass: the rates decay on success and are unchanged otherwise. The tree stays well formed |
| Units.Unit.Accumulate | mpfrl/units.py:135-142 | the child's activation is spliced into its range, and the counter advances by the fan-in rule |
| Units.Unit.ForwardPass | mpfrl/units.py:149-161 | the kernel runs on the input and the result is reported to the parent if there is one: after a successful kernel, the parent's accumulated input holds this unit's temporal activation in exactly this unit's range. A failing kernel ends the pass with the rates unchanged. Units below are not changed |
| Units.Unit.Report | mpfrl/units.py:159-161 | the parent writes this unit's temporal activation into exactly this unit's range of its accumulated input; this unit's rates, activation, links and accumulated input stay as they are |
| Units.Unit.BackwardPass | mpfrl/units.py:177-201 | when the unit's own kernel succeeds, everything `BackwardKernel` states holds (a global prediction from the top-down vector, the total prediction, an output sampled from a neuron of positive total prediction), and every child is handed exactly its own range of that output, whether or not a descendant fails. A failing kernel fails the pass, and one that succeeds fails it only through a child |
| Units.Unit.Distribute | mpfrl/units.py:194-201 | after a successful kernel, every child is handed exactly its range of the output, and what the kernel left is kept |
| Units.Unit.HandOut | mpfrl/units.py:194-201 | each child in turn is handed its range; the unit itself is unchanged |
| Units.Unit.HandDown | mpfrl/units.py:194-201 | child i gets exactly its own range of the output |
| Hierarchy.Dims | mpfrl/hierarchy.py:63-66 | each bottom unit's input width is its spatial SOM's neuron width |
| Hierarchy.InputRanges | mpfrl/hierarchy.py:58-66 | the bottom units' ranges are the consecutive ranges of their input widths, and the total is where the last one ends |
| Hierarchy.Groups | mpfrl/hierarchy.py:209-217 | a level over n units has floor(n/2) units, each taking a non-empty range of children within [0, n) |
| Hierarchy.GroupsTile | mpfrl/hierarchy.py:209-217 | with fewer than two units the next level is empty. Otherwise the groups tile [0, n): the first starts at 0, each later one starts where the previous one ends, and the last ends at n. Every group has two units, except the last, which has two or three |
| Hierarchy.GroupOf | mpfrl/hierarchy.py:212-217 | every unit of a level of at least two lands in exactly one group, namely min(k/2, n/2 − 1) |
| Hierarchy.AddUnit | mpfrl/hierarchy.py:170-196 | a fresh internal unit of the given level and shapes. It has a temporal SOM, and its input is as wide as its children's temporal SOMs together. It adopts the children in order (each now points to it), has no parent, and the tree stays well formed |
| Hierarchy.NewInternal | mpfrl/hierarchy.py:171-189 | a fresh internal unit of the level, with a temporal SOM, the given input width and lattice shapes, and no parent or children. It joins the tree |
| Hierarchy.WidthsPositive | mpfrl/hierarchy.py:175-179 | a non-empty set of children gives a parent a non-empty input |
| Hierarchy.AdoptAll | mpfrl/hierarchy.py:191-192 | the children are adopted in order: the parent's children are exactly them, each points back, and the tree stays well formed |
| Hierarchy.BuildStep | mpfrl/hierarchy.py:212-225 | the next unit of the level is made over exactly its group of the level below |
| Hierarchy.BuildLevel | mpfrl/hierarchy.py:209-227 | floor(n/2) fresh parentless units, unit i over the i-th group, each of the level's rank and inner shapes. The tree grows by exactly them |
| Hierarchy.BuildLevels | mpfrl/hierarchy.py:206-227 | levels_num − 2 levels, each grouping the one below it. With two levels nothing is built |
| Hierarchy.Climb | mpfrl/hierarchy.py:207-227 | one more level is built over the highest one, keeping the loop's invariant |
| Hierarchy.StackedAt | mpfrl/hierarchy.py:208-227 | in the stacked levels, level k has as many units as halving the bottom level k times gives, and it is the level built over level k − 1 |
| Hierarchy.Construct | mpfrl/hierarchy.py:162-230 | the levels are stacked, level k being the level built over level k − 1; the top unit, of the top shapes, has the highest level as its children and no parent. The units made are the levels, lowest first, then the top unit, and the tree grows by exactly them |
| Hierarchy.Crown | mpfrl/hierarchy.py:230 | the top unit is made over the highest intermediate level |
| Hierarchy.DumpEveryPeriod | mpfrl/hierarchy.py:114-117 | with a positive period the hierarchy is dumped at time 0 and then exactly once every period steps. With no positive period it is never dumped |
| Hierarchy.MpfHierarchy.constructor | mpfrl/hierarchy.py:29-106 | a well-formed hierarchy over the bottom units and their ranges. The output vector is zeros, the reinforcement state is zero with decay 0.7, time is 0, and the dump settings are as given |
| Hierarchy.MpfHierarchy.Evaluate | mpfrl/hierarchy.py:232-299 | the reinforcement prime becomes the reinforcement, the passes run, and every bottom unit's output fills its range of the output vector. Time advances by one. The result is the output vector's tail as wide as the last bottom unit's input, which is that unit's output |
| Hierarchy.MpfHierarchy.Passes | mpfrl/hierarchy.py:264-286 | the forward passes, the backward pass from the top and the merge leave a well-formed hierarchy whose output vector holds every bottom unit's output in its range |
| Hierarchy.MpfHierarchy.MergedTail | mpfrl/hierarchy.py:299 | in a merged output vector, the tail as wide as the last bottom unit's input is exactly that unit's output |
| Hierarchy.MpfHierarchy.ForwardAll | mpfrl/hierarchy.py:264-269 | each bottom unit in turn runs its forward pass on its range of the input, and the hierarchy stays well formed |
| Hierarchy.MpfHierarchy.ForwardLeaf | mpfrl/hierarchy.py:266-269 | one bottom unit's forward pass on its range of the input keeps the hierarchy well formed |
| Hierarchy.MpfHierarchy.BackwardTop | mpfrl/hierarchy.py:277 | the top unit's backward pass on a drawn uniform vector keeps the hierarchy well formed |
| Hierarchy.MpfHierarchy.MergeAll | mpfrl/hierarchy.py:283-286 | every bottom unit's output fills exactly its range of the output vector |
| Hierarchy.MpfHierarchy.MergeLeaf | mpfrl/hierarchy.py:284-286 | writing bottom unit i's output into its range keeps the earlier units' ranges as they were |
| Hierarchy.Init | mpfrl/hierarchy.py:29-106 | the bottom units' ranges, a zero output vector over them, and the SOM kinds (the first bottom unit's unless given). The levels are stacked with the top unit last, and the reinforcement, time and dump settings are initialised |
| SnakeMethods.LastFruit | benchmarks/snake/classes/methods.py:348-362 | no fruit is on the cell iff the result is None. Otherwise it is the kind of a fruit on the cell with no later fruit there, i.e. the one written last |
| SnakeMethods.SegmentsAre | benchmarks/snake/classes/methods.py:343-345 | a cell carries a segment iff some snake has it among its coordinates |
| SnakeMethods.BoardInGrid | benchmarks/snake/classes/methods.py:340 | every cell of the playing area is a key of the grid; the extra row is the score row |
| SnakeMethods.FruitedIs | benchmarks/snake/classes/methods.py:348-362 | writing the fruits in order adds their cells as keys and leaves each cell holding its last fruit, and every other cell as it was |
| SnakeMethods.GetGrid | benchmarks/snake/classes/methods.py:333-364 | the keys are exactly the grid's cells, the snakes' segments and the fruits' cells. A cell holds its last fruit, else 'snake' if a segment is on it, else 0 |
| SnakeMethods.FruitCode | benchmarks/snake/classes/methods.py:386-400 | a fruit's code lies in [0.4, 1.0] |
| SnakeMethods.CodesDistinct | benchmarks/snake/classes/methods.py:386-400 | every fruit code differs from the snake code and from an empty cell, and two fruits share a code iff they are of the same kind |
| SnakeMethods.SkipAlwaysTaken | benchmarks/snake/classes/methods.py:376-379 | the skip test as written holds for every segment, while the intended one skips exactly the segments off the buffer |
| SnakeMethods.AsWrittenHidesSnakes | benchmarks/snake/classes/methods.py:373-383 | on a cell with a segment and no fruit, the intended buffer holds the snake code, but the buffer as written holds 0 |
| SnakeMethods.Clear | benchmarks/snake/classes/methods.py:371 | every cell of the buffer becomes 0 |
| SnakeMethods.WriteFruit | benchmarks/snake/classes/methods.py:386-400 | each cell with a fruit holds its last fruit's code, and every other cell keeps its value from before |
| SnakeMethods.GridArrayAsWritten | benchmarks/snake/classes/methods.py:366-402 | with the skip test as written, the buffer holds each cell's last fruit code, else 0; no snake is ever written |
| SnakeMethods.GridArray | benchmarks/snake/classes/methods.py:366-402 | with the intended skip test, each cell holds its last fruit's code, else the snake code if a segment is on it, else 0 |
| SnakeMethods.StartsAreSound | benchmarks/snake/classes/methods.py:461-469 | there is a start exactly for positions 1-4. Each is a straight, connected body of three cells on the board, headed right on the left half and left on the right half |
| SnakeMethods.StartsApart | benchmarks/snake/classes/methods.py:461-469 | the four starts share no cell |
| SnakeMethods.GetPlayers | benchmarks/snake/classes/methods.py:13-31 | Snakey and then max(num, 0) opponents. As written, each opponent is Linus or Wiggles |
| SnakeMethods.GooberNeverDrawn | benchmarks/snake/classes/methods.py:21-27 | no draw of randint(1, 3) picks Goober, and every draw picks a name |
| SnakeMethods.GetPlayersCorrected | benchmarks/snake/classes/methods.py:13-31 | with the corrected bound, Snakey and then max(num, 0) opponents, each Linus, Wiggles or Goober |
| SnakeMethods.CorrectedDrawsAll | benchmarks/snake/classes/methods.py:21-27 | the corrected bound draws exactly 1-3, and each of the three opponents is drawn by one of them |

## Left out

- Dumps and file I/O are not modelled: `_to_matlab_mat`, `savemat`, `_dump_hierarchy`, and the gzip/pickle cache of the tic-tac-toe tree (`mpfrl/SOM.py:304-326`, `mpfrl/units.py:88-107`, `mpfrl/hierarchy.py:119-160`, `benchmarks/tictactoe/ai.py:249-309`). They only write files. The dump schedule itself is modelled (`Hierarchy.DumpEveryPeriod`).
- The GMM generative mode and the covariance matrices (`mpfrl/SOM.py:154-268, 368-403, 522-531`) are left out, because they are sklearn calls and floating-point linear algebra. The model's SOM always samples through the categorical sampler.
- Floating point is modelled as exact `real`, so rounding effects are not captured. EPS is the float32 machine epsilon 2^-23.
- `exp`, `sqrt`, the likelihood transform and the Gaussian neighbourhood are passed in as functions. Only what the proofs need is assumed of them: `exp` is positive, `sqrt` is non-negative on non-negative arguments, and the likelihood keeps lengths.
- Random draws, noise vectors and the uniform top-down vector of `evaluate` (`mpfrl/hierarchy.py:277`) are oracles. Their contract is only the range of the draw.
- `GaussianNoise.__call__` reads an attribute the class never sets, so every draw raises. The model returns `Failure` there, and the SOM uses uniform noise only.
- The PL-SOM running maximum is modelled as a scalar maximum of the distance and the old denominator (`mpfrl/SOM.py:672-680`). The source's `max(dist, denom)` hands `denom` to numpy as an axis argument.
- `MPF_Unit_LoopSOM` (`mpfrl/units.py:210-301`) is left out; the authors keep it only for removal.
- The reinforcement prime that a unit reads from its hierarchy is a parameter of the forward pass, because a unit and its hierarchy cannot refer to each other across modules here. The commented-out derivative computation in `evaluate` is not modelled, since it is dead code.
- Hierarchy.MpfHierarchy.ForwardAll, Hierarchy.MpfHierarchy.ForwardLeaf: these state only that the hierarchy stays well formed. What a unit's kernel computes is stated by `Units.Unit.ForwardKernel`. What its pass hands up the tree is stated by `Units.Unit.ForwardPass` and `Units.Unit.ForwardPassFromChild`: the parent's range and the fan-in, with the rates.
- Units.Unit.ForwardPass, Units.Unit.ForwardPassFromChild: these do not restate what the kernel computed (the local prediction, the temporal activation, the reward correlation, the bias and the kept output). That is stated by `Units.Unit.ForwardKernel`, and the reward step also by `Units.Unit.TreeKernel`.
- Units.Unit.OwnKernel, Units.Unit.FramedKernel, Units.Unit.TreeKernel: these forward only the reward step and the rates. The spatial and temporal halves are stated by `Units.Unit.ForwardKernel` alone.
- The model error `last_model_bias` that `find_bmu` sets on every call (`mpfrl/SOM.py:431-440`) is not modelled. Its only readers are the left-out `MPF_Unit_LoopSOM` (`mpfrl/units.py:236-271`) and the list of attributes saved to a dump (`mpfrl/SOM.py:143-146`).
- When a parent hands a child its range of the output (mpfrl/units.py:196-200), numpy passes a view, and the child's `ts_act_vec /= sum(...)` (mpfrl/units.py:466-469) rescales that slice of the parent's accumulated input in place. The model hands the child a copy. The difference cannot be observed, because `forward_pass_from_child` (mpfrl/units.py:135-137) rewrites every range before the parent reads its accumulated input again.
- Hierarchy.MpfHierarchy.BackwardTop: this states only that the hierarchy stays well formed. What the backward pass computes is stated by `Units.Unit.BackwardPass`.
- SOM.Som.Train: the covariance update that `update_neurons` runs between the kernel and the Markov update belongs to the GMM mode, and is not modelled.
- The tic-tac-toe engine glue `mpfrl_ai.init`/`make_move` and the `raw_input` loops of `play_game` are left out, because they are I/O and calls into the engine. The AI's side, which `init` stores in a module global, is a parameter.
- Python dictionary order is not modelled. `TicTacToeAi.OpenKeys` leaves the order of the open layouts free, and the maximin values are proved for every order. Ties between equally good snake directions are broken by the first in the order Left, Right, Up, Down (`Snakes.Best`), which is the insertion order of the source's dictionary but not a guarantee of Python 2.
- The maximin lemmas assume the tree they are given is the one the builder produces (children are keys with fewer empty cells). The decision-tree builder proves this for its own output.
- `__validate_move_layout` is modelled on the flat vector. The star import at mpfrl_ai.py:6 makes its `sum` numpy's, which totals the whole field, so the flat model is exact. Its only caller in the source is commented out.
- The snake's pygame UI is left out: drawing, `display`, `drawScreen`/`drawGrid`, `drawSnake`/`drawScore`, `setColorCurrent`/`resetColor`, the `show*` screens and the event loop of `snakey_party.py`.
- `OpponentMPF` (`benchmarks/snake/classes/snake.py:551-697`) is left out. It is glue to the engine made of prints and random sampling.
- `montecarlo_ai.py` and the plotting scripts are not part of this model.
- `const.py` initialises pygame and reads the command line. Its constants are fixed at the 640×480 defaults: CELLSIZE 20, TOP_BUFFER 20, CELLWIDTH 32 and CELLHEIGHT 23.
- `checkSnakeDeath` is modelled over a list of distinct snakes. The same snake object listed twice is not considered.
- GameState.GetRandomLocation: when no cell of the draw range is free, the source loops forever; the model returns `None` there instead.
- `Opponent` is folded into the `Snake` class (its brain is a field), and the seven fruit classes are one `Fruit` class with a kind.
- `Snake()` without coordinates calls an unqualified `getStartCoords`, which raises a NameError. So the model always takes the coordinates.
- A one-segment snake crashes in `move` when its last segment is deleted before the new head is read: with negative growth (snake.py:281-288) or with no growth and no trailing (snake.py:292-294). The model makes this a precondition (`Snakes.MayMove`).
- The numeric grid buffer is written only at cells inside it. The source's numpy buffer would wrap negative indices around; fruit never lies outside the grid.
- `InputButton` is modelled by composition, and the button rectangles are given. `getValue` and `getActive` only return fields, so they have no members of their own.
- The fruit and snake lists that `runDrop`, `runBonusFruit` and `isHatched` append to are returned as new sequences. The caller's list object being updated in place is not modelled.
- Hierarchy.Init, Hierarchy.Construct, Hierarchy.AddUnit: these require at least two levels (the source's assert at mpfrl/hierarchy.py:168 raises otherwise), a unit on every level and a child for every new unit. With too few bottom units for the levels asked for, the source would build a childless unit of input width 0, which is not modelled. Both configurations in the repository meet the requirements: three bottom units and three levels for tic-tac-toe (benchmarks/tictactoe/mpfrl_ai.py:72-74), four levels for the snake (benchmarks/snake/classes/snake.py:612).

## Findings

| source | as written | input that shows it | evidently intended | confidence | as-written member | corrected member |
|---|---|---|---|---|---|---|
| benchmarks/snake/classes/snake.py:364 | `self.grid = grid` binds the caller's dictionary instead of copying it, so `look` marks the shared grid 'visited' | two opponents on one grid whose heads are both next to a cell holding a snake segment, with depth perception at least 2: after the first one's update that cell reads 'visited', and the second is not charged for the snake (as written, line 420 then raises in both updates, so the aliasing decides a direction once that line is corrected) | the comment above the line says the grid is copied, so that each opponent sees every snake | not executed | Snakes.SharedGridHidesSnake | Snakes.Snake.UpdateDirection, Snakes.SnakeNeighbourPenalised |
| benchmarks/snake/classes/methods.py:376-379 | the skip test `x < W or x >= W or y < H or y >= H` holds for every segment, so no snake is ever written to the buffer | any snake segment on the grid with no fruit on it: the buffer holds 0 there instead of 0.2 | skip only the segments outside the buffer (`x < 0 or x >= W or y < 0 or y >= H`) | not executed | SnakeMethods.GridArrayAsWritten, SnakeMethods.SkipAlwaysTaken, SnakeMethods.AsWrittenHidesSnakes | SnakeMethods.GridArray |
| benchmarks/snake/classes/methods.py:21 | `random.randint(1, 3)` resolves to the package's own `random.py`, whose draw is half-open, so it only gives 1 or 2 | `getPlayers(3)`: GOOBER never appears | each of the three opponents can be chosen, so the upper bound is 4 | not executed | SnakeMethods.GetPlayers, SnakeMethods.GooberNeverDrawn | SnakeMethods.GetPlayersCorrected, SnakeMethods.CorrectedDrawsAll |
| benchmarks/snake/classes/snake.py:420 | `max(self.nextDirection, key=...)`: the star import at snake.py:14 brings in numpy's names (through `mpfrl.units` and mpfrl/common.py:1-4), so `max` is numpy's `amax`, which has no `key` argument | any opponent update with a positive randomness: the look and the noise run, then the call raises TypeError and no direction is chosen | Python's builtin `max` with the key, choosing the direction with the highest score | not executed | Snakes.Snake.UpdateDirectionAsWritten, Snakes.AmaxWithKey, Snakes.ChoiceAsWrittenFails | Snakes.Snake.UpdateDirection, Snakes.Best |
