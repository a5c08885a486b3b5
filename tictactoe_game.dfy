/*
 * The game side of the tic-tac-toe benchmark (benchmarks/tictactoe/tictactoe.py):
 * the referee's verdict on a field, who sits where, and the reinforcement
 * handed to the MPF player between moves and games. The field is the nine
 * cells read row by row, each 0 (empty), 0.5 (nought) or 1 (cross).
 */
module TicTacToeGame {
  import opened Common

  const EMPTY: real := 0.0
  const NOUGHT: real := 0.5
  const CROSS: real := 1.0

  predicate IsCell(x: real)
  {
    x == EMPTY || x == NOUGHT || x == CROSS
  }

  predicate IsSide(s: real)
  {
    s == NOUGHT || s == CROSS
  }

  predicate IsField(f: seq<real>)
  {
    |f| == 9 && forall i :: 0 <= i < 9 ==> IsCell(f[i])
  }

  /** The referee's verdicts; `check_win` answers with their messages. */
  datatype Verdict = PlayerWon | AiWon | Draw

  /** The code `check_win` leaves in `last_winner`. */
  function WinnerCode(v: Verdict): (c: int)
    ensures 0 <= c <= 2 && (c == 0 <==> v == Draw)
  {
    match v
    case PlayerWon => 1
    case AiWon => 2
    case Draw => 0
  }

  // ---------------------------------------------------------------------
  // Lines
  // ---------------------------------------------------------------------

  /**
   * The lines in the order `check_win` visits them: the main diagonal, the
   * anti-diagonal, then row i followed by column i for i = 0, 1, 2.
   */
  const LINES: seq<(nat, nat, nat)> :=
    [(0, 4, 8), (6, 4, 2), (0, 1, 2), (0, 3, 6), (3, 4, 5), (1, 4, 7), (6, 7, 8), (2, 5, 8)]

  function LineCells(k: nat): (c: (nat, nat, nat))
    requires k < 8
    ensures c.0 < 9 && c.1 < 9 && c.2 < 9
  {
    LINES[k]
  }

  /** `side` holds every cell of line `k`. */
  predicate Owned(f: seq<real>, k: nat, side: real)
    requires |f| == 9 && k < 8
  {
    var c := LineCells(k);
    f[c.0] == side && f[c.1] == side && f[c.2] == side
  }

  function Full(f: seq<real>): bool
  {
    forall i :: 0 <= i < |f| ==> f[i] != EMPTY
  }

  /**
   * The verdict read line by line from line `k` on: the first line held by
   * one side decides, the player's side looked at first; with no such line
   * a full field is a draw and any other field is still open.
   */
  function FirstOwner(f: seq<real>, player: real, ai: real, k: nat): Option<Verdict>
    requires |f| == 9 && k <= 8
    decreases 8 - k
  {
    if k == 8 then (if Full(f) then Some(Draw) else None)
    else if Owned(f, k, player) then Some(PlayerWon)
    else if Owned(f, k, ai) then Some(AiWon)
    else FirstOwner(f, player, ai, k + 1)
  }

  // ---------------------------------------------------------------------
  // The referee
  // ---------------------------------------------------------------------

  /** `np.prod` of three cells. */
  function Prod3(x: real, y: real, z: real): real
  {
    x * y * z
  }

  /** `np.prod` of a line. */
  function LineProduct(f: seq<real>, k: nat): real
    requires |f| == 9 && k < 8
  {
    var c := LineCells(k);
    Prod3(f[c.0], f[c.1], f[c.2])
  }

  /** What the scan of `prod_hvd` from position `k` on answers (tictactoe.py:46-58). */
  function Scan(f: seq<real>, player: real, ai: real, k: nat): Option<Verdict>
    requires |f| == 9 && k <= 8
    decreases 8 - k
  {
    if k == 8 then (if Full(f) then Some(Draw) else None)
    else if LineProduct(f, k) == Prod3(player, player, player) then Some(PlayerWon)
    else if LineProduct(f, k) == Prod3(ai, ai, ai) then Some(AiWon)
    else Scan(f, player, ai, k + 1)
  }

  /** On a field of nominal cells, a line's product is a side's cube exactly when the side holds the line. */
  lemma CubeIsOwner(x: real, y: real, z: real, s: real)
    requires IsCell(x) && IsCell(y) && IsCell(z) && IsSide(s)
    ensures Prod3(x, y, z) == Prod3(s, s, s) <==> x == s && y == s && z == s
  {
    if x == EMPTY || y == EMPTY || z == EMPTY {
      assert x * y * z == 0.0;
    } else if s == NOUGHT {
      assert s * s * s == 0.125;
      if x == CROSS {
        assert x * y * z == y * z;
      } else {
        assert x * y * z == 0.5 * (y * z);
      }
    } else {
      assert s * s * s == 1.0;
      if x == CROSS {
        assert x * y * z == y * z;
      } else {
        assert x * y * z == 0.5 * (y * z);
      }
    }
  }

  /** The product scan gives the verdict of the lines' owners. */
  lemma {:induction false} ScanIsFirstOwner(f: seq<real>, player: real, ai: real, k: nat)
    requires IsField(f) && IsSide(player) && IsSide(ai) && k <= 8
    ensures Scan(f, player, ai, k) == FirstOwner(f, player, ai, k)
    decreases 8 - k
  {
    if k < 8 {
      var c := LineCells(k);
      CubeIsOwner(f[c.0], f[c.1], f[c.2], player);
      CubeIsOwner(f[c.0], f[c.1], f[c.2], ai);
      ScanIsFirstOwner(f, player, ai, k + 1);
    }
  }

  /** The verdicts the owners give: a win goes to a side holding a line, a draw needs a full field. */
  lemma {:induction false} FirstOwnerMeans(f: seq<real>, player: real, ai: real, k: nat)
    requires |f| == 9 && k <= 8
    ensures FirstOwner(f, player, ai, k) == Some(PlayerWon) ==> exists j :: k <= j < 8 && Owned(f, j, player)
    ensures FirstOwner(f, player, ai, k) == Some(AiWon) ==> exists j :: k <= j < 8 && Owned(f, j, ai)
    ensures FirstOwner(f, player, ai, k) == Some(Draw) <==>
      Full(f) && forall j :: k <= j < 8 ==> !Owned(f, j, player) && !Owned(f, j, ai)
    ensures FirstOwner(f, player, ai, k) == None <==>
      !Full(f) && forall j :: k <= j < 8 ==> !Owned(f, j, player) && !Owned(f, j, ai)
    decreases 8 - k
  {
    if k < 8 {
      FirstOwnerMeans(f, player, ai, k + 1);
    }
  }

  /**
   * The state `play_game` keeps across moves and games: the sides, the last
   * verdict, the reinforcement passed to the MPF player, the score and the
   * draws.
   */
  class Game {
    const playerSide: real
    const aiSide: real
    var lastWinner: Option<int>
    var reinforcement: real
    var score: seq<nat>
    var draws: nat

    constructor(playerSide: real, aiSide: real)
      ensures this.playerSide == playerSide && this.aiSide == aiSide
      ensures lastWinner == None && reinforcement == 0.0 && score == [0, 0] && draws == 0
    {
      this.playerSide := playerSide;
      this.aiSide := aiSide;
      lastWinner := None;
      reinforcement := 0.0;
      score := [0, 0];
      draws := 0;
    }

    /**
     * `check_win` (tictactoe.py:32-58): the verdict on the field, with its
     * code recorded in `lastWinner`; an open field answers nothing and
     * leaves `lastWinner` alone.
     */
    method CheckWin(f: seq<real>) returns (res: Option<Verdict>)
      requires |f| == 9
      modifies this`lastWinner
      ensures res == Scan(f, playerSide, aiSide, 0)
      ensures lastWinner == if res.Some? then Some(WinnerCode(res.value)) else old(lastWinner)
    {
      var prods := [Prod3(f[0], f[4], f[8]), Prod3(f[6], f[4], f[2])];
      var i := 0;
      while i < 3
        invariant 0 <= i <= 3 && |prods| == 2 + 2 * i
        invariant forall k :: 0 <= k < |prods| ==> prods[k] == LineProduct(f, k)
      {
        assert LineCells(2 + 2 * i) == (3 * i, 3 * i + 1, 3 * i + 2) && LineCells(3 + 2 * i) == (i, i + 3, i + 6);
        prods := prods + [Prod3(f[3 * i], f[3 * i + 1], f[3 * i + 2]), Prod3(f[i], f[i + 3], f[i + 6])];
        i := i + 1;
      }
      var k := 0;
      while k < 8
        invariant 0 <= k <= 8 && Scan(f, playerSide, aiSide, 0) == Scan(f, playerSide, aiSide, k)
      {
        if prods[k] == Prod3(playerSide, playerSide, playerSide) {
          lastWinner := Some(1);
          return Some(PlayerWon);
        } else if prods[k] == Prod3(aiSide, aiSide, aiSide) {
          lastWinner := Some(2);
          return Some(AiWon);
        }
        k := k + 1;
      }
      var j := 0;
      while j < 9
        invariant 0 <= j <= 9 && forall i :: 0 <= i < j ==> f[i] != EMPTY
      {
        if f[j] == EMPTY {
          return None;
        }
        j := j + 1;
      }
      lastWinner := Some(0);
      return Some(Draw);
    }

    /**
     * The end of a game (tictactoe.py:165-180): the reinforcement becomes the
     * reward of the verdict, the winner's score or the draws go up, and
     * `lastWinner` is cleared.
     */
    method EndGame()
      requires lastWinner.Some? && |score| == 2
      modifies this`reinforcement, this`score, this`draws, this`lastWinner
      ensures reinforcement == Reward(old(lastWinner.value))
      ensures score == (if old(lastWinner.value) == 2 then old(score)[1 := old(score)[1] + 1]
                        else if old(lastWinner.value) == 1 then old(score)[0 := old(score)[0] + 1]
                        else old(score))
      ensures draws == if old(lastWinner.value) == 2 || old(lastWinner.value) == 1 then old(draws) else old(draws) + 1
      ensures lastWinner == None
    {
      if lastWinner.value == 2 {
        reinforcement := 1.0;
        score := score[1 := score[1] + 1];
      } else if lastWinner.value == 1 {
        reinforcement := -1.0;
        score := score[0 := score[0] + 1];
      } else {
        reinforcement := 1.0;
        draws := draws + 1;
      }
      lastWinner := None;
    }

    /**
     * After a move (tictactoe.py:201-208): a nonzero reinforcement moves half
     * a point towards zero, and a move of the AI's side with a positive rank
     * adds a point.
     */
    method AfterMove(moverSide: real, rank: real)
      modifies this`reinforcement
      ensures reinforcement == Reinforced(old(reinforcement), moverSide == aiSide, rank)
    {
      if reinforcement != 0.0 {
        reinforcement := reinforcement - Sign(reinforcement) * 0.5;
      }
      if moverSide == aiSide && rank > 0.0 {
        reinforcement := reinforcement + 1.0;
      }
    }
  }

  /** The verdict on a field as the referee gives it, read from the lines' owners. */
  lemma CheckWinIsOwners(f: seq<real>, player: real, ai: real)
    requires IsField(f) && IsSide(player) && IsSide(ai)
    ensures Scan(f, player, ai, 0) == FirstOwner(f, player, ai, 0)
    ensures Scan(f, player, ai, 0) == Some(Draw) <==>
      Full(f) && forall j :: 0 <= j < 8 ==> !Owned(f, j, player) && !Owned(f, j, ai)
    ensures Scan(f, player, ai, 0) == Some(PlayerWon) ==> exists j :: 0 <= j < 8 && Owned(f, j, player)
    ensures Scan(f, player, ai, 0) == Some(AiWon) ==> exists j :: 0 <= j < 8 && Owned(f, j, ai)
  {
    ScanIsFirstOwner(f, player, ai, 0);
    FirstOwnerMeans(f, player, ai, 0);
  }

  // ---------------------------------------------------------------------
  // Reinforcement
  // ---------------------------------------------------------------------

  /** numpy's `sign`. */
  function Sign(x: real): (s: real)
    ensures (s == 1.0 <==> x > 0.0) && (s == -1.0 <==> x < 0.0) && (s == 0.0 <==> x == 0.0)
  {
    if x > 0.0 then 1.0 else if x < 0.0 then -1.0 else 0.0
  }

  /** The reinforcement once a game ended with `lastWinner`: a player's win is punished, anything else rewarded. */
  function Reward(lastWinner: int): (r: real)
    ensures r == 1.0 || r == -1.0
    ensures r < 0.0 <==> lastWinner == 1
  {
    if lastWinner == 2 then 1.0 else if lastWinner == 1 then -1.0 else 1.0
  }

  /** The reinforcement after a move. */
  function Reinforced(r: real, aiMoved: bool, rank: real): real
  {
    (if r != 0.0 then r - Sign(r) * 0.5 else r) + (if aiMoved && rank > 0.0 then 1.0 else 0.0)
  }

  /** A whole number of half points. */
  predicate Halves(r: real)
  {
    (2.0 * r).Floor as real == 2.0 * r
  }

  /**
   * Without the AI's bonus a reinforcement of whole half points moves half a
   * point towards zero and never past it; every reinforcement the game hands
   * out stays a whole number of half points.
   */
  lemma DecayTowardsZero(r: real, aiMoved: bool, rank: real)
    requires Halves(r)
    ensures Halves(Reinforced(r, aiMoved, rank))
    ensures !(aiMoved && rank > 0.0) ==>
      var d := Reinforced(r, aiMoved, rank);
      (r > 0.0 ==> 0.0 <= d == r - 0.5) && (r < 0.0 ==> r + 0.5 == d <= 0.0) && (r == 0.0 ==> d == 0.0)
  {
    var n := (2.0 * r).Floor;
    var d := Reinforced(r, aiMoved, rank);
    var m := (if r > 0.0 then n - 1 else if r < 0.0 then n + 1 else 0) + (if aiMoved && rank > 0.0 then 2 else 0);
    assert 2.0 * d == m as real;
    assert (2.0 * d).Floor == m;
  }

  /** A move of the AI's side with a positive rank raises the reinforcement by at least half a point. */
  lemma AiGainRaises(r: real, rank: real)
    requires rank > 0.0
    ensures Reinforced(r, true, rank) >= r + 0.5
  {
  }

  /** The rewards at the end of a game are whole numbers of half points. */
  lemma RewardHalves(lastWinner: int)
    ensures Halves(Reward(lastWinner))
  {
    assert (2.0 * Reward(lastWinner)).Floor == (if lastWinner == 1 then -2 else 2);
  }

  // ---------------------------------------------------------------------
  // Sides and seats
  // ---------------------------------------------------------------------

  /** The answer to "Choose your side": the player's side and the AI's side name; any other answer is asked again. */
  function ChooseSide(answer: string): (r: Option<(real, string)>)
    ensures r.Some? ==> IsSide(r.value.0) && (r.value.1 == "cross" <==> r.value.0 == NOUGHT)
  {
    if answer == "o" || answer == "O" then Some((NOUGHT, "cross"))
    else if answer == "x" || answer == "X" then Some((CROSS, "nought"))
    else None
  }

  /** `side_names` (tictactoe.py:142-143): the seat of each side in the order of play. */
  function SideNames(playerSide: real, playerName: string, aiSide: real, aiName: string): (names: seq<string>)
    requires playerSide != aiSide
    ensures |names| == 2
  {
    var pi := if playerSide < aiSide then 1 else 0;
    seq(2, i requires 0 <= i < 2 => if i == pi then playerName else aiName)
  }

  /** Whichever side the player picks, the cross moves first. */
  lemma CrossMovesFirst(answer: string)
    requires ChooseSide(answer).Some?
    ensures var c := ChooseSide(answer).value;
      var aiSide := if c.1 == "cross" then CROSS else NOUGHT;
      var playerName := if c.1 == "cross" then "nought" else "cross";
      SideNames(c.0, playerName, aiSide, c.1) == ["cross", "nought"]
  {
  }
}
