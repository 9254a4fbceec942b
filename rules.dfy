/**
 * The outcome rule and the win-rate rounding shared by the browser client
 * (FRONTEND/sps.js) and the Node server (BACKEND/server.js).
 */
module Rules {

  datatype Move = Rock | Paper | Scissors

  /** Always from the user's side of the table. */
  datatype Outcome = Win | Lose | Draw

  /** Timestamps (`new Date()`, `NOW()`) are opaque inputs. */
  type Time = nat

  /** One entry of `gameHistory`. */
  datatype GameRecord = GameRecord(userChoice: Move, compChoice: Move, result: Outcome, timestamp: Time)

  /** The client's `winConditions` table: the move each move defeats. */
  function Defeats(m: Move): Move
  {
    match m
    case Rock => Scissors
    case Paper => Rock
    case Scissors => Paper
  }

  /** Cyclic dominance written out pair by pair, independently of `Defeats`. */
  predicate Beats(a: Move, b: Move)
  {
    || (a == Rock && b == Scissors)
    || (a == Paper && b == Rock)
    || (a == Scissors && b == Paper)
  }

  /** `determineWinner`: a draw exactly on equal moves, a win exactly on the three dominating pairs. */
  function DetermineWinner(user: Move, comp: Move): (r: Outcome)
    ensures r == Draw <==> user == comp
    ensures r == Win <==> Beats(user, comp)
    ensures r == Lose <==> Beats(comp, user)
  {
    if user == comp then Draw
    else if Defeats(user) == comp then Win
    else Lose
  }

  function Swap(r: Outcome): Outcome
  {
    match r
    case Win => Lose
    case Lose => Win
    case Draw => Draw
  }

  /** Exchanging the two moves exchanges win and lose. */
  lemma SwappingMovesSwapsOutcome(a: Move, b: Move)
    ensures DetermineWinner(b, a) == Swap(DetermineWinner(a, b))
  {
  }

  /**
   * `totalGames > 0 ? Math.round(totalWins / totalGames * 100) : 0`, computed on exact
   * rationals: `Math.round` rounds half up, i.e. r = floor(100 * wins / games + 1/2).
   */
  function WinRate(wins: int, games: int): (r: int)
    ensures games <= 0 ==> r == 0
    ensures games > 0 ==> 2 * games * r <= 200 * wins + games < 2 * games * (r + 1)
    ensures 0 <= wins <= games ==> 0 <= r <= 100
  {
    if games > 0 then
      var r := (200 * wins + games) / (2 * games);
      RoundedBounds(200 * wins + games, 2 * games, r);
      if 0 <= wins <= games then
        RoundedAtMostHundred(wins, games, r);
        r
      else r
    else 0
  }

  lemma RoundedBounds(a: int, d: int, q: int)
    requires d > 0 && q == a / d
    ensures d * q <= a < d * (q + 1)
  {
  }

  lemma RoundedAtMostHundred(wins: int, games: int, r: int)
    requires 0 <= wins <= games && games > 0
    requires 2 * games * r <= 200 * wins + games < 2 * games * (r + 1)
    ensures 0 <= r <= 100
  {
    if r > 100 {
      MulMonotone(2 * games, 101, r);
      assert false;
    }
    if r < 0 {
      MulMonotone(2 * games, r + 1, 0);
      assert false;
    }
  }

  lemma MulMonotone(k: int, a: int, b: int)
    requires k >= 0 && a <= b
    ensures k * a <= k * b
  {
    assert k * b - k * a == k * (b - a);
  }

  /** The worked values: no games shows 0, 3 wins of 4 shows 75, 1 of 8 (12.5) rounds up to 13. */
  lemma WinRateExamples()
    ensures WinRate(0, 0) == 0
    ensures WinRate(3, 4) == 75
    ensures WinRate(1, 8) == 13
    ensures WinRate(1, 3) == 33
  {
  }
}
