/**
 * The browser game engine (FRONTEND/sps.js): one game object whose counters, history
 * and login fields are updated in place by each user action.
 */
module ClientGame {
  import opened Wrappers
  import opened Rules
  import Text
  import Tables

  /** `addToHistory` keeps only the last 50 games. */
  const HistoryLimit: nat := 50

  /** The name shown when nobody is logged in. */
  const DefaultName: string := "Player"

  /** The six counters of the game object. */
  datatype Stats = Stats(
    userScore: nat, compScore: nat, totalGames: nat, totalWins: nat,
    currentStreak: nat, maxStreak: nat)

  /** What every sequence of plays from a fresh game keeps true. */
  predicate Consistent(s: Stats)
  {
    && s.totalWins <= s.totalGames
    && s.userScore <= s.totalWins
    && s.userScore + s.compScore <= s.totalGames
    && s.currentStreak <= s.maxStreak
  }

  /** The counters after `updateScores(result)`. A draw touches nothing, not even the streak. */
  function Scored(s: Stats, result: Outcome): Stats
  {
    match result
    case Win =>
      s.(userScore := s.userScore + 1, totalWins := s.totalWins + 1,
         currentStreak := s.currentStreak + 1, maxStreak := Tables.Max(s.maxStreak, s.currentStreak + 1))
    case Lose => s.(compScore := s.compScore + 1, currentStreak := 0)
    case Draw => s
  }

  /** The counters after one `playGame`: the game is counted first, then scored. */
  function Played(s: Stats, user: Move, comp: Move): Stats
  {
    Scored(s.(totalGames := s.totalGames + 1), DetermineWinner(user, comp))
  }

  /** The best streak never goes down, and stays at or above the current one. */
  lemma ScoredKeepsBestStreak(s: Stats, result: Outcome)
    ensures Scored(s, result).maxStreak >= s.maxStreak
    ensures s.currentStreak <= s.maxStreak ==> Scored(s, result).currentStreak <= Scored(s, result).maxStreak
  {
  }

  /** One play counts exactly one game and keeps the counters consistent. */
  lemma PlayedKeepsConsistent(s: Stats, user: Move, comp: Move)
    ensures Played(s, user, comp).totalGames == s.totalGames + 1
    ensures Consistent(s) ==> Consistent(Played(s, user, comp))
  {
  }

  /** The counters after a series of plays, in order. */
  function PlayedAll(s: Stats, games: seq<(Move, Move)>): Stats
    decreases |games|
  {
    if games == [] then s
    else PlayedAll(Played(s, games[0].0, games[0].1), games[1..])
  }

  /** How many of the games end with `o` for the user. */
  function CountOutcome(games: seq<(Move, Move)>, o: Outcome): nat
    decreases |games|
  {
    if games == [] then 0
    else (if DetermineWinner(games[0].0, games[0].1) == o then 1 else 0) + CountOutcome(games[1..], o)
  }

  /**
   * Over any series of plays, every game is counted, the user's score and wins grow by the
   * games won, the computer's score by the games lost, and consistency is kept throughout.
   */
  lemma {:induction false} PlayedAllCounts(s: Stats, games: seq<(Move, Move)>)
    ensures PlayedAll(s, games).totalGames == s.totalGames + |games|
    ensures PlayedAll(s, games).totalWins == s.totalWins + CountOutcome(games, Win)
    ensures PlayedAll(s, games).userScore == s.userScore + CountOutcome(games, Win)
    ensures PlayedAll(s, games).compScore == s.compScore + CountOutcome(games, Lose)
    ensures PlayedAll(s, games).maxStreak >= s.maxStreak
    ensures Consistent(s) ==> Consistent(PlayedAll(s, games))
    decreases |games|
  {
    if games != [] {
      var t := Played(s, games[0].0, games[0].1);
      PlayedKeepsConsistent(s, games[0].0, games[0].1);
      ScoredKeepsBestStreak(s.(totalGames := s.totalGames + 1), DetermineWinner(games[0].0, games[0].1));
      PlayedAllCounts(t, games[1..]);
    }
  }

  /** `gameHistory` after `addToHistory`: push, then shift once if over the limit. */
  function Recorded(h: seq<GameRecord>, rec: GameRecord): (r: seq<GameRecord>)
    ensures r != [] && r[|r| - 1] == rec
    ensures |h| <= HistoryLimit ==> |r| <= HistoryLimit
    ensures |h| < HistoryLimit ==> r[..|r| - 1] == h
    ensures |h| >= HistoryLimit ==> |r| == |h| && r[..|r| - 1] == h[1..]
  {
    var pushed := h + [rec];
    if |pushed| > HistoryLimit then pushed[1..] else pushed
  }

  /** The last `n` elements of `s` (all of them when there are fewer). */
  function LastN<T>(s: seq<T>, n: nat): (r: seq<T>)
    ensures |r| == if |s| <= n then |s| else n
  {
    if |s| <= n then s else s[|s| - n..]
  }

  /** The history after recording several games, one `addToHistory` each. */
  function RecordedAll(h: seq<GameRecord>, recs: seq<GameRecord>): seq<GameRecord>
    decreases |recs|
  {
    if recs == [] then h else RecordedAll(Recorded(h, recs[0]), recs[1..])
  }

  lemma LastNOfLastN<T>(x: seq<T>, y: seq<T>, n: nat)
    ensures LastN(LastN(x, n) + y, n) == LastN(x + y, n)
  {
    if |x| > n {
      var t := x[|x| - n..];
      assert x + y == x[..|x| - n] + (t + y);
      assert (x + y)[|x + y| - n..] == (t + y)[|t + y| - n..];
    }
  }

  /**
   * Starting from a history within the limit, recording any number of games leaves
   * exactly the most recent 50 records (all of them, if fewer) in their original order.
   */
  lemma {:induction false} RecordedAllKeepsMostRecent(h: seq<GameRecord>, recs: seq<GameRecord>)
    requires |h| <= HistoryLimit
    ensures RecordedAll(h, recs) == LastN(h + recs, HistoryLimit)
    decreases |recs|
  {
    if recs == [] {
      assert h + recs == h;
    } else {
      var h1 := Recorded(h, recs[0]);
      assert h1 == LastN(h + [recs[0]], HistoryLimit);
      RecordedAllKeepsMostRecent(h1, recs[1..]);
      LastNOfLastN(h + [recs[0]], recs[1..], HistoryLimit);
      assert (h + [recs[0]]) + recs[1..] == h + recs;
    }
  }

  /** The body `saveScore` would send (its floating-point `winRate` is not modelled). */
  datatype ScorePayload = ScorePayload(
    playerName: string, score: nat, totalGames: nat, totalWins: nat,
    currentStreak: nat, maxStreak: nat, gameHistory: seq<GameRecord>)

  class Game {
    var userScore: nat
    var compScore: nat
    var totalGames: nat
    var totalWins: nat
    var currentStreak: nat
    var maxStreak: nat
    var gameHistory: seq<GameRecord>
    var playerName: string
    var isLoggedIn: bool
    var isGameInProgress: bool

    function Counters(): Stats
      reads this
    {
      Stats(userScore, compScore, totalGames, totalWins, currentStreak, maxStreak)
    }

    /** The invariants the game keeps: consistent counters, history within the limit. */
    predicate Valid()
      reads this
    {
      Consistent(Counters()) && |gameHistory| <= HistoryLimit
    }

    /** A fresh game (the saved snapshot that `loadGameData` may restore is not modelled). */
    constructor ()
      ensures Counters() == Stats(0, 0, 0, 0, 0, 0)
      ensures gameHistory == [] && playerName == DefaultName
      ensures !isLoggedIn && !isGameInProgress
      ensures Valid()
    {
      userScore, compScore, totalGames, totalWins := 0, 0, 0, 0;
      currentStreak, maxStreak := 0, 0;
      gameHistory := [];
      playerName := DefaultName;
      isLoggedIn, isGameInProgress := false, false;
    }

    /** `updateScores`. */
    method UpdateScores(result: Outcome)
      modifies this`userScore, this`compScore, this`totalWins, this`currentStreak, this`maxStreak
      ensures Counters() == Scored(old(Counters()), result)
    {
      if result == Win {
        userScore := userScore + 1;
        totalWins := totalWins + 1;
        currentStreak := currentStreak + 1;
        maxStreak := Tables.Max(maxStreak, currentStreak);
      } else if result == Lose {
        compScore := compScore + 1;
        currentStreak := 0;
      }
    }

    /** `addToHistory`: push the record, then drop the oldest one if over the limit. */
    method AddToHistory(userChoice: Move, compChoice: Move, result: Outcome, timestamp: Time)
      modifies this`gameHistory
      ensures gameHistory == Recorded(old(gameHistory), GameRecord(userChoice, compChoice, result, timestamp))
    {
      gameHistory := gameHistory + [GameRecord(userChoice, compChoice, result, timestamp)];
      if |gameHistory| > HistoryLimit {
        gameHistory := gameHistory[1..];
      }
    }

    /**
     * `playGame` as one step, with the computer's move and the clock given. The game is
     * counted before it is resolved; the name and login state are untouched.
     */
    method PlayGame(userChoice: Move, compChoice: Move, timestamp: Time) returns (result: Outcome)
      modifies this
      ensures result == DetermineWinner(userChoice, compChoice)
      ensures Counters() == Played(old(Counters()), userChoice, compChoice)
      ensures gameHistory == Recorded(old(gameHistory), GameRecord(userChoice, compChoice, result, timestamp))
      ensures playerName == old(playerName) && isLoggedIn == old(isLoggedIn)
      ensures !isGameInProgress
      ensures old(Valid()) ==> Valid()
    {
      isGameInProgress := true;
      totalGames := totalGames + 1;
      result := DetermineWinner(userChoice, compChoice);
      UpdateScores(result);
      AddToHistory(userChoice, compChoice, result, timestamp);
      isGameInProgress := false;
      PlayedKeepsConsistent(old(Counters()), userChoice, compChoice);
    }

    /** The win rate `updateStats` displays. */
    function ShownWinRate(): (r: int)
      reads this
      ensures Valid() ==> 0 <= r <= 100
      ensures totalGames == 0 ==> r == 0
    {
      WinRate(totalWins, totalGames)
    }

    /** `resetGame`: only the two scores and the in-progress flag are cleared. */
    method ResetGame()
      modifies this`userScore, this`compScore, this`isGameInProgress
      ensures userScore == 0 && compScore == 0 && !isGameInProgress
      ensures old(Valid()) ==> Valid()
    {
      userScore := 0;
      compScore := 0;
      isGameInProgress := false;
    }

    /**
     * `login`: a name that is empty once trimmed is refused and nothing changes; otherwise
     * the trimmed name is taken and the player is logged in.
     */
    method Login(input: string) returns (accepted: bool)
      modifies this`playerName, this`isLoggedIn
      ensures accepted <==> Text.JsTrim(input) != ""
      ensures accepted ==> playerName == Text.JsTrim(input) && isLoggedIn
      ensures !accepted ==> playerName == old(playerName) && isLoggedIn == old(isLoggedIn)
    {
      var name := Text.JsTrim(input);
      if name == "" {
        return false;
      }
      playerName := name;
      isLoggedIn := true;
      accepted := true;
    }

    /** `logout`. */
    method Logout()
      modifies this`playerName, this`isLoggedIn
      ensures !isLoggedIn && playerName == DefaultName
    {
      isLoggedIn := false;
      playerName := DefaultName;
    }

    /**
     * `saveScore`: when logged out no request is made; otherwise the body sent carries the
     * current counters and the whole history.
     */
    method SaveScore() returns (request: Option<ScorePayload>)
      ensures request.None? <==> !isLoggedIn
      ensures request.Some? ==> request.value == ScorePayload(
        playerName, userScore, totalGames, totalWins, currentStreak, maxStreak, gameHistory)
    {
      if !isLoggedIn {
        return None;
      }
      request := Some(ScorePayload(
        playerName, userScore, totalGames, totalWins, currentStreak, maxStreak, gameHistory));
    }
  }

  /** A valid game only ever sends a payload whose streak is within its best streak. */
  lemma ValidGameSendsConsistentStreaks(g: Game, p: ScorePayload)
    requires g.Valid() && p == ScorePayload(g.playerName, g.userScore, g.totalGames, g.totalWins,
                                            g.currentStreak, g.maxStreak, g.gameHistory)
    ensures p.currentStreak <= p.maxStreak && p.totalWins <= p.totalGames && p.score <= p.totalWins
  {
  }
}
