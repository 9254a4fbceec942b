/**
 * How the client's requests meet the rules of the two backends: the body `saveScore`
 * sends, as the Node merge and the PHP `score.php` read it, and an account made by
 * signup logging in with its own password.
 */
module EndToEnd {
  import opened Wrappers
  import opened Rules
  import ClientGame
  import NodeServer
  import opened PhpValues
  import opened PhpConfig
  import PhpApi
  import Crypto

  // ---------------------------------------------------------------- the score body

  /** The Node route's view of the client's body: every field given, the history included. */
  function NodeSubmission(p: ClientGame.ScorePayload): NodeServer.ScoreSubmission
  {
    NodeServer.ScoreSubmission(p.score, p.totalGames, p.totalWins, p.currentStreak, p.maxStreak, Some(p.gameHistory))
  }

  /**
   * A body from a valid client game never breaks the stored streak order on the Node
   * backend, and its whole history is appended.
   */
  lemma ClientSaveKeepsNodeStreakOrder(g: ClientGame.Game, p: ClientGame.ScorePayload, stored: NodeServer.Player, now: Time)
    requires g.Valid() && p == ClientGame.ScorePayload(g.playerName, g.userScore, g.totalGames, g.totalWins,
                                                       g.currentStreak, g.maxStreak, g.gameHistory)
    ensures var q := NodeServer.Merge(stored, NodeSubmission(p), now);
      && q.currentStreak <= q.maxStreak
      && q.totalGames == stored.totalGames + g.totalGames
      && q.gameHistory == stored.gameHistory + g.gameHistory
  {
    ClientGame.ValidGameSendsConsistentStreaks(g, p);
    NodeServer.MergeStreakOrder(stored, NodeSubmission(p), now);
    NodeServer.MergeAggregates(stored, NodeSubmission(p), now);
  }

  function MoveName(m: Move): string
  {
    match m
    case Rock => "rock"
    case Paper => "paper"
    case Scissors => "scissors"
  }

  function OutcomeName(o: Outcome): string
  {
    match o
    case Win => "win"
    case Lose => "lose"
    case Draw => "draw"
  }

  /** One history entry as decoded JSON; the timestamp is kept as a number. */
  function RecordValue(r: GameRecord): Value
  {
    Arr(map[StrKey("userChoice") := Str(MoveName(r.userChoice)),
            StrKey("compChoice") := Str(MoveName(r.compChoice)),
            StrKey("result") := Str(OutcomeName(r.result)),
            StrKey("timestamp") := Int(r.timestamp)])
  }

  /** A JSON array decodes to a PHP array with keys 0, 1, ... */
  function HistoryValue(h: seq<GameRecord>): Value
  {
    Arr(map k | 0 <= k < |h| :: IntKey(k) := RecordValue(h[k]))
  }

  /** The client's body as `json_decode($raw, true)` gives it (`winRate` is left out). */
  function PayloadBody(p: ClientGame.ScorePayload): Value
  {
    Arr(map[StrKey("playerName") := Str(p.playerName),
            StrKey("score") := Int(p.score),
            StrKey("totalGames") := Int(p.totalGames),
            StrKey("totalWins") := Int(p.totalWins),
            StrKey("currentStreak") := Int(p.currentStreak),
            StrKey("maxStreak") := Int(p.maxStreak),
            StrKey("gameHistory") := HistoryValue(p.gameHistory)])
  }

  /** `score.php` reads back every number the client sent, and the history as sent. */
  lemma PhpReadsClientPayload(p: ClientGame.ScorePayload)
    ensures var s := PhpApi.ScoreInputOf(ReadJson(PayloadBody(p)));
      && s.score == p.score && s.totalGames == p.totalGames && s.totalWins == p.totalWins
      && s.currentStreak == p.currentStreak && s.maxStreak == p.maxStreak
      && s.history == HistoryValue(p.gameHistory)
  {
    var data := ReadJson(PayloadBody(p));
    assert Isset(data, "score") && Isset(data, "totalGames") && Isset(data, "totalWins");
    assert Isset(data, "currentStreak") && Isset(data, "maxStreak") && Isset(data, "gameHistory");
  }

  /**
   * A body from a valid client game never breaks the streak order of the PHP row either,
   * whatever the row held before.
   */
  lemma ClientSaveKeepsPhpStreakOrder(g: ClientGame.Game, p: ClientGame.ScorePayload, row: PhpApi.PlayerRow, now: Time)
    requires g.Valid() && p == ClientGame.ScorePayload(g.playerName, g.userScore, g.totalGames, g.totalWins,
                                                       g.currentStreak, g.maxStreak, g.gameHistory)
    ensures var q := PhpApi.Aggregated(row, PhpApi.ScoreInputOf(ReadJson(PayloadBody(p))), now);
      && q.maxStreak.Some? && q.currentStreak.Some?
      && q.currentStreak.value <= q.maxStreak.value
      && q.totalGames == Some(PhpApi.Coalesce(row.totalGames) + g.totalGames)
  {
    var s := PhpApi.ScoreInputOf(ReadJson(PayloadBody(p)));
    ClientGame.ValidGameSendsConsistentStreaks(g, p);
    PhpReadsClientPayload(p);
    PhpApi.AggregatedCounters(row, s, now);
    PhpApi.AggregatedStreakOrder(row, s, now);
  }

  // ---------------------------------------------------------------- signup, then login

  /**
   * On the Node backend an account made by signup lets in exactly its own password, and
   * answers any other non-empty password with bad credentials.
   */
  lemma NodeSignupThenLogin(id: NodeServer.Id, email: string, name: string, password: string,
                            attempt: string, newName: Option<string>, now: Time)
    requires attempt != ""
    ensures var p := NodeServer.NewPlayer(id, email, name, Crypto.Hash(password), now);
      && (attempt == password ==> NodeServer.JudgeLogin(p, newName, Some(attempt)) == NodeServer.Accept(None))
      && (attempt != password ==> NodeServer.JudgeLogin(p, newName, Some(attempt)) == NodeServer.BadCredentials)
  {
    Crypto.VerifyMatchesHash(password, attempt);
  }

  /**
   * On the PHP backend, after a successful signup a login with the same email succeeds
   * exactly when its password is the signup password; without a new name it answers with
   * the new player, and with a wrong password it is a 401 that changes nothing.
   */
  lemma PhpSignupThenLogin(
    q: PhpApi.SignupRequest, newId: int, t0: seq<PhpApi.PlayerRow>, t1: seq<PhpApi.PlayerRow>,
    s0: Session, s1: Session, info: PhpApi.PlayerInfo,
    attempt: Value, newName: Option<string>, now: Time, later: Time,
    t2: seq<PhpApi.PlayerRow>, s2: Session, reply: Reply<PhpApi.PlayerInfo>)
    requires PhpApi.SignupOutcome(q, newId, now, t0, t1, s0, s1, Ok(info))
    requires PhpApi.LoginOutcome(PhpApi.LoginRequest(q.email, newName, attempt), later, t1, t2, s1, s2, reply)
    requires StringOf(attempt).Some?
    ensures reply.Ok? <==> StringOf(attempt) == StringOf(q.password)
    ensures reply.Fail? ==> reply == Fail(Unauthorized) && t2 == t1 && s2 == s1
    ensures reply.Ok? && newName.None? ==> reply == Ok(info) && t2 == t1
  {
    var pw := StringOf(q.password).value;
    var row := PhpApi.NewRow(newId, q.email, q.playerName, pw, now);
    assert t1 == t0 + [row];
    var found := PhpApi.RowByEmail(t1, q.email);
    assert found == Some(|t0|) by {
      assert t1[|t0|].email == q.email;
    }
    assert t1[found.value] == row;
    PhpApi.NewRowVerifiesItsPassword(newId, q.email, q.playerName, pw, StringOf(attempt).value, now);
  }
}
