/**
 * The Node backend (BACKEND/server.js): the player collection, the bearer-token gate,
 * the score merge behind `POST /api/scores`, login and signup, and the win-rate and
 * limit expressions of the read routes.
 */
module NodeServer {
  import opened Wrappers
  import opened Rules
  import opened Tables
  import Crypto

  /** A document `_id`. */
  type Id = nat

  /** A `Player` document. Counters default to 0 and are never NULL. */
  datatype Player = Player(
    id: Id, playerName: string, email: Option<string>, passwordHash: Option<Crypto.Digest>,
    totalGames: int, totalWins: int, currentStreak: int, maxStreak: int, bestScore: int,
    gameHistory: seq<GameRecord>, lastPlayed: Time, createdAt: Time, updatedAt: Time)

  /** `new Player({ email, playerName, passwordHash })` with the schema defaults. */
  function NewPlayer(id: Id, email: string, playerName: string, hash: Crypto.Digest, now: Time): Player
  {
    Player(id, playerName, Some(email), Some(hash), 0, 0, 0, 0, 0, [], now, now, now)
  }

  /** The payload signed into a token: `{ playerId, email, playerName }`. */
  datatype Claim = Claim(playerId: Option<Id>, email: Option<string>, playerName: string)

  function ClaimFor(p: Player): Claim
  {
    Claim(Some(p.id), p.email, p.playerName)
  }

  // ---------------------------------------------------------------- token gate

  const BearerPrefix: string := "Bearer "

  /**
   * The token of an `Authorization` header: what follows a leading "Bearer " exactly.
   * A header without that prefix, or with nothing after it, yields no token.
   */
  function ExtractBearer(header: string): (t: Option<string>)
    ensures t.Some? <==> |header| > |BearerPrefix| && header[..|BearerPrefix|] == BearerPrefix
    ensures t.Some? ==> BearerPrefix + t.value == header
  {
    if |header| >= |BearerPrefix| && header[..|BearerPrefix|] == BearerPrefix then
      var token := header[|BearerPrefix|..];
      assert header == BearerPrefix + token;
      if token == "" then None else Some(token)
    else None
  }

  /** Prefixing a non-empty token with "Bearer " and extracting it gives the token back. */
  lemma BearerRoundTrip(token: string)
    requires token != ""
    ensures ExtractBearer(BearerPrefix + token) == Some(token)
  {
    assert (BearerPrefix + token)[..|BearerPrefix|] == BearerPrefix;
  }

  /**
   * `authMiddleware`. `valid` maps each token `jwt.verify` accepts now (good signature,
   * not expired) to its payload. Every failure is a 401.
   */
  function Authenticate(header: Option<string>, valid: map<string, Claim>): (r: Reply<Claim>)
    ensures r.Fail? ==> r.status == Unauthorized
    ensures r.Ok? <==> header.Some? && ExtractBearer(header.value).Some? && ExtractBearer(header.value).value in valid
    ensures r.Ok? ==> r.value == valid[ExtractBearer(header.value).value]
  {
    var h := if header.Some? then header.value else "";
    match ExtractBearer(h)
    case None => Fail(Unauthorized)
    case Some(token) => if token in valid then Ok(valid[token]) else Fail(Unauthorized)
  }

  // ---------------------------------------------------------------- lookups

  predicate HasId(p: Player, id: Id)
  {
    p.id == id
  }

  predicate HasEmail(p: Player, email: string)
  {
    p.email == Some(email)
  }

  /** `Player.findById(id)`: the document with that id. */
  function FindById(players: seq<Player>, id: Id): (r: Option<nat>)
    ensures r.None? <==> forall i :: 0 <= i < |players| ==> !HasId(players[i], id)
    ensures r.Some? ==> r.value < |players| && HasId(players[r.value], id)
  {
    FirstMatch(players, (p: Player) => HasId(p, id))
  }

  /** `Player.findOne({ email })`: the first document with that email. */
  function FindByEmail(players: seq<Player>, email: string): (r: Option<nat>)
    ensures r.None? <==> forall i :: 0 <= i < |players| ==> !HasEmail(players[i], email)
    ensures r.Some? ==> r.value < |players| && HasEmail(players[r.value], email)
  {
    FirstMatch(players, (p: Player) => HasEmail(p, email))
  }

  /**
   * The save route's player resolution: by the token's `playerId` first, then by its
   * email; no player means the request is refused.
   */
  function ResolvePlayer(players: seq<Player>, claim: Claim): (r: Option<nat>)
    ensures r.Some? ==> r.value < |players|
    ensures claim.playerId.Some? && FindById(players, claim.playerId.value).Some? ==>
      r.Some? && HasId(players[r.value], claim.playerId.value)
    ensures r.Some? && !(claim.playerId.Some? && HasId(players[r.value], claim.playerId.value)) ==>
      claim.email.Some? && HasEmail(players[r.value], claim.email.value)
    ensures r.None? <==>
      && (claim.playerId.None? || FindById(players, claim.playerId.value).None?)
      && (claim.email.None? || claim.email.value == "" || FindByEmail(players, claim.email.value).None?)
  {
    var byId := if claim.playerId.Some? then FindById(players, claim.playerId.value) else None;
    if byId.Some? then byId
    else if claim.email.Some? && claim.email.value != "" then FindByEmail(players, claim.email.value)
    else None
  }

  // ---------------------------------------------------------------- score merge

  /** The fields of a validated `POST /api/scores` body that reach the stored aggregate. */
  datatype ScoreSubmission = ScoreSubmission(
    score: int, totalGames: int, totalWins: int, currentStreak: int, maxStreak: int,
    gameHistory: Option<seq<GameRecord>>)

  function SubmittedHistory(s: ScoreSubmission): seq<GameRecord>
  {
    if s.gameHistory.Some? then s.gameHistory.value else []
  }

  /** The document after the save route's field updates (`player.totalGames += ...` and so on). */
  function Merge(p: Player, s: ScoreSubmission, now: Time): Player
  {
    p.(totalGames := p.totalGames + s.totalGames,
       totalWins := p.totalWins + s.totalWins,
       currentStreak := s.currentStreak,
       maxStreak := Max(p.maxStreak, s.maxStreak),
       bestScore := Max(p.bestScore, s.score),
       gameHistory := p.gameHistory + SubmittedHistory(s),
       lastPlayed := now,
       updatedAt := now)
  }

  /**
   * Totals are added, the streak is replaced, the two records only go up (each to the
   * larger of stored and submitted), and identity, name and credentials are untouched.
   */
  lemma MergeAggregates(p: Player, s: ScoreSubmission, now: Time)
    ensures Merge(p, s, now).totalGames - p.totalGames == s.totalGames
    ensures Merge(p, s, now).totalWins - p.totalWins == s.totalWins
    ensures Merge(p, s, now).currentStreak == s.currentStreak
    ensures Merge(p, s, now).maxStreak >= p.maxStreak && Merge(p, s, now).maxStreak >= s.maxStreak
    ensures Merge(p, s, now).maxStreak in {p.maxStreak, s.maxStreak}
    ensures Merge(p, s, now).bestScore >= p.bestScore && Merge(p, s, now).bestScore >= s.score
    ensures Merge(p, s, now).bestScore in {p.bestScore, s.score}
    ensures Merge(p, s, now).id == p.id && Merge(p, s, now).email == p.email
    ensures Merge(p, s, now).playerName == p.playerName && Merge(p, s, now).passwordHash == p.passwordHash
  {
  }

  /**
   * The stored history is the old one followed by the submitted one, both in order,
   * with nothing dropped: it is not capped at 50.
   */
  lemma MergeAppendsHistory(p: Player, s: ScoreSubmission, now: Time)
    ensures |Merge(p, s, now).gameHistory| == |p.gameHistory| + |SubmittedHistory(s)|
    ensures Merge(p, s, now).gameHistory[..|p.gameHistory|] == p.gameHistory
    ensures Merge(p, s, now).gameHistory[|p.gameHistory|..] == SubmittedHistory(s)
    ensures s.gameHistory.None? ==> Merge(p, s, now).gameHistory == p.gameHistory
  {
    var h := Merge(p, s, now).gameHistory;
    assert h == p.gameHistory + SubmittedHistory(s);
    assert h[..|p.gameHistory|] == p.gameHistory;
    assert h[|p.gameHistory|..] == SubmittedHistory(s);
  }

  /**
   * After a merge the best streak covers the current one exactly when the submitted streak
   * is within the larger of the two best streaks; a body whose streak is within its own best
   * streak is always enough.
   */
  lemma MergeStreakOrder(p: Player, s: ScoreSubmission, now: Time)
    ensures Merge(p, s, now).currentStreak <= Merge(p, s, now).maxStreak <==> s.currentStreak <= Max(p.maxStreak, s.maxStreak)
    ensures s.currentStreak <= s.maxStreak ==> Merge(p, s, now).currentStreak <= Merge(p, s, now).maxStreak
  {
  }

  /** The merge trusts the body: a streak above every best streak breaks the order. */
  lemma MergeCanBreakStreakOrder()
    ensures var p := Player(0, "a", None, None, 0, 0, 0, 0, 0, [], 0, 0, 0);
            var q := Merge(p, ScoreSubmission(0, 0, 0, 5, 3, None), 1);
            q.currentStreak > q.maxStreak
  {
  }

  /** Saving the same cumulative body twice counts its games and wins twice. */
  lemma ResavingCountsTwice(p: Player, s: ScoreSubmission, t1: Time, t2: Time)
    ensures Merge(Merge(p, s, t1), s, t2).totalGames == p.totalGames + 2 * s.totalGames
    ensures Merge(Merge(p, s, t1), s, t2).totalWins == p.totalWins + 2 * s.totalWins
    ensures Merge(Merge(p, s, t1), s, t2).gameHistory == p.gameHistory + SubmittedHistory(s) + SubmittedHistory(s)
  {
  }

  /** The `GameSession` document stored beside each save. */
  datatype GameSession = GameSession(
    playerId: Id, sessionId: string, score: int, totalGames: int, totalWins: int,
    currentStreak: int, maxStreak: int, gameHistory: seq<GameRecord>, endedAt: Time)

  /** No session middleware is installed, so `req.sessionID` is always absent. */
  const AnonymousSession: string := "anonymous"

  function SessionOf(id: Id, s: ScoreSubmission, now: Time): GameSession
  {
    GameSession(id, AnonymousSession, s.score, s.totalGames, s.totalWins, s.currentStreak,
                s.maxStreak, SubmittedHistory(s), now)
  }

  // ---------------------------------------------------------------- login decision

  datatype LoginVerdict = PasswordRequired | BadCredentials | Accept(rename: Option<string>)

  /**
   * `/api/auth/login` once the account is found. An account with a password needs a
   * password that verifies and is never renamed; an account without one is let in and
   * renamed only to a different, non-empty name.
   */
  function JudgeLogin(p: Player, playerName: Option<string>, password: Option<string>): (r: LoginVerdict)
    ensures p.passwordHash.Some? ==>
      (r.Accept? <==> password.Some? && password.value != "" && Crypto.Verify(password.value, p.passwordHash.value))
    ensures p.passwordHash.Some? ==> (r == PasswordRequired <==> password.None? || password.value == "")
    ensures p.passwordHash.None? ==> r.Accept?
    ensures r.Accept? && r.rename.Some? ==>
      p.passwordHash.None? && playerName == r.rename && r.rename.value != "" && r.rename.value != p.playerName
    ensures p.passwordHash.None? && playerName.Some? && playerName.value != "" && playerName.value != p.playerName ==>
      r == Accept(playerName)
  {
    if p.passwordHash.Some? then
      if password.None? || password.value == "" then PasswordRequired
      else if !Crypto.Verify(password.value, p.passwordHash.value) then BadCredentials
      else Accept(None)
    else if playerName.Some? && playerName.value != "" && p.playerName != playerName.value then
      Accept(playerName)
    else Accept(None)
  }

  function LoginStatus(v: LoginVerdict): int
  {
    match v
    case PasswordRequired => BadRequest
    case BadCredentials => Unauthorized
    case Accept(_) => Success
  }

  /** The player a successful login answers with: renamed when the verdict says so. */
  function AfterLogin(p: Player, v: LoginVerdict, now: Time): Player
  {
    if v.Accept? && v.rename.Some? then p.(playerName := v.rename.value, updatedAt := now) else p
  }

  /** A signed token (its claim) and the player it was issued for. */
  datatype Grant = Grant(token: Claim, player: Player)

  // ---------------------------------------------------------------- the collection

  /** Ids are unique, and so are the emails that are set (a unique sparse index). */
  ghost predicate UniqueKeys(players: seq<Player>)
  {
    && (forall i, j :: 0 <= i < j < |players| ==> players[i].id != players[j].id)
    && (forall i, j :: 0 <= i < j < |players| && players[i].email.Some? ==> players[i].email != players[j].email)
  }

  class Store {
    var players: seq<Player>
    var sessions: seq<GameSession>

    ghost predicate Valid()
      reads this
    {
      UniqueKeys(players)
    }

    constructor ()
      ensures players == [] && sessions == [] && Valid()
    {
      players, sessions := [], [];
    }

    /**
     * `POST /api/auth/login`, after express-validator: `inputValid` says whether the
     * body passed validation. Not found is 404; a wrong or missing password leaves the
     * store as it was; a password-less account may be renamed.
     */
    method Login(email: string, playerName: Option<string>, password: Option<string>, inputValid: bool, now: Time)
      returns (reply: Reply<Grant>)
      modifies this`players
      ensures !inputValid ==> reply == Fail(BadRequest) && players == old(players)
      ensures inputValid && FindByEmail(old(players), email).None? ==>
        reply == Fail(NotFound) && players == old(players)
      ensures inputValid && FindByEmail(old(players), email).Some? ==>
        var i := FindByEmail(old(players), email).value;
        var v := JudgeLogin(old(players)[i], playerName, password);
        var q := AfterLogin(old(players)[i], v, now);
        && (v.Accept? ==> reply == Ok(Grant(ClaimFor(q), q)) && players == old(players)[i := q])
        && (!v.Accept? ==> reply == Fail(LoginStatus(v)) && players == old(players))
      ensures old(Valid()) ==> Valid()
    {
      if !inputValid {
        return Fail(BadRequest);
      }
      var found := FindByEmail(players, email);
      if found.None? {
        return Fail(NotFound);
      }
      var i := found.value;
      var player := players[i];
      var verdict := JudgeLogin(player, playerName, password);
      if !verdict.Accept? {
        return Fail(LoginStatus(verdict));
      }
      if verdict.rename.Some? {
        player := player.(playerName := verdict.rename.value);
        player := player.(updatedAt := now);
        players := players[i := player];
      }
      reply := Ok(Grant(ClaimFor(player), player));
    }

    /**
     * `POST /api/auth/signup`, after validation. An email whose account has a password is
     * a 409; a password-less account with that email is upgraded in place (counters kept);
     * otherwise one new document with zero counters is added. `newId` is the fresh `_id`
     * the database assigns.
     */
    method Signup(email: string, playerName: string, password: string, inputValid: bool, newId: Id, now: Time)
      returns (reply: Reply<Grant>)
      requires forall i :: 0 <= i < |players| ==> players[i].id != newId
      modifies this`players
      ensures !inputValid ==> reply == Fail(BadRequest) && players == old(players)
      ensures inputValid && FindByEmail(old(players), email).Some? ==>
        var i := FindByEmail(old(players), email).value;
        var p := old(players)[i];
        var q := p.(playerName := playerName, passwordHash := Some(Crypto.Hash(password)), updatedAt := now);
        && (p.passwordHash.Some? ==> reply == Fail(Conflict) && players == old(players))
        && (p.passwordHash.None? ==> reply == Ok(Grant(ClaimFor(q), q)) && players == old(players)[i := q])
      ensures inputValid && FindByEmail(old(players), email).None? ==>
        var q := NewPlayer(newId, email, playerName, Crypto.Hash(password), now);
        reply == Ok(Grant(ClaimFor(q), q)) && players == old(players) + [q]
      ensures old(Valid()) ==> Valid()
    {
      if !inputValid {
        return Fail(BadRequest);
      }
      var existing := FindByEmail(players, email);
      if existing.Some? && players[existing.value].passwordHash.Some? {
        return Fail(Conflict);
      }
      var hash := Crypto.Hash(password);
      var player;
      if existing.Some? {
        var i := existing.value;
        player := players[i];
        player := player.(playerName := playerName);
        player := player.(passwordHash := Some(hash));
        player := player.(updatedAt := now);
        players := players[i := player];
      } else {
        player := NewPlayer(newId, email, playerName, hash, now);
        players := players + [player];
      }
      reply := Ok(Grant(ClaimFor(player), player));
    }

    /**
     * `POST /api/scores`: the token gate (401), validation (400), player resolution (401
     * with nothing changed), then the merge of the resolved document and one new session.
     */
    method SaveScore(header: Option<string>, valid: map<string, Claim>, inputValid: bool, s: ScoreSubmission, now: Time)
      returns (reply: Reply<Id>)
      modifies this
      ensures Authenticate(header, valid).Fail? ==>
        reply == Fail(Unauthorized) && players == old(players) && sessions == old(sessions)
      ensures Authenticate(header, valid).Ok? && !inputValid ==>
        reply == Fail(BadRequest) && players == old(players) && sessions == old(sessions)
      ensures Authenticate(header, valid).Ok? && inputValid ==>
        var r := ResolvePlayer(old(players), Authenticate(header, valid).value);
        && (r.None? ==> reply == Fail(Unauthorized) && players == old(players) && sessions == old(sessions))
        && (r.Some? ==>
              var q := Merge(old(players)[r.value], s, now);
              && reply == Ok(q.id)
              && players == old(players)[r.value := q]
              && sessions == old(sessions) + [SessionOf(q.id, s, now)])
      ensures old(Valid()) ==> Valid()
    {
      var auth := Authenticate(header, valid);
      if auth.Fail? {
        return Fail(Unauthorized);
      }
      if !inputValid {
        return Fail(BadRequest);
      }
      var found := ResolvePlayer(players, auth.value);
      if found.None? {
        return Fail(Unauthorized);
      }
      var i := found.value;
      var player := players[i];
      player := player.(totalGames := player.totalGames + s.totalGames);
      player := player.(totalWins := player.totalWins + s.totalWins);
      player := player.(currentStreak := s.currentStreak);
      player := player.(maxStreak := Max(player.maxStreak, s.maxStreak));
      player := player.(bestScore := Max(player.bestScore, s.score));
      player := player.(gameHistory := player.gameHistory + SubmittedHistory(s));
      player := player.(lastPlayed := now);
      player := player.(updatedAt := now);
      players := players[i := player];
      sessions := sessions + [SessionOf(player.id, s, now)];
      reply := Ok(player.id);
    }
  }

  // ---------------------------------------------------------------- read routes

  /** `parseInt(req.query.limit) || 10`: `parsed` is None when parsing gives NaN. */
  function LeaderboardLimit(parsed: Option<int>): (n: int)
    ensures n != 0
    ensures parsed.None? ==> n == 10
    ensures parsed.Some? && parsed.value != 0 ==> n == parsed.value
  {
    if parsed.None? || parsed.value == 0 then 10 else parsed.value
  }

  /** `req.query.sortBy || 'bestScore'`. */
  function SortField(sortBy: Option<string>): (f: string)
    ensures f != ""
    ensures sortBy.Some? && sortBy.value != "" ==> f == sortBy.value
  {
    if sortBy.None? || sortBy.value == "" then "bestScore" else sortBy.value
  }

  function Abs(n: int): nat
  {
    if n < 0 then -n else n
  }

  /** A leaderboard row: the selected fields plus the derived win rate. */
  datatype Entry = Entry(
    id: Id, playerName: string, bestScore: int, totalWins: int, totalGames: int,
    currentStreak: int, maxStreak: int, lastPlayed: Time, winRate: int)

  function EntryOf(p: Player): Entry
  {
    Entry(p.id, p.playerName, p.bestScore, p.totalWins, p.totalGames, p.currentStreak,
          p.maxStreak, p.lastPlayed, WinRate(p.totalWins, p.totalGames))
  }

  /** The entry of every document, in storage order. */
  function Entries(players: seq<Player>): (t: seq<Entry>)
    ensures |t| == |players|
    ensures forall i :: 0 <= i < |t| ==> t[i] == EntryOf(players[i])
  {
    seq(|players|, i requires 0 <= i < |players| => EntryOf(players[i]))
  }

  /**
   * The key Mongo sorts on. The numeric fields sort by value; a name that is no field of
   * the schema is missing from every document, so all documents tie.
   */
  function FieldKey(field: string, e: Entry): Option<int>
  {
    if field == "bestScore" then Some(e.bestScore)
    else if field == "totalWins" then Some(e.totalWins)
    else if field == "totalGames" then Some(e.totalGames)
    else if field == "currentStreak" then Some(e.currentStreak)
    else if field == "maxStreak" then Some(e.maxStreak)
    else None
  }

  /** The sort key of the leaderboard query. */
  function SortKey(sortBy: Option<string>): Entry -> Option<int>
  {
    (e: Entry) => FieldKey(SortField(sortBy), e)
  }

  /**
   * `GET /api/leaderboard`: |limit| entries (or all of them; Mongo reads a negative limit
   * as its absolute value), each a document's with its win rate and none returned more
   * often than the collection holds it, in non-increasing order of the sort field, and no
   * document left out ranks above an entry returned.
   */
  function Leaderboard(players: seq<Player>, parsedLimit: Option<int>, sortBy: Option<string>): (r: seq<Entry>)
    ensures |r| == Min(Abs(LeaderboardLimit(parsedLimit)), |players|)
    ensures forall k, l :: 0 <= k < l < |r| ==> RankLe(FieldKey(SortField(sortBy), r[l]), FieldKey(SortField(sortBy), r[k]))
    ensures multiset(r) <= multiset(Entries(players))
    ensures forall y, k :: y in multiset(Entries(players)) - multiset(r) && 0 <= k < |r| ==>
      RankLe(FieldKey(SortField(sortBy), y), FieldKey(SortField(sortBy), r[k]))
    ensures forall k :: 0 <= k < |r| ==> exists i :: 0 <= i < |players| && r[k] == EntryOf(players[i])
    ensures forall k :: 0 <= k < |r| ==> r[k].winRate == WinRate(r[k].totalWins, r[k].totalGames)
    ensures sortBy.None? ==> forall k, l :: 0 <= k < l < |r| ==> r[l].bestScore <= r[k].bestScore
  {
    LeaderboardRanks(players, Abs(LeaderboardLimit(parsedLimit)), sortBy);
    TopN(Entries(players), Abs(LeaderboardLimit(parsedLimit)), SortKey(sortBy))
  }

  /** What ranking the entries by the sort key gives, stated on the entries' own fields. */
  lemma LeaderboardRanks(players: seq<Player>, n: nat, sortBy: Option<string>)
    ensures var r := TopN(Entries(players), n, SortKey(sortBy));
      && (forall k, l :: 0 <= k < l < |r| ==> RankLe(FieldKey(SortField(sortBy), r[l]), FieldKey(SortField(sortBy), r[k])))
      && (forall y, k :: y in multiset(Entries(players)) - multiset(r) && 0 <= k < |r| ==>
            RankLe(FieldKey(SortField(sortBy), y), FieldKey(SortField(sortBy), r[k])))
      && (forall k :: 0 <= k < |r| ==> exists i :: 0 <= i < |players| && r[k] == EntryOf(players[i]))
      && (forall k :: 0 <= k < |r| ==> r[k].winRate == WinRate(r[k].totalWins, r[k].totalGames))
      && (sortBy.None? ==> forall k, l :: 0 <= k < l < |r| ==> r[l].bestScore <= r[k].bestScore)
  {
    var table := Entries(players);
    var key := SortKey(sortBy);
    var f := SortField(sortBy);
    var top := TopN(table, n, key);
    forall k, l | 0 <= k < l < |top|
      ensures RankLe(FieldKey(f, top[l]), FieldKey(f, top[k]))
    {
      assert RankLe(key(top[l]), key(top[k]));
    }
    forall y, k | y in multiset(table) - multiset(top) && 0 <= k < |top|
      ensures RankLe(FieldKey(f, y), FieldKey(f, top[k]))
    {
      assert RankLe(key(y), key(top[k]));
    }
    forall k | 0 <= k < |top|
      ensures exists i :: 0 <= i < |players| && top[k] == EntryOf(players[i])
    {
      TopNRowIsTableRow(table, n, key, k);
      var i :| 0 <= i < |table| && table[i] == top[k];
    }
    RankedByBestScore(top, sortBy);
  }

  /** Ranked on the default sort field, the best scores themselves do not increase. */
  lemma RankedByBestScore(xs: seq<Entry>, sortBy: Option<string>)
    requires SortedDesc(xs, SortKey(sortBy))
    ensures sortBy.None? ==> forall k, l :: 0 <= k < l < |xs| ==> xs[l].bestScore <= xs[k].bestScore
  {
    if sortBy.None? {
      forall k, l | 0 <= k < l < |xs|
        ensures xs[l].bestScore <= xs[k].bestScore
      {
        assert RankLe(SortKey(sortBy)(xs[l]), SortKey(sortBy)(xs[k]));
      }
    }
  }

  /**
   * On a non-empty collection and any numeric sort field, the first entry ranks at or
   * above every document.
   */
  lemma LeaderboardLeadsWithBest(players: seq<Player>, parsedLimit: Option<int>, sortBy: Option<string>)
    requires players != []
    ensures |Leaderboard(players, parsedLimit, sortBy)| >= 1
    ensures forall i :: 0 <= i < |players| ==>
      RankLe(FieldKey(SortField(sortBy), EntryOf(players[i])), FieldKey(SortField(sortBy), Leaderboard(players, parsedLimit, sortBy)[0]))
  {
    var r := Leaderboard(players, parsedLimit, sortBy);
    var table := Entries(players);
    var f := SortField(sortBy);
    forall i | 0 <= i < |players|
      ensures RankLe(FieldKey(f, EntryOf(players[i])), FieldKey(f, r[0]))
    {
      var y := table[i];
      assert y in multiset(table);
      if y in multiset(r) {
        var j :| 0 <= j < |r| && r[j] == y;
        if j > 0 {
          assert RankLe(FieldKey(f, r[j]), FieldKey(f, r[0]));
        }
      } else {
        assert y in multiset(table) - multiset(r);
      }
    }
  }

  /** A player route's answer: the whole document plus its win rate. */
  datatype PlayerStats = PlayerStats(player: Player, winRate: int)

  function StatsOf(p: Player): PlayerStats
  {
    PlayerStats(p, WinRate(p.totalWins, p.totalGames))
  }

  /** `GET /api/player/:id`. */
  function PlayerById(players: seq<Player>, id: Id): (r: Reply<PlayerStats>)
    ensures r.Fail? <==> forall i :: 0 <= i < |players| ==> players[i].id != id
    ensures r.Fail? ==> r.status == NotFound
    ensures r.Ok? ==> r.value.player in players && r.value.player.id == id
    ensures r.Ok? ==> r.value.winRate == WinRate(r.value.player.totalWins, r.value.player.totalGames)
  {
    match FindById(players, id)
    case None => Fail(NotFound)
    case Some(i) => Ok(StatsOf(players[i]))
  }

  /** `GET /api/player/name/:name`: the first document with exactly that name. */
  function PlayerByName(players: seq<Player>, name: string): (r: Reply<PlayerStats>)
    ensures r.Fail? <==> forall i :: 0 <= i < |players| ==> players[i].playerName != name
    ensures r.Fail? ==> r.status == NotFound
    ensures r.Ok? ==> r.value.player in players && r.value.player.playerName == name
    ensures r.Ok? ==> r.value.winRate == WinRate(r.value.player.totalWins, r.value.player.totalGames)
  {
    match FirstMatch(players, (p: Player) => p.playerName == name)
    case None => Fail(NotFound)
    case Some(i) => Ok(StatsOf(players[i]))
  }
}
