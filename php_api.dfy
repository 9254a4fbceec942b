/**
 * The PHP backend's writing scripts: `score.php` (aggregate UPDATE plus a session row),
 * `login.php` (credential check, optional rename, session) and `signup.php` (conflict
 * check, insert, session), over the `players` and `game_sessions` tables.
 */
module PhpApi {
  import opened Wrappers
  import opened Rules
  import opened PhpValues
  import opened PhpConfig
  import Text
  import Tables
  import Crypto

  /**
   * A `players` row. The counters and `last_played` are nullable columns: a row made by
   * `signup.php` leaves them NULL.
   */
  datatype PlayerRow = PlayerRow(
    id: int, email: string, playerName: string, passwordHash: Option<Crypto.Digest>,
    bestScore: Option<int>, totalWins: Option<int>, totalGames: Option<int>,
    currentStreak: Option<int>, maxStreak: Option<int>,
    lastPlayed: Option<Time>, createdAt: Time, updatedAt: Time)

  /** A `game_sessions` row; `history` is the value `json_encode` serialises. */
  datatype SessionRow = SessionRow(
    playerId: int, score: int, totalGames: int, totalWins: int,
    currentStreak: int, maxStreak: int, history: Value, endedAt: Time, createdAt: Time)

  /** What the login and signup replies echo as `player`. */
  datatype PlayerInfo = PlayerInfo(id: int, playerName: string, email: string)

  // ---------------------------------------------------------------- score.php

  /** The submitted values after the casts and defaults of `score.php`. */
  datatype ScoreInput = ScoreInput(
    score: int, totalGames: int, totalWins: int, currentStreak: int, maxStreak: int, history: Value)

  /** `isset($data[$f]) ? (int)$data[$f] : 0`. */
  function FieldInt(data: map<Key, Value>, f: string): (n: int)
    ensures !Isset(data, f) ==> n == 0
    ensures Isset(data, f) ==> n == IntCast(data[StrKey(f)])
  {
    if Isset(data, f) then IntCast(data[StrKey(f)]) else 0
  }

  /**
   * The coercions of `score.php`: each number is the `(int)` cast of its field when set
   * and 0 otherwise; an absent history is `[]`.
   */
  function ScoreInputOf(data: map<Key, Value>): (s: ScoreInput)
    ensures s.score == FieldInt(data, "score")
    ensures s.totalGames == FieldInt(data, "totalGames")
    ensures s.totalWins == FieldInt(data, "totalWins")
    ensures s.currentStreak == FieldInt(data, "currentStreak")
    ensures s.maxStreak == FieldInt(data, "maxStreak")
    ensures !Isset(data, "score") ==> s.score == 0
    ensures !Isset(data, "totalGames") ==> s.totalGames == 0
    ensures !Isset(data, "totalWins") ==> s.totalWins == 0
    ensures !Isset(data, "currentStreak") ==> s.currentStreak == 0
    ensures !Isset(data, "maxStreak") ==> s.maxStreak == 0
    ensures !Isset(data, "gameHistory") ==> s.history == Arr(map[])
    ensures Isset(data, "gameHistory") ==> s.history == data[StrKey("gameHistory")]
  {
    ScoreInput(
      FieldInt(data, "score"), FieldInt(data, "totalGames"), FieldInt(data, "totalWins"),
      FieldInt(data, "currentStreak"), FieldInt(data, "maxStreak"),
      if Isset(data, "gameHistory") then data[StrKey("gameHistory")] else Arr(map[]))
  }

  /** SQL `COALESCE(x, 0)`. */
  function Coalesce(x: Option<int>): int
  {
    if x.Some? then x.value else 0
  }

  /** The SET list of the aggregate UPDATE in `score.php`, applied to one row. */
  function Aggregated(row: PlayerRow, s: ScoreInput, now: Time): PlayerRow
  {
    row.(
      bestScore := Some(Tables.Max(Coalesce(row.bestScore), s.score)),
      totalWins := Some(Coalesce(row.totalWins) + s.totalWins),
      totalGames := Some(Coalesce(row.totalGames) + s.totalGames),
      currentStreak := Some(s.currentStreak),
      maxStreak := Some(Tables.Max(Coalesce(row.maxStreak), s.maxStreak)),
      lastPlayed := Some(now),
      updatedAt := now)
  }

  /**
   * The update adds the submitted totals to the old ones (NULL counting as 0), replaces
   * the streak, and never lowers the best score or the longest streak.
   */
  lemma AggregatedCounters(row: PlayerRow, s: ScoreInput, now: Time)
    ensures var q := Aggregated(row, s, now);
      && q.totalGames == Some(Coalesce(row.totalGames) + s.totalGames)
      && q.totalWins == Some(Coalesce(row.totalWins) + s.totalWins)
      && q.currentStreak == Some(s.currentStreak)
      && q.bestScore == Some(Tables.Max(Coalesce(row.bestScore), s.score))
      && q.maxStreak == Some(Tables.Max(Coalesce(row.maxStreak), s.maxStreak))
      && q.bestScore.value in {Coalesce(row.bestScore), s.score}
      && q.bestScore.value >= s.score && Tables.RankLe(row.bestScore, q.bestScore)
      && q.maxStreak.value in {Coalesce(row.maxStreak), s.maxStreak}
      && q.maxStreak.value >= s.maxStreak && Tables.RankLe(row.maxStreak, q.maxStreak)
      && q.id == row.id && q.email == row.email && q.playerName == row.playerName
      && q.passwordHash == row.passwordHash && q.lastPlayed == Some(now) && q.updatedAt == now
      && q.createdAt == row.createdAt
  {
  }

  /** A NULL counter and a 0 counter lead to the same updated row. */
  lemma NullCountsAsZero(row: PlayerRow, s: ScoreInput, now: Time)
    ensures Aggregated(row, s, now) ==
      Aggregated(row.(bestScore := Some(Coalesce(row.bestScore)),
                      totalWins := Some(Coalesce(row.totalWins)),
                      totalGames := Some(Coalesce(row.totalGames)),
                      maxStreak := Some(Coalesce(row.maxStreak))), s, now)
  {
  }

  /**
   * After the update the longest streak is at least the current one exactly when the
   * submitted `currentStreak` does not exceed the larger of the old and submitted
   * `maxStreak`; the script does not check this.
   */
  lemma AggregatedStreakOrder(row: PlayerRow, s: ScoreInput, now: Time)
    ensures var q := Aggregated(row, s, now);
      q.maxStreak.value >= q.currentStreak.value <==> s.currentStreak <= Tables.Max(Coalesce(row.maxStreak), s.maxStreak)
  {
  }

  /** The session row `score.php` inserts after the update. */
  function SessionRowOf(id: int, s: ScoreInput, now: Time): SessionRow
  {
    SessionRow(id, s.score, s.totalGames, s.totalWins, s.currentStreak, s.maxStreak, s.history, now, now)
  }

  /** `UPDATE players SET ... WHERE id = ?`: `f` is applied to every row with that id. */
  function UpdatedWhere(rows: seq<PlayerRow>, id: int, f: PlayerRow -> PlayerRow): (r: seq<PlayerRow>)
    ensures |r| == |rows|
    ensures forall k :: 0 <= k < |rows| ==> r[k] == if rows[k].id == id then f(rows[k]) else rows[k]
  {
    seq(|rows|, k requires 0 <= k < |rows| => if rows[k].id == id then f(rows[k]) else rows[k])
  }

  /** The `players.id` primary key and the unique `players.email` column. */
  ghost predicate UniqueKeys(rows: seq<PlayerRow>)
  {
    forall i, j :: 0 <= i < j < |rows| ==> rows[i].id != rows[j].id && rows[i].email != rows[j].email
  }

  /** With a unique id, an UPDATE by id changes exactly the one row holding it. */
  lemma UpdateByKeyIsOneRow(rows: seq<PlayerRow>, i: nat, f: PlayerRow -> PlayerRow)
    requires UniqueKeys(rows) && i < |rows|
    ensures UpdatedWhere(rows, rows[i].id, f) == rows[i := f(rows[i])]
  {
    var r := UpdatedWhere(rows, rows[i].id, f);
    forall k | 0 <= k < |rows|
      ensures r[k] == rows[i := f(rows[i])][k]
    {
      if k != i {
        assert rows[k].id != rows[i].id by {
          if k < i {
            assert rows[k].id != rows[i].id;
          } else {
            assert rows[i].id != rows[k].id;
          }
        }
      }
    }
  }

  /** An update that keeps ids and emails keeps them unique. */
  lemma UpdateKeepsKeys(rows: seq<PlayerRow>, id: int, f: PlayerRow -> PlayerRow)
    requires UniqueKeys(rows)
    requires forall k :: 0 <= k < |rows| ==> f(rows[k]).id == rows[k].id && f(rows[k]).email == rows[k].email
    ensures UniqueKeys(UpdatedWhere(rows, id, f))
  {
    var r := UpdatedWhere(rows, id, f);
    assert forall k :: 0 <= k < |rows| ==> r[k].id == rows[k].id && r[k].email == rows[k].email;
  }

  /** A row whose id and email are both new keeps the keys unique. */
  lemma AppendKeepsKeys(rows: seq<PlayerRow>, row: PlayerRow)
    requires UniqueKeys(rows)
    requires forall k :: 0 <= k < |rows| ==> rows[k].id != row.id && rows[k].email != row.email
    ensures UniqueKeys(rows + [row])
  {
  }

  // ---------------------------------------------------------------- login.php

  /** `SELECT ... FROM players WHERE email = ?` followed by `fetch()`. */
  function RowByEmail(rows: seq<PlayerRow>, email: string): (r: Option<nat>)
    ensures r.None? <==> forall k :: 0 <= k < |rows| ==> rows[k].email != email
    ensures r.Some? ==> r.value < |rows| && rows[r.value].email == email
  {
    Tables.FirstMatch(rows, (p: PlayerRow) => p.email == email)
  }

  /**
   * `password_verify($password, $row['password_hash'])`; a NULL hash is verified by no
   * password.
   */
  predicate PasswordMatches(password: string, hash: Option<Crypto.Digest>)
  {
    hash.Some? && Crypto.Verify(password, hash.value)
  }

  /** The optional rename of `login.php`: only a truthy trimmed name that differs. */
  function RenameTo(playerName: Option<string>, current: string): (r: Option<string>)
    ensures r.Some? <==> playerName.Some? && Truthy(playerName.value) && playerName.value != current
    ensures r.Some? ==> r == playerName
  {
    if playerName.Some? && Truthy(playerName.value) && playerName.value != current then playerName else None
  }

  /** The renaming UPDATE of `login.php`. */
  function Renamed(row: PlayerRow, name: string, now: Time): PlayerRow
  {
    row.(playerName := name, updatedAt := now)
  }

  /** `strtolower(trim($email))`. */
  function NormalEmail(email: string): string
  {
    Text.AsciiLower(Text.PhpTrim(email))
  }

  /** Normalising an already normal email changes nothing. */
  lemma NormalEmailIdempotent(email: string)
    ensures NormalEmail(NormalEmail(email)) == NormalEmail(email)
  {
    var t := Text.PhpTrim(email);
    var l := Text.AsciiLower(t);
    assert Text.PhpTrim(l) == l by {
      if l != [] {
        assert l[0] !in Text.PhpBlanks && l[|l| - 1] !in Text.PhpBlanks by {
          assert t[0] !in Text.PhpBlanks && t[|t| - 1] !in Text.PhpBlanks;
        }
        assert Text.DropLeading(Text.PhpBlanks, l) == l;
        assert Text.DropTrailing(Text.PhpBlanks, l) == l;
      }
    }
    Text.AsciiLowerIdempotent(t);
  }

  /** What `login.php` reads from the body before it queries the table. */
  datatype LoginRequest = LoginRequest(email: string, playerName: Option<string>, password: Value)

  /**
   * The steps of `login.php` before the query: `require_fields` (400), then
   * `strtolower(trim(...))` of the email and `trim` of an optional name, which fail with a
   * TypeError (500) on an array.
   */
  function ReadLogin(data: map<Key, Value>): (r: Reply<LoginRequest>)
    ensures r == Fail(BadRequest) <==> Missing(data, "email") || Missing(data, "password")
    ensures r.Ok? <==>
      && !Missing(data, "email") && !Missing(data, "password")
      && StringOf(data[StrKey("email")]).Some?
      && (!Isset(data, "playerName") || StringOf(data[StrKey("playerName")]).Some?)
    ensures r.Fail? ==> r.status in {BadRequest, ServerError}
    ensures r.Ok? ==>
      && StringOf(data[StrKey("email")]).Some?
      && r.value.email == NormalEmail(StringOf(data[StrKey("email")]).value)
      && r.value.password == data[StrKey("password")]
      && (r.value.playerName.None? <==> !Isset(data, "playerName"))
      && (r.value.playerName.Some? ==> StringOf(data[StrKey("playerName")]).Some? && r.value.playerName == Some(Text.PhpTrim(StringOf(data[StrKey("playerName")]).value)))
  {
    if Missing(data, "email") || Missing(data, "password") then Fail(BadRequest)
    else if StringOf(data[StrKey("email")]).None? then Fail(ServerError)
    else if Isset(data, "playerName") && StringOf(data[StrKey("playerName")]).None? then Fail(ServerError)
    else
      var name := if Isset(data, "playerName") then Some(Text.PhpTrim(StringOf(data[StrKey("playerName")]).value)) else None;
      Ok(LoginRequest(NormalEmail(StringOf(data[StrKey("email")]).value), name, data[StrKey("password")]))
  }

  /** What `signup.php` reads from the body. */
  datatype SignupRequest = SignupRequest(email: string, playerName: string, password: Value)

  /**
   * The steps of `signup.php` before the query: `require_fields` (400), then the trims,
   * which fail with a TypeError (500) on an array.
   */
  function ReadSignup(data: map<Key, Value>): (r: Reply<SignupRequest>)
    ensures r == Fail(BadRequest) <==> Missing(data, "email") || Missing(data, "playerName") || Missing(data, "password")
    ensures r.Ok? <==>
      && !Missing(data, "email") && !Missing(data, "playerName") && !Missing(data, "password")
      && StringOf(data[StrKey("email")]).Some? && StringOf(data[StrKey("playerName")]).Some?
    ensures r.Fail? ==> r.status in {BadRequest, ServerError}
    ensures r.Ok? ==>
      && StringOf(data[StrKey("email")]).Some? && StringOf(data[StrKey("playerName")]).Some?
      && r.value.email == NormalEmail(StringOf(data[StrKey("email")]).value)
      && r.value.playerName == Text.PhpTrim(StringOf(data[StrKey("playerName")]).value)
      && r.value.password == data[StrKey("password")]
  {
    if Missing(data, "email") || Missing(data, "playerName") || Missing(data, "password") then Fail(BadRequest)
    else if StringOf(data[StrKey("email")]).None? || StringOf(data[StrKey("playerName")]).None? then Fail(ServerError)
    else
      Ok(SignupRequest(
        NormalEmail(StringOf(data[StrKey("email")]).value),
        Text.PhpTrim(StringOf(data[StrKey("playerName")]).value),
        data[StrKey("password")]))
  }

  // ---------------------------------------------------------------- the database and the session

  class Server {
    var players: seq<PlayerRow>
    var gameSessions: seq<SessionRow>
    var session: Session

    ghost predicate Valid()
      reads this
    {
      UniqueKeys(players)
    }

    constructor ()
      ensures players == [] && gameSessions == [] && session == NoSession && Valid()
    {
      players, gameSessions, session := [], [], NoSession;
    }

    /** Runs one `UPDATE players SET ... WHERE id = ?` over the table. */
    method UpdateWhere(id: int, f: PlayerRow -> PlayerRow)
      modifies this`players
      ensures players == UpdatedWhere(old(players), id, f)
    {
      var k := 0;
      while k < |players|
        invariant 0 <= k <= |players| == |old(players)|
        invariant forall j :: 0 <= j < k ==> players[j] == if old(players)[j].id == id then f(old(players)[j]) else old(players)[j]
        invariant players[k..] == old(players)[k..]
      {
        if players[k].id == id {
          players := players[k := f(players[k])];
        }
        k := k + 1;
      }
    }

    /**
     * `score.php`: without a session player the reply is 401 and nothing changes;
     * otherwise the player's row is updated, one session row is appended, and the
     * reply is 200. A session id with no row still gets its session row.
     */
    method SaveScore(decoded: Value, now: Time) returns (status: int)
      modifies this`players, this`gameSessions
      ensures session.playerId.None? ==>
        status == Unauthorized && players == old(players) && gameSessions == old(gameSessions)
      ensures session.playerId.Some? ==>
        var id := session.playerId.value;
        var s := ScoreInputOf(ReadJson(decoded));
        && status == Success
        && players == UpdatedWhere(old(players), id, (p: PlayerRow) => Aggregated(p, s, now))
        && gameSessions == old(gameSessions) + [SessionRowOf(id, s, now)]
      ensures old(Valid()) ==> Valid()
    {
      var auth := RequireAuth(session);
      if auth.Fail? {
        return auth.status;
      }
      var id := auth.value;
      var data := ReadJson(decoded);
      var s := ScoreInputOf(data);
      ghost var before := players;
      var f := (p: PlayerRow) => Aggregated(p, s, now);
      UpdateWhere(id, f);
      if UniqueKeys(before) {
        UpdateKeepsKeys(before, id, f);
      }
      gameSessions := gameSessions + [SessionRowOf(id, s, now)];
      status := Success;
    }

    /**
     * `login.php`: the body's errors (400, or 500 for an array field) with nothing
     * changed, then the outcome `LoginOutcome` describes.
     */
    method Login(decoded: Value, now: Time) returns (reply: Reply<PlayerInfo>)
      modifies this`players, this`session
      ensures ReadLogin(ReadJson(decoded)).Fail? ==>
        reply == Fail(ReadLogin(ReadJson(decoded)).status) && players == old(players) && session == old(session)
      ensures ReadLogin(ReadJson(decoded)).Ok? ==>
        LoginOutcome(ReadLogin(ReadJson(decoded)).value, now, old(players), players, old(session), session, reply)
      ensures old(Valid()) ==> Valid()
    {
      var data := ReadJson(decoded);
      var fields := ["email", "password"];
      var missing := RequireFields(data, fields);
      if missing.Some? {
        ghost var i :| 0 <= i < |fields| && Missing(data, fields[i]);
        assert Missing(data, "email") || Missing(data, "password");
        return Fail(BadRequest);
      }
      assert !Missing(data, fields[0]) && !Missing(data, fields[1]);
      var request := ReadLogin(data);
      if request.Fail? {
        return Fail(request.status);
      }
      reply := CheckCredentials(request.value, now);
    }

    /** The query, the password check, the optional rename and the session of `login.php`. */
    method CheckCredentials(q: LoginRequest, now: Time) returns (reply: Reply<PlayerInfo>)
      modifies this`players, this`session
      ensures LoginOutcome(q, now, old(players), players, old(session), session, reply)
      ensures old(Valid()) ==> Valid()
    {
      var found := RowByEmail(players, q.email);
      if found.None? {
        return Fail(Unauthorized);
      }
      var row := players[found.value];
      var password := StringOf(q.password);
      if password.None? {
        return Fail(ServerError);
      }
      if !PasswordMatches(password.value, row.passwordHash) {
        return Fail(Unauthorized);
      }
      var name := row.playerName;
      var rename := RenameTo(q.playerName, row.playerName);
      if rename.Some? {
        name := rename.value;
        ghost var before := players;
        var f := (p: PlayerRow) => Renamed(p, name, now);
        UpdateWhere(row.id, f);
        if UniqueKeys(before) {
          UpdateKeepsKeys(before, row.id, f);
        }
      }
      session := Session(Some(row.id), Some(name), Some(q.email));
      reply := Ok(PlayerInfo(row.id, name, q.email));
    }

    /**
     * `signup.php`: the body's errors (400, or 500 for an array field) with nothing
     * changed, then the outcome `SignupOutcome` describes. `newId` is the AUTO_INCREMENT
     * id the database assigns.
     */
    method Signup(decoded: Value, newId: int, now: Time) returns (reply: Reply<PlayerInfo>)
      requires forall k :: 0 <= k < |players| ==> players[k].id != newId
      modifies this`players, this`session
      ensures ReadSignup(ReadJson(decoded)).Fail? ==>
        reply == Fail(ReadSignup(ReadJson(decoded)).status) && players == old(players) && session == old(session)
      ensures ReadSignup(ReadJson(decoded)).Ok? ==>
        SignupOutcome(ReadSignup(ReadJson(decoded)).value, newId, now, old(players), players, old(session), session, reply)
      ensures old(Valid()) ==> Valid()
    {
      var data := ReadJson(decoded);
      var fields := ["email", "playerName", "password"];
      var missing := RequireFields(data, fields);
      if missing.Some? {
        ghost var i :| 0 <= i < |fields| && Missing(data, fields[i]);
        assert Missing(data, "email") || Missing(data, "playerName") || Missing(data, "password");
        return Fail(BadRequest);
      }
      assert !Missing(data, fields[0]) && !Missing(data, fields[1]) && !Missing(data, fields[2]);
      var request := ReadSignup(data);
      if request.Fail? {
        return Fail(request.status);
      }
      reply := Register(request.value, newId, now);
    }

    /** The conflict check, the insert and the session of `signup.php`. */
    method Register(q: SignupRequest, newId: int, now: Time) returns (reply: Reply<PlayerInfo>)
      requires forall k :: 0 <= k < |players| ==> players[k].id != newId
      modifies this`players, this`session
      ensures SignupOutcome(q, newId, now, old(players), players, old(session), session, reply)
      ensures old(Valid()) ==> Valid()
    {
      var existing := RowByEmail(players, q.email);
      if existing.Some? {
        return Fail(Conflict);
      }
      var password := StringOf(q.password);
      if password.None? {
        return Fail(ServerError);
      }
      var row := NewRow(newId, q.email, q.playerName, password.value, now);
      if UniqueKeys(players) {
        AppendKeepsKeys(players, row);
      }
      players := players + [row];
      session := Session(Some(newId), Some(q.playerName), Some(q.email));
      reply := Ok(PlayerInfo(newId, q.playerName, q.email));
    }
  }

  /**
   * What `login.php` does once the body is read, from table `t0` and session `s0` to
   * `t1` and `s1`: an unknown email and a wrong password are the same 401, and a
   * password that is an array is a 500, all with nothing changed. On success the player
   * is renamed when a truthy trimmed name differs from the stored one, and the session
   * holds the player.
   */
  predicate LoginOutcome(q: LoginRequest, now: Time, t0: seq<PlayerRow>, t1: seq<PlayerRow>, s0: Session, s1: Session, reply: Reply<PlayerInfo>)
  {
    var found := RowByEmail(t0, q.email);
    && (found.None? ==> reply == Fail(Unauthorized) && t1 == t0 && s1 == s0)
    && (found.Some? && StringOf(q.password).None? ==> reply == Fail(ServerError) && t1 == t0 && s1 == s0)
    && (found.Some? && StringOf(q.password).Some? ==>
          var row := t0[found.value];
          var rename := RenameTo(q.playerName, row.playerName);
          var name := if rename.Some? then rename.value else row.playerName;
          && (!PasswordMatches(StringOf(q.password).value, row.passwordHash) ==>
                reply == Fail(Unauthorized) && t1 == t0 && s1 == s0)
          && (PasswordMatches(StringOf(q.password).value, row.passwordHash) ==>
                && reply == Ok(PlayerInfo(row.id, name, q.email))
                && s1 == Session(Some(row.id), Some(name), Some(q.email))
                && (rename.None? ==> t1 == t0)
                && (rename.Some? ==> t1 == UpdatedWhere(t0, row.id, (p: PlayerRow) => Renamed(p, name, now)))))
  }

  /**
   * What `signup.php` does once the body is read: any row with the email is 409, and a
   * password that is an array is a 500, both with nothing changed. Otherwise one row is
   * inserted with the password's hash and NULL counters, and the session holds the new
   * player.
   */
  predicate SignupOutcome(q: SignupRequest, newId: int, now: Time, t0: seq<PlayerRow>, t1: seq<PlayerRow>, s0: Session, s1: Session, reply: Reply<PlayerInfo>)
  {
    && (RowByEmail(t0, q.email).Some? ==> reply == Fail(Conflict) && t1 == t0 && s1 == s0)
    && (RowByEmail(t0, q.email).None? && StringOf(q.password).None? ==> reply == Fail(ServerError) && t1 == t0 && s1 == s0)
    && (RowByEmail(t0, q.email).None? && StringOf(q.password).Some? ==>
          && reply == Ok(PlayerInfo(newId, q.playerName, q.email))
          && t1 == t0 + [NewRow(newId, q.email, q.playerName, StringOf(q.password).value, now)]
          && s1 == Session(Some(newId), Some(q.playerName), Some(q.email)))
  }

  /**
   * The row `signup.php` inserts: the hash of the password, every counter and `last_played`
   * NULL, both timestamps the current time.
   */
  function NewRow(id: int, email: string, name: string, password: string, now: Time): (r: PlayerRow)
    ensures r.id == id && r.email == email && r.playerName == name
    ensures r.passwordHash == Some(Crypto.Hash(password))
    ensures r.bestScore.None? && r.totalGames.None? && r.totalWins.None?
    ensures r.currentStreak.None? && r.maxStreak.None? && r.lastPlayed.None?
    ensures r.createdAt == now && r.updatedAt == now
  {
    PlayerRow(id, email, name, Some(Crypto.Hash(password)), None, None, None, None, None, None, now, now)
  }

  /** The new row's password verifies, and no other password does. */
  lemma NewRowVerifiesItsPassword(id: int, email: string, name: string, password: string, attempt: string, now: Time)
    ensures PasswordMatches(attempt, NewRow(id, email, name, password, now).passwordHash) <==> attempt == password
  {
    Crypto.VerifyMatchesHash(password, attempt);
  }
}
