/**
 * The PHP backend's read-only scripts: `leaderboard.php`, `stats.php` and `player.php`,
 * as functions of the `players` table and the query string.
 */
module PhpQueries {
  import opened Wrappers
  import opened Rules
  import opened PhpValues
  import opened PhpConfig
  import opened PhpApi
  import opened Tables
  import Text

  // ---------------------------------------------------------------- leaderboard.php

  const DefaultLimit := 10

  /** `isset($_GET['limit']) ? max(1, (int)$_GET['limit']) : 10`. */
  function LeaderboardLimit(query: map<Key, Value>): (n: nat)
    ensures n >= 1
    ensures !Isset(query, "limit") ==> n == DefaultLimit
    ensures Isset(query, "limit") && IntCast(query[StrKey("limit")]) >= 1 ==> n == IntCast(query[StrKey("limit")])
    ensures Isset(query, "limit") && IntCast(query[StrKey("limit")]) < 1 ==> n == 1
  {
    if !Isset(query, "limit") then DefaultLimit
    else
      var asked := IntCast(query[StrKey("limit")]);
      if asked >= 1 then asked else 1
  }

  /** `?limit=25` asks for 25 rows. */
  lemma LimitFromDigits()
    ensures LeaderboardLimit(map[StrKey("limit") := Str("25")]) == 25
  {
    assert AllDigits("25");
    assert DigitsValue("25") == 25 by {
      assert "25"[..1] == "2";
      assert "2"[..0] == "";
    }
  }

  /** `?limit=abc` casts to 0 and asks for one row. */
  lemma LimitFromWord()
    ensures LeaderboardLimit(map[StrKey("limit") := Str("abc")]) == 1
  {
    assert "abc"[0] !in Text.PhpNumericBlanks && !IsDigit("abc"[0]);
    assert Text.DropLeading(Text.PhpNumericBlanks, "abc") == "abc";
    assert DigitRun("abc") == [];
    assert StringToInt("abc") == 0;
  }

  /** `?limit=-3` casts to -3 and asks for one row. */
  lemma LimitFromNegative()
    ensures LeaderboardLimit(map[StrKey("limit") := Str("-3")]) == 1
  {
    assert "-3"[0] !in Text.PhpNumericBlanks && !IsDigit("-3"[0]);
    assert Text.DropLeading(Text.PhpNumericBlanks, "-3") == "-3";
    assert "-3"[1..] == "3";
    DigitRunOfDigits("3");
    assert DigitsValue("3") == 3 by {
      assert "3"[..0] == "";
    }
    assert StringToInt("-3") == -3;
  }

  /** The four columns the leaderboard selects. */
  datatype LeaderboardRow = LeaderboardRow(
    playerName: string, bestScore: Option<int>, totalWins: Option<int>, totalGames: Option<int>)

  function LeaderboardColumns(p: PlayerRow): LeaderboardRow
  {
    LeaderboardRow(p.playerName, p.bestScore, p.totalWins, p.totalGames)
  }

  /** The selected columns of every row, in storage order. */
  function LeaderboardTable(players: seq<PlayerRow>): (t: seq<LeaderboardRow>)
    ensures |t| == |players|
    ensures forall k :: 0 <= k < |t| ==> t[k] == LeaderboardColumns(players[k])
  {
    seq(|players|, k requires 0 <= k < |players| => LeaderboardColumns(players[k]))
  }

  function RowBestScore(row: LeaderboardRow): Option<int>
  {
    row.bestScore
  }

  /**
   * `SELECT player_name, best_score, total_wins, total_games FROM players ORDER BY
   * best_score DESC LIMIT ?`: `limit` rows (or every row), each the projection of a
   * player and none returned more often than the table holds it, in non-increasing best
   * score, and no row left out ranks above a row returned.
   */
  function Leaderboard(players: seq<PlayerRow>, query: map<Key, Value>): (r: seq<LeaderboardRow>)
    ensures |r| == Min(LeaderboardLimit(query), |players|)
    ensures forall i, j :: 0 <= i < j < |r| ==> RankLe(r[j].bestScore, r[i].bestScore)
    ensures multiset(r) <= multiset(LeaderboardTable(players))
    ensures forall y, i :: y in multiset(LeaderboardTable(players)) - multiset(r) && 0 <= i < |r| ==>
      RankLe(y.bestScore, r[i].bestScore)
    ensures forall i :: 0 <= i < |r| ==> exists k :: 0 <= k < |players| && r[i] == LeaderboardColumns(players[k])
  {
    LeaderboardRanks(players, LeaderboardLimit(query));
    TopN(LeaderboardTable(players), LeaderboardLimit(query), RowBestScore)
  }

  /** What ranking the projected table by best score gives, stated on the rows' own column. */
  lemma LeaderboardRanks(players: seq<PlayerRow>, n: nat)
    ensures var r := TopN(LeaderboardTable(players), n, RowBestScore);
      && (forall i, j :: 0 <= i < j < |r| ==> RankLe(r[j].bestScore, r[i].bestScore))
      && (forall y, i :: y in multiset(LeaderboardTable(players)) - multiset(r) && 0 <= i < |r| ==>
            RankLe(y.bestScore, r[i].bestScore))
      && (forall i :: 0 <= i < |r| ==> exists k :: 0 <= k < |players| && r[i] == LeaderboardColumns(players[k]))
  {
    var table := LeaderboardTable(players);
    var top := TopN(table, n, RowBestScore);
    forall i, j | 0 <= i < j < |top|
      ensures RankLe(top[j].bestScore, top[i].bestScore)
    {
      assert RankLe(RowBestScore(top[j]), RowBestScore(top[i]));
    }
    forall y, i | y in multiset(table) - multiset(top) && 0 <= i < |top|
      ensures RankLe(y.bestScore, top[i].bestScore)
    {
      assert RankLe(RowBestScore(y), RowBestScore(top[i]));
    }
    forall i | 0 <= i < |top|
      ensures exists k :: 0 <= k < |players| && top[i] == LeaderboardColumns(players[k])
    {
      TopNRowIsTableRow(table, n, RowBestScore, i);
      var k :| 0 <= k < |table| && table[k] == top[i];
    }
  }

  /** On a non-empty table the first leaderboard row has a best score at least every player's. */
  lemma LeaderboardLeadsWithBest(players: seq<PlayerRow>, query: map<Key, Value>)
    requires players != []
    ensures |Leaderboard(players, query)| >= 1
    ensures forall k :: 0 <= k < |players| ==> RankLe(players[k].bestScore, Leaderboard(players, query)[0].bestScore)
  {
    var r := Leaderboard(players, query);
    var table := LeaderboardTable(players);
    forall k | 0 <= k < |players|
      ensures RankLe(players[k].bestScore, r[0].bestScore)
    {
      var y := table[k];
      assert y in multiset(table);
      if y in multiset(r) {
        var j :| 0 <= j < |r| && r[j] == y;
        if j > 0 {
          assert RankLe(r[j].bestScore, r[0].bestScore);
        }
      } else {
        assert y in multiset(table) - multiset(r);
      }
    }
  }

  // ---------------------------------------------------------------- stats.php

  datatype TopPlayer = TopPlayer(playerName: string, bestScore: Option<int>)

  datatype RecentPlayer = RecentPlayer(playerName: string, lastPlayed: Option<Time>)

  datatype StatsReport = StatsReport(
    totalPlayers: int, totalGames: int, totalWins: int,
    topPlayer: Option<TopPlayer>, recentPlayers: seq<RecentPlayer>)

  function GamesColumn(players: seq<PlayerRow>): seq<Option<int>>
  {
    seq(|players|, i requires 0 <= i < |players| => players[i].totalGames)
  }

  function WinsColumn(players: seq<PlayerRow>): seq<Option<int>>
  {
    seq(|players|, i requires 0 <= i < |players| => players[i].totalWins)
  }

  function LastPlayedOfRecent(p: RecentPlayer): Option<int>
  {
    if p.lastPlayed.Some? then Some(p.lastPlayed.value as int) else None
  }

  const RecentCount := 5

  /** `SELECT player_name, best_score ... ORDER BY best_score DESC LIMIT 1`, then `fetch()`. */
  function TopPlayerOf(players: seq<PlayerRow>): (t: Option<TopPlayer>)
    ensures t.None? <==> players == []
    ensures t.Some? ==>
      && (exists k :: 0 <= k < |players| && t.value == TopPlayer(players[k].playerName, players[k].bestScore))
      && (forall k :: 0 <= k < |players| ==> RankLe(players[k].bestScore, t.value.bestScore))
  {
    if players == [] then None
    else
      var best := TopN(players, 1, BestScoreOf);
      TopOneIsMaximal(players, BestScoreOf);
      Some(TopPlayer(best[0].playerName, best[0].bestScore))
  }

  function BestScoreOf(p: PlayerRow): Option<int>
  {
    p.bestScore
  }

  /** The two selected columns of every row, in storage order. */
  function RecentTable(players: seq<PlayerRow>): (t: seq<RecentPlayer>)
    ensures |t| == |players|
    ensures forall k :: 0 <= k < |t| ==> t[k] == RecentPlayer(players[k].playerName, players[k].lastPlayed)
  {
    seq(|players|, k requires 0 <= k < |players| => RecentPlayer(players[k].playerName, players[k].lastPlayed))
  }

  /**
   * `SELECT player_name, last_played ... ORDER BY last_played DESC LIMIT 5`: five rows (or
   * every row), most recent first, none returned more often than the table holds it, and
   * no row left out played more recently than a row returned.
   */
  function RecentPlayers(players: seq<PlayerRow>): (r: seq<RecentPlayer>)
    ensures |r| == Min(RecentCount, |players|)
    ensures forall i, j :: 0 <= i < j < |r| ==> RankLe(LastPlayedOfRecent(r[j]), LastPlayedOfRecent(r[i]))
    ensures multiset(r) <= multiset(RecentTable(players))
    ensures forall y, i :: y in multiset(RecentTable(players)) - multiset(r) && 0 <= i < |r| ==>
      RankLe(LastPlayedOfRecent(y), LastPlayedOfRecent(r[i]))
    ensures forall i :: 0 <= i < |r| ==>
      exists k :: 0 <= k < |players| && r[i] == RecentPlayer(players[k].playerName, players[k].lastPlayed)
  {
    var table := RecentTable(players);
    var recent := TopN(table, RecentCount, LastPlayedOfRecent);
    forall i | 0 <= i < |recent|
      ensures exists k :: 0 <= k < |players| && recent[i] == RecentPlayer(players[k].playerName, players[k].lastPlayed)
    {
      TopNRowIsTableRow(table, RecentCount, LastPlayedOfRecent, i);
      var k :| 0 <= k < |table| && table[k] == recent[i];
    }
    recent
  }

  /**
   * The five queries of `stats.php`: the row count, the two column sums (0 for an empty
   * table), the player with the highest best score (none for an empty table) and the
   * five most recently active players.
   */
  function Stats(players: seq<PlayerRow>): (r: StatsReport)
    ensures r.totalPlayers == |players|
    ensures r.totalGames == SumNonNull(GamesColumn(players))
    ensures r.totalWins == SumNonNull(WinsColumn(players))
    ensures players == [] ==> r.totalGames == 0 && r.totalWins == 0
    ensures r.topPlayer.None? <==> players == []
    ensures r.topPlayer.Some? ==>
      exists k :: 0 <= k < |players| && r.topPlayer.value == TopPlayer(players[k].playerName, players[k].bestScore)
    ensures r.topPlayer.Some? ==> forall k :: 0 <= k < |players| ==> RankLe(players[k].bestScore, r.topPlayer.value.bestScore)
    ensures |r.recentPlayers| == Min(RecentCount, |players|)
    ensures forall i, j :: 0 <= i < j < |r.recentPlayers| ==>
      RankLe(LastPlayedOfRecent(r.recentPlayers[j]), LastPlayedOfRecent(r.recentPlayers[i]))
    ensures multiset(r.recentPlayers) <= multiset(RecentTable(players))
    ensures forall y, i :: y in multiset(RecentTable(players)) - multiset(r.recentPlayers) && 0 <= i < |r.recentPlayers| ==>
      RankLe(LastPlayedOfRecent(y), LastPlayedOfRecent(r.recentPlayers[i]))
  {
    StatsReport(
      |players|, SumNonNull(GamesColumn(players)), SumNonNull(WinsColumn(players)),
      TopPlayerOf(players), RecentPlayers(players))
  }

  /**
   * A score save for a player in the table raises the sums of `total_games` and
   * `total_wins` by exactly the submitted amounts.
   */
  lemma SaveShiftsColumnSums(players: seq<PlayerRow>, i: nat, s: ScoreInput, now: Time)
    requires UniqueKeys(players) && i < |players|
    ensures var after := UpdatedWhere(players, players[i].id, (p: PlayerRow) => Aggregated(p, s, now));
      && SumNonNull(GamesColumn(after)) == SumNonNull(GamesColumn(players)) + s.totalGames
      && SumNonNull(WinsColumn(after)) == SumNonNull(WinsColumn(players)) + s.totalWins
  {
    var id := players[i].id;
    var after := UpdatedWhere(players, id, (p: PlayerRow) => Aggregated(p, s, now));
    var games, wins := GamesColumn(after), WinsColumn(after);
    forall k | 0 <= k < |players|
      ensures games[k] == if players[k].id == id then Some(Coalesce(players[k].totalGames) + s.totalGames) else players[k].totalGames
      ensures wins[k] == if players[k].id == id then Some(Coalesce(players[k].totalWins) + s.totalWins) else players[k].totalWins
    {
      assert games[k] == after[k].totalGames && wins[k] == after[k].totalWins;
    }
    OwnerCountOfKey(players, i);
    assert OwnerCount(players, id) == 1;
    ColumnShift(players, id, GamesColumn(players), games, s.totalGames);
    ColumnShift(players, id, WinsColumn(players), wins, s.totalWins);
  }

  /** The totals `stats.php` reports therefore move by the submitted amounts; the player count stays. */
  lemma SaveRaisesTotals(players: seq<PlayerRow>, i: nat, s: ScoreInput, now: Time)
    requires UniqueKeys(players) && i < |players|
    ensures var after := UpdatedWhere(players, players[i].id, (p: PlayerRow) => Aggregated(p, s, now));
      && Stats(after).totalGames == Stats(players).totalGames + s.totalGames
      && Stats(after).totalWins == Stats(players).totalWins + s.totalWins
      && Stats(after).totalPlayers == Stats(players).totalPlayers
  {
    SaveShiftsColumnSums(players, i, s, now);
  }

  /** How many rows hold `id`. */
  function OwnerCount(players: seq<PlayerRow>, id: int): nat
  {
    if players == [] then 0
    else (if players[0].id == id then 1 else 0) + OwnerCount(players[1..], id)
  }

  lemma {:induction false} OwnerCountAbsent(players: seq<PlayerRow>, id: int)
    requires forall k :: 0 <= k < |players| ==> players[k].id != id
    ensures OwnerCount(players, id) == 0
    decreases |players|
  {
    if players != [] {
      assert forall k :: 0 <= k < |players[1..]| ==> players[1..][k] == players[k + 1];
      OwnerCountAbsent(players[1..], id);
    }
  }

  /** With unique ids, the id of a row is held by exactly one row. */
  lemma {:induction false} OwnerCountOfKey(players: seq<PlayerRow>, i: nat)
    requires UniqueKeys(players) && i < |players|
    ensures OwnerCount(players, players[i].id) == 1
    decreases |players|
  {
    var tail := players[1..];
    assert forall k :: 0 <= k < |tail| ==> tail[k] == players[k + 1];
    if i == 0 {
      forall k | 0 <= k < |tail|
        ensures tail[k].id != players[0].id
      {
        assert players[0].id != players[k + 1].id;
      }
      OwnerCountAbsent(tail, players[0].id);
    } else {
      assert players[0].id != players[i].id;
      assert UniqueKeys(tail) by {
        forall a, b | 0 <= a < b < |tail|
          ensures tail[a].id != tail[b].id && tail[a].email != tail[b].email
        {
          assert tail[a] == players[a + 1] && tail[b] == players[b + 1];
        }
      }
      assert tail[i - 1] == players[i];
      OwnerCountOfKey(tail, i - 1);
    }
  }

  /**
   * A column whose value on each row holding `id` becomes `COALESCE(old, 0) + d` sums to
   * the old sum plus `d` once per such row.
   */
  lemma {:induction false} ColumnShift(players: seq<PlayerRow>, id: int, before: seq<Option<int>>, after: seq<Option<int>>, d: int)
    requires |before| == |players| && |after| == |players|
    requires forall k :: 0 <= k < |players| ==>
      after[k] == if players[k].id == id then Some(Coalesce(before[k]) + d) else before[k]
    ensures SumNonNull(after) == SumNonNull(before) + OwnerCount(players, id) * d
    decreases |players|
  {
    if players != [] {
      var n := OwnerCount(players[1..], id);
      ColumnShift(players[1..], id, before[1..], after[1..], d);
      if players[0].id == id {
        assert (1 + n) * d == d + n * d;
      }
    }
  }

  // ---------------------------------------------------------------- player.php

  /** What `player.php` looks the player up by. */
  datatype Lookup = ById(id: int) | ByName(name: string)

  /** `isset($_GET['name'])` holding an array, on which `trim` raises a TypeError. */
  predicate NameIsArray(query: map<Key, Value>)
  {
    Isset(query, "name") && StringOf(query[StrKey("name")]).None?
  }

  /**
   * The dispatch of `player.php`: the id is cast to an integer and the name trimmed (an
   * array name is a TypeError, 500); a usable (non-zero) id wins, then a truthy name;
   * neither is 400.
   */
  function ReadLookup(query: map<Key, Value>): (r: Reply<Lookup>)
    ensures r.Fail? ==> r.status in {BadRequest, ServerError}
    ensures r == Fail(ServerError) <==> NameIsArray(query)
    ensures Isset(query, "id") && IntCast(query[StrKey("id")]) != 0 && !NameIsArray(query) ==>
      r == Ok(ById(IntCast(query[StrKey("id")])))
    ensures r.Ok? && r.value.ById? ==>
      Isset(query, "id") && r.value.id == IntCast(query[StrKey("id")]) && r.value.id != 0
    ensures (&& (!Isset(query, "id") || IntCast(query[StrKey("id")]) == 0) && !NameIsArray(query)
             && Isset(query, "name") && Truthy(Text.PhpTrim(StringOf(query[StrKey("name")]).value))) ==>
      r == Ok(ByName(Text.PhpTrim(StringOf(query[StrKey("name")]).value)))
    ensures r.Ok? && r.value.ByName? ==>
      && (!Isset(query, "id") || IntCast(query[StrKey("id")]) == 0)
      && Isset(query, "name") && StringOf(query[StrKey("name")]).Some?
      && r.value.name == Text.PhpTrim(StringOf(query[StrKey("name")]).value)
      && Truthy(r.value.name)
    ensures r == Fail(BadRequest) <==>
      && !NameIsArray(query)
      && (!Isset(query, "id") || IntCast(query[StrKey("id")]) == 0)
      && (!Isset(query, "name") || !Truthy(Text.PhpTrim(StringOf(query[StrKey("name")]).value)))
  {
    var id := if Isset(query, "id") then IntCast(query[StrKey("id")]) else 0;
    if NameIsArray(query) then Fail(ServerError)
    else
      var name := if Isset(query, "name") then Text.PhpTrim(StringOf(query[StrKey("name")]).value) else "";
      if id == 0 && !Truthy(name) then Fail(BadRequest)
      else if id != 0 then Ok(ById(id))
      else Ok(ByName(name))
  }

  predicate Matches(p: PlayerRow, l: Lookup)
  {
    match l
    case ById(id) => p.id == id
    case ByName(name) => p.playerName == name
  }

  /**
   * `player.php`: the dispatch's errors, then the first row matching the id or the name
   * (404 when there is none), returned whole.
   */
  function PlayerLookup(players: seq<PlayerRow>, query: map<Key, Value>): (r: Reply<PlayerRow>)
    ensures ReadLookup(query).Fail? ==> r == Fail(ReadLookup(query).status)
    ensures ReadLookup(query).Ok? ==>
      && (r.Ok? || r == Fail(NotFound))
      && (r == Fail(NotFound) <==> forall k :: 0 <= k < |players| ==> !Matches(players[k], ReadLookup(query).value))
      && (r.Ok? ==> r.value in players && Matches(r.value, ReadLookup(query).value))
    ensures r.Fail? ==> r.status in {BadRequest, NotFound, ServerError}
  {
    match ReadLookup(query)
    case Fail(status) => Fail(status)
    case Ok(l) =>
      var found := FirstMatch(players, (p: PlayerRow) => Matches(p, l));
      if found.None? then Fail(NotFound) else Ok(players[found.value])
  }
}
