# Rock-Paper-Scissors: client engine, Node backend and PHP api

This project models the logic of a Rock-Paper-Scissors web game and proves properties of it.
It covers three parts, and each follows its own file:

- **The browser game engine** (`FRONTEND/sps.js`).
  - Module `ClientGame`, with the outcome table and win rate in `Rules`.
  - A `Game` class holds the scores, totals, streaks, history and login state.
  - The class methods `PlayGame`, `UpdateScores`, `AddToHistory`, `ResetGame`, `Login`, `Logout` and `SaveScore` change those fields in place.
  - Each method is proved against a function on a `Stats` value (`Scored`, `Played`, `Recorded`).
  - The invariant (wins ≤ games, score ≤ wins, streak ≤ best streak, history ≤ 50) is proved to hold across play.
- **The Node backend** (`BACKEND/server.js`, module `NodeServer`).
  - The bearer-token gate, and the player resolution of the save route.
  - The score merge, with the collection as a `Store` class.
  - The login and signup decisions.
  - The leaderboard limit, sort and win rate, and the player lookups.
- **The PHP api** (`api/*.php`).
  - Modules `PhpValues` (PHP values, `(int)` casts, string conversion), `PhpConfig` (`read_json`, `require_fields`, `require_auth`, the session) and `PhpApi`.
  - `PhpApi` holds the `score.php` aggregate UPDATE, `login.php` and `signup.php`, with the `players` and `game_sessions` tables and `$_SESSION` as fields of a `Server` class.
  - `PhpQueries` holds the read-only scripts `leaderboard.php`, `stats.php` and `player.php`.

Shared pieces:

- `Text` models JavaScript and PHP `trim` and PHP `strtolower`.
- `Tables` holds first-match lookup, a stable descending sort with NULL ranked lowest, top-N, and NULL-skipping sums.
- `Crypto` models bcrypt / `password_hash` as an ideal one-way function.
- `EndToEnd` connects the body the client sends to what each backend does with it. It also shows that a freshly signed-up account logs in with exactly its own password.

Tables are sequences of records in storage order. A lookup returns the first match, and the unique keys (`players.id`, the email) are class invariants that every method preserves.

The two backends disagree, and each is modelled as written:

- Node signup upgrades a password-less account, while PHP signup refuses any existing email.
- Node login answers an unknown email with 404, while PHP answers both an unknown email and a wrong password with 401.
- Neither backend caps the stored history. Repeated saves of the client's cumulative totals are counted again each time (`NodeServer.ResavingCountsTwice`).

## Model

| member | source | states |
|---|---|---|
| Rules.DetermineWinner | FRONTEND/sps.js:162-174 | a draw exactly when the moves are equal, a win exactly when the user's move beats the computer's (rock>scissors, paper>rock, scissors>paper), a loss exactly when the computer's beats the user's |
| Rules.SwappingMovesSwapsOutcome | FRONTEND/sps.js:162-174 | swapping the two moves turns a win into a loss and back, and keeps a draw |
| Rules.WinRate | FRONTEND/sps.js:223 | 0 without games; otherwise the round-half-up of 100·wins/games, stated as the bracketing inequality; between 0 and 100 whenever wins ≤ games |
| Rules.WinRateExamples | FRONTEND/sps.js:223 | 3 of 4 shows 75, 1 of 8 shows 13, 1 of 3 shows 33, no games shows 0 |
| ClientGame.ScoredKeepsBestStreak | FRONTEND/sps.js:176-185 | scoring an outcome never lowers the best streak and keeps the current streak within it |
| ClientGame.PlayedKeepsConsistent | FRONTEND/sps.js:102-133 | one game adds exactly 1 to the game count and keeps wins ≤ games, score ≤ wins, score + computer score ≤ games, streak ≤ best streak |
| ClientGame.PlayedAllCounts | FRONTEND/sps.js:102-133 | over any sequence of games the count grows by its length, wins and score by the number of wins, the computer score by the number of losses, and the invariant holds throughout |
| ClientGame.Recorded | FRONTEND/sps.js:227-239 | the new record is last; below 50 the rest is the old history, at 50 exactly the oldest entry is dropped and the rest keep their order; the length stays within 50 |
| ClientGame.RecordedAllKeepsMostRecent | FRONTEND/sps.js:227-239 | recording any number of games one by one keeps exactly the most recent 50 of the old history followed by the new records |
| ClientGame.Game.constructor | FRONTEND/sps.js:3-12 | all counters 0, empty history, name "Player", logged out |
| ClientGame.Game.UpdateScores | FRONTEND/sps.js:176-185 | the counters become `Scored` of the old ones: a win raises score, wins and streak and lifts the best streak, a loss raises the computer score and zeroes the streak, a draw changes nothing |
| ClientGame.Game.AddToHistory | FRONTEND/sps.js:227-239 | the history becomes `Recorded` of the old history and the new record |
| ClientGame.Game.PlayGame | FRONTEND/sps.js:102-133 | the result is the outcome table's, the counters become `Played` of the old ones (game counted first), the record is appended, name and login state are kept, and the invariant is preserved |
| ClientGame.Game.ShownWinRate | FRONTEND/sps.js:221-225 | 0 without games, and between 0 and 100 for a valid game |
| ClientGame.Game.ResetGame | FRONTEND/sps.js:241-264 | only the two scores are zeroed and the in-progress flag cleared; the invariant still holds |
| ClientGame.Game.Login | FRONTEND/sps.js:316-338 | accepted exactly when the trimmed input is non-empty; then the trimmed name is taken and the player is logged in, otherwise nothing changes |
| ClientGame.Game.Logout | FRONTEND/sps.js:340-353 | logged out with the name back to "Player" |
| ClientGame.Game.SaveScore | FRONTEND/sps.js:266-284 | no request exactly when logged out; otherwise the body carries the name, the current counters and the whole history |
| ClientGame.ValidGameSendsConsistentStreaks | FRONTEND/sps.js:275-284 | a valid game's body has streak ≤ best streak and score ≤ wins ≤ games |
| Text.TrimIsInnerPiece | api/login.php:7-9 | trimming keeps exactly the piece between a blank prefix and a blank suffix, and neither end of the result is blank |
| Text.TrimIdempotent | api/signup.php:7-8 | trimming twice is trimming once |
| Text.AsciiLower | api/login.php:7 | same length; each upper-case ASCII letter becomes its lower-case letter, so none is left; every other character kept |
| PhpValues.IntCast | api/score.php:8-13 | `(int)` keeps an integer, turns null into 0 and a string of digits into its decimal value |
| PhpValues.IntStringRoundTrip | api/player.php:4 | casting the decimal text of any integer gives the integer back |
| PhpValues.StringOf | api/login.php:7-9 | string conversion fails (TypeError) exactly on an array, and keeps a string |
| PhpConfig.ReadJson | api/config.php:37-41 | a decoded array is the data; anything else becomes the empty array |
| PhpConfig.RequireFields | api/config.php:50-56 | no stop exactly when every listed field is set and not ""; a stop names the first such field in list order |
| PhpConfig.RequireAuth | api/config.php:58-62 | 401 exactly when the session has no player id, otherwise that id |
| PhpApi.FieldInt | api/score.php:8-13 | an unset field is 0, a set one is its `(int)` cast |
| PhpApi.ScoreInputOf | api/score.php:8-14 | each of the five numbers is the `(int)` cast of its field when set and 0 when absent; an absent history is the empty array and a present one is kept as sent |
| PhpApi.AggregatedCounters | api/score.php:19 | totals become COALESCE(old,0) plus the submitted ones and the streak is replaced; best score and best streak become GREATEST(COALESCE(old,0), submitted), so one of the two and never lower; `last_played` and `updated_at` are the current time; identity, password and `created_at` are kept |
| PhpApi.NullCountsAsZero | api/score.php:19 | a NULL counter updates exactly as a 0 counter would |
| PhpApi.AggregatedStreakOrder | api/score.php:19 | the stored best streak covers the stored streak exactly when the submitted streak is within the larger of the old and submitted best streaks |
| PhpApi.UpdatedWhere | api/score.php:19-20 | the rows holding the id are rewritten, every other row is kept, and no row is added or removed |
| PhpApi.UpdateByKeyIsOneRow | api/score.php:19-20 | with unique ids the UPDATE by id changes exactly the one row holding it |
| PhpApi.UpdateKeepsKeys | api/login.php:22-23 | an update that keeps ids and emails keeps them unique |
| PhpApi.AppendKeepsKeys | api/signup.php:14-22 | inserting a row with a new id and a new email keeps both unique |
| PhpApi.RowByEmail | api/login.php:13-15 | no row exactly when no row has the email; otherwise a row with that email |
| PhpApi.RenameTo | api/login.php:21-25 | a rename exactly when a truthy trimmed name differs from the stored one, and it is that name |
| PhpApi.NormalEmailIdempotent | api/login.php:7 | normalising an already normalised email changes nothing |
| PhpApi.ReadLogin | api/login.php:4-9 | succeeds exactly when email and password are present and non-empty, the email is a string and any set name is a string; 400 exactly when email or password is missing or ""; 500 when the email or a given name is an array; otherwise the trimmed lower-cased email, the password as sent, and the trimmed name when one is set |
| PhpApi.ReadSignup | api/signup.php:4-9 | succeeds exactly when email, name and password are present and non-empty and email and name are strings; 400 exactly when one is missing or ""; 500 when the email or name is an array; otherwise the normalised email, the trimmed name and the password |
| PhpApi.Server.UpdateWhere | api/score.php:19-20 | the table becomes `UpdatedWhere` of the old one |
| PhpApi.Server.SaveScore | api/score.php:3-26 | 401 with nothing changed when no player is in the session; otherwise the aggregate UPDATE on that id, exactly one session row with the submitted values appended, 200, and unique keys kept |
| PhpApi.Server.Login | api/login.php:4-31 | body errors (400, or 500 for an array) change nothing; otherwise the outcome of `CheckCredentials` |
| PhpApi.Server.CheckCredentials | api/login.php:11-31 | unknown email and wrong or NULL hash give the same 401 with table and session unchanged; an array password with a row is 500; success renames only as `RenameTo` says, sets the session to the player's id, name and email, and echoes them |
| PhpApi.Server.Signup | api/signup.php:4-29 | body errors (400, or 500 for an array) change nothing; otherwise the outcome of `Register` |
| PhpApi.Server.Register | api/signup.php:11-29 | any existing row with the email is 409 and nothing changes; otherwise exactly one row is appended with the hash of the password, the session holds the new id, name and email, and the reply echoes them |
| PhpApi.NewRow | api/signup.php:20-22 | the inserted row stores the hash, never the password; every counter and `last_played` is NULL; `created_at` and `updated_at` are the current time |
| PhpApi.NewRowVerifiesItsPassword | api/signup.php:20-22 | the stored hash verifies exactly the signup password |
| PhpQueries.LeaderboardLimit | api/leaderboard.php:4 | at least 1; 10 when absent; the cast value when it is at least 1, else 1 |
| PhpQueries.LimitFromDigits | api/leaderboard.php:4 | `limit=25` gives 25 |
| PhpQueries.LimitFromWord | api/leaderboard.php:4 | `limit=abc` gives 1 |
| PhpQueries.LimitFromNegative | api/leaderboard.php:4 | `limit=-3` gives 1 |
| PhpQueries.Leaderboard | api/leaderboard.php:4-12 | as many rows as the limit allows, in non-increasing best score with NULL last, each the four-column projection of a player row, none more often than the table holds it, and no row left out ranks above a row returned |
| PhpQueries.TopPlayerOf | api/stats.php:9 | none exactly for an empty table; otherwise a player row whose best score is at least every row's |
| PhpQueries.LeaderboardTable | api/leaderboard.php:7-8 | one four-column row per player, in table order |
| PhpQueries.LeaderboardRanks | api/leaderboard.php:7-10 | the ranking of the projected table by best score is ordered, outranks what it leaves out, and holds only players' projections |
| PhpQueries.LeaderboardLeadsWithBest | api/leaderboard.php:7-10 | on a non-empty table the first row's best score is at least every player's |
| PhpQueries.RecentTable | api/stats.php:10 | one (name, last played) row per player, in table order |
| PhpQueries.RecentPlayers | api/stats.php:10 | min(5, rows) rows, most recent first, each the projection of a player row, none more often than the table holds it, and no row left out was played more recently than a row returned |
| PhpQueries.Stats | api/stats.php:4-21 | the player count, the NULL-skipping sums of games and wins (0 for an empty table), a top player that is a row of the table with the highest best score, and the recent players of `RecentPlayers` with its ranking guarantees |
| PhpQueries.SaveShiftsColumnSums | api/stats.php:7-8 | one save for a player raises the summed games and wins columns by exactly the submitted amounts |
| PhpQueries.SaveRaisesTotals | api/stats.php:6-8 | after one save the global totals rise by the submitted games and wins and the player count is unchanged |
| PhpQueries.ReadLookup | api/player.php:4-9 | 500 exactly when the name is an array; a set, non-zero cast id gives a lookup by that id, and only such an id does; otherwise a set name that trims to a truthy string gives a lookup by that name, and only such a name does; 400 exactly when neither is usable |
| PhpQueries.PlayerLookup | api/player.php:4-22 | the errors of `ReadLookup`; after a usable request, either a row or 404; 404 exactly when no row matches, otherwise a row of the table matching the id or the exact trimmed name |
| Tables.SortDesc | api/leaderboard.php:8 | a permutation of the rows in non-increasing key order |
| Tables.TopN | api/leaderboard.php:8 | min(n, rows) rows in non-increasing key order, drawn from the table, each ranked at least as high as every row left out |
| Tables.TopOneIsMaximal | api/stats.php:9 | the first row of the ordered table has a key at least every row's |
| Crypto.VerifyMatchesHash | api/login.php:16 | a digest is verified by its own password and by no other |
| NodeServer.ExtractBearer | BACKEND/server.js:132-134 | a token exactly when the header starts with "Bearer " and has more after it, and the token is the rest |
| NodeServer.BearerRoundTrip | BACKEND/server.js:132-134 | "Bearer " followed by a non-empty token yields that token |
| NodeServer.Authenticate | BACKEND/server.js:130-141 | accepted exactly when a token is extracted and verifies, giving its payload; every failure is 401 |
| NodeServer.FindById | BACKEND/server.js:284-286 | none exactly when no document has the id, otherwise one that has it |
| NodeServer.FindByEmail | BACKEND/server.js:287-289 | none exactly when no document has the email, otherwise one that has it |
| NodeServer.ResolvePlayer | BACKEND/server.js:283-292 | by id first, then by a non-empty email; none exactly when both fail |
| NodeServer.MergeAggregates | BACKEND/server.js:295-299 | totals added, streak replaced, best streak and best score each the larger of stored and submitted, identity and credentials kept |
| NodeServer.MergeAppendsHistory | BACKEND/server.js:300 | the stored history is followed by the submitted one (none is empty), both in order, nothing dropped |
| NodeServer.MergeStreakOrder | BACKEND/server.js:297-298 | best streak ≥ streak after the merge exactly when the submitted streak is within the larger best streak |
| NodeServer.MergeCanBreakStreakOrder | BACKEND/server.js:297-298 | a body with streak 5 and best streak 3 leaves a document whose streak exceeds its best streak |
| NodeServer.ResavingCountsTwice | BACKEND/server.js:295-300 | saving the same body twice adds its games, wins and history twice |
| NodeServer.JudgeLogin | BACKEND/server.js:192-204 | an account with a password needs a non-empty verifying password (missing is 400, wrong is 401) and is never renamed; an account without one is let in and renamed only to a different non-empty name |
| NodeServer.Store.Login | BACKEND/server.js:179-219 | 400 on invalid input, 404 for an unknown email, the `JudgeLogin` status with nothing changed, or a token and the possibly renamed document with only that document changed |
| NodeServer.Store.Signup | BACKEND/server.js:232-262 | 409 with nothing changed when the email's account has a password; a password-less account is upgraded in place with name and hash, counters kept; otherwise one new document with zero counters |
| NodeServer.Store.SaveScore | BACKEND/server.js:270-329 | 401 without a valid token, 400 on invalid input, 401 when no player resolves, all with nothing changed; otherwise only the resolved document is merged and one session is appended |
| NodeServer.LeaderboardLimit | BACKEND/server.js:344 | never 0; 10 when the parse fails or gives 0, the parsed value otherwise |
| NodeServer.SortField | BACKEND/server.js:345 | "bestScore" when absent or empty, the given field otherwise |
| NodeServer.Leaderboard | BACKEND/server.js:342-357 | min(abs(limit), documents) entries, each a document's with its win rate and none more often than the collection holds it, in non-increasing order of the sort field (any `sortBy`), with no document left out ranking above an entry returned; on the default sort the best scores do not increase |
| NodeServer.LeaderboardRanks | BACKEND/server.js:345-351 | the ranking of the entries by the sort key is ordered, outranks what it leaves out, and holds only documents' entries with their win rates |
| NodeServer.RankedByBestScore | BACKEND/server.js:345-348 | ranked on the default field, best scores do not increase |
| NodeServer.Entries | BACKEND/server.js:347-351 | one entry per document, in storage order, each with the document's fields and its win rate |
| NodeServer.LeaderboardLeadsWithBest | BACKEND/server.js:345-348 | on a non-empty collection the first entry ranks at or above every document on the sort field |
| NodeServer.PlayerById | BACKEND/server.js:376-394 | 404 exactly when no document has the id; otherwise that document with its win rate |
| NodeServer.PlayerByName | BACKEND/server.js:450-468 | 404 exactly when no document has the name; otherwise such a document with its win rate |
| EndToEnd.ClientSaveKeepsNodeStreakOrder | BACKEND/server.js:295-300 | a valid client's body never leaves the Node document with streak above best streak, adds its games and appends its whole history |
| EndToEnd.PhpReadsClientPayload | api/score.php:8-14 | `score.php` reads back every number the client sent and the history as sent |
| EndToEnd.ClientSaveKeepsPhpStreakOrder | api/score.php:19 | a valid client's body never leaves the PHP row with streak above best streak, whatever the row held |
| EndToEnd.NodeSignupThenLogin | BACKEND/server.js:193-196 | a new Node account accepts exactly its own password and answers any other non-empty one with bad credentials |
| EndToEnd.PhpSignupThenLogin | api/login.php:13-31 | after a PHP signup, a login with the same email succeeds exactly with the signup password (answering with the new player when no name is given); a wrong one is 401 changing nothing |

## Left out

- DOM updates, animations, notifications, modals and event wiring in `FRONTEND/sps.js` are user interface. So is the in-progress click guard; `PlayGame` is one atomic step.
- The computer's random move and the clock are parameters (`compChoice`, `timestamp`, `now`). Timestamps are plain numbers: ISO strings and `Date` values are not modelled. `EndToEnd.RecordValue` encodes a timestamp as a number.
- `fetch`, `localStorage` (`loadGameData`, `saveGameData`) and `loadLeaderboard` are network and storage I/O. The client's save request carries no Authorization header, so the Node route would refuse it; that mismatch is not modelled.
- Floating point is left out:
  - the client's unrounded `winRate` field;
  - PHP's `(float)` cast and the `win_rate` column (`SessionRow` has no such field);
  - a JSON number with a fraction sent to `score.php` (`"score": 2.5`, which `(int)` truncates to 2): decoded bodies hold integers only;
  - `Math.round` edge cases, for which exact round-half-up is used.
- bcrypt, `password_hash`/`password_verify` and `jsonwebtoken` are foreign libraries:
  - hashing is an ideal one-way function without salt or cost;
  - bcrypt reads only the first 72 bytes of a password, and the model does not: two passwords that agree on those bytes verify each other under bcrypt but not in the model;
  - a token's verification is the parameter `valid`, the tokens the library accepts at that moment;
  - signing and expiry are not modelled.
- express-validator (`isEmail`, `normalizeEmail`, `isNumeric`, length checks) is the boolean `inputValid`. Emails reach `Store.Login` and `Store.Signup` already normalised.
- NodeServer.Merge: the submitted numbers are JavaScript numbers that are whole. `isNumeric` also accepts a numeric string such as "5", which the route never converts. `player.totalGames += "5"` would then concatenate (10 becomes "105", which Mongoose casts back to 105), and a fractional value such as 2.5 would pass too. Neither case is modelled.
- NodeServer.MergeAggregates: it states the sums and maxima only for whole-number submissions, because of the same gap as `NodeServer.Merge`. A numeric string or a fraction in the body gives a different document. `NodeServer.Store.SaveScore` inherits the gap.
- Crypto.VerifyMatchesHash: verification is exact, with no 72-byte truncation. `PhpApi.NewRowVerifiesItsPassword`, `EndToEnd.NodeSignupThenLogin` and `EndToEnd.PhpSignupThenLogin` rest on it. Under bcrypt, a wrong password that shares its first 72 bytes with the right one would still be let in.
- NodeServer.Leaderboard: Mongo sorting is modelled only for the numeric fields. A `sortBy` naming `playerName`, `lastPlayed` or a non-field makes every document tie. A negative `limit` is read as its absolute value. `parseInt` is its result (`Option<int>`).
- NodeServer.Leaderboard: the `totalPlayers` count in the reply is not modelled.
- Node `GET /api/stats`, `/` and the health routes (BACKEND/server.js:144-171, 407-447) are not part of this model; the PHP `stats.php` is.
- Middleware, rate limiting, CORS, the Mongo connection, startup, PDO setup, `session_start` and the JSON output of `json_response` are plumbing.
- Database failures (the `catch` branches answering 500) are not modelled. The one exception is a PHP TypeError from `trim`/`strtolower`/`password_verify` on an array: it is modelled as 500, whether it is raised inside or outside the `try`.
- The MySQL schema is not in the repository. The model assumes:
  - unique `players.id` and `players.email`;
  - nullable counters that signup leaves NULL;
  - an AUTO_INCREMENT id given as the parameter `newId`.
- MySQL collation is not modelled, so email and name matches are exact. A case-insensitive collation, such as MySQL 8's default `utf8mb4_0900_ai_ci`, would also match letters that differ in case or accent. Trailing spaces would count only under a PAD SPACE collation; `utf8mb4_0900_ai_ci` is NO PAD.
- `ORDER BY` ties keep storage order. MySQL and Mongo do not promise any order for ties.
- PhpValues.IntCast: strings with a fraction or exponent ("2.5", "1e3") and 64-bit saturation are not modelled; a string is read as blanks, an optional sign and a digit prefix.
- PhpApi.Server.SaveScore: `json_encode` of the history is kept as the decoded value it serialises.
- Concurrent saves racing on one player are concurrency.
- The history of a save is appended without any cap, following BACKEND/server.js:300.
