# Arcade backend: per-game statistics, score submission and level unlocks

This project models the core of an arcade-platform backend in Dafny. Players log in
with a badge, play mini-games and submit session results. The model covers three parts:

- **The player's per-game statistics store.** Each player document holds `gameHighscores`,
  a map from game name to an entry (highscore, coins, games played, last played, best
  level, best lines, custom counters). `getGameStats` reads an entry, or a default one
  when the game has never been played. `updateGameStats` merges one session into the
  entry and stores it. The model has a `Player` class whose `gameHighscores` field is a
  `map` that the update method reassigns. The merge itself is the pure function
  `PlayerModel.Merge`.
- **The highscore routes, without HTTP and database.** This covers submit validation,
  the spaceship counter filter, the global counter bumps, the new-highscore flag and the
  defaults of the ledger row. It also covers the generic highscore list, the spaceship
  analytics, the leaderboard sort field and the positive-score filters. Query results
  are input sequences. The players the database returns are a `seq<Player>` of objects.
- **The level-unlock analysis over a player's platform-game scores.** It finds the best
  level and score and builds the list `1 .. min(maxLevel + 1, 10)` with a loop. It then
  compares that list's length with the currently unlocked list.

Files: `common.dfy` (optional values, the loosely typed `customStats` values,
JavaScript's `x || d` on numbers and values, a filter), `score.dfy` (the ledger row),
`player.dfy` (the player entity), `highscores.dfy` (the routes' rules) and
`query_player_data.dfy` (the unlock analysis).

Modelling conventions:

- JavaScript numbers are Dafny `int`s. An undefined request field is `None`. The
  expression `x || d` on a number picks `d` exactly when `x` is undefined or 0.
  On a stored value, `d` is picked when the value is missing, 0 or the empty string.
- Every clock read (`new Date()`) is a `now` parameter.
- The object spread in `updateGameStats` copies the session's own keys onto the entry.
  `GameStat.lastInput` records that: it holds the last session merged in. A session that
  carries `customStats` replaces the entry's `customStats` wholesale.

Facts of the code worth knowing, which the model keeps:

- `getGameStats` does not write its default entry back into the map.
- `updateGameStats` does not merge `customStats` per key and does not sum cumulative
  counters. The session's `customStats` replaces the stored one. The submit route
  always passes one. So every submission replaces the game's stored `customStats`, and
  for any game other than `spaceships` it becomes empty.
- Coins are added without clamping, so a negative `coinsEarned` can push them below zero.
- `totalScore` grows by the submitted score unchecked, so a negative score lowers it.
- `isNewHighscore` also holds when the score only ties the previous highscore
  (`HighscoreRoutes.NewHighscoreIffReachesBest`).
- The generic highscore list is not deduplicated per player. It has one row per player
  document the database returns.

## Model

| member | source | states |
|---|---|---|
| `PlayerModel.Player.constructor` | backend/models/Player.js:3-41 | a new player starts with total score 0, 0 games, last played now and an empty `gameHighscores` map |
| `PlayerModel.Player.GetGameStats` | backend/models/Player.js:44-54 | a stored entry is returned exactly as stored; for an unknown game the result is highscore 0, coins 0, 0 games, best level 1, best lines 0 and empty customStats; the map is not changed (a function cannot write) |
| `PlayerModel.DefaultStats` | backend/models/Player.js:45-53 | the default entry satisfies the entry invariant and starts with no games and no coins |
| `PlayerModel.Merge` | backend/models/Player.js:58-67 | highscore is the larger of the old highscore and the score (an absent score counts as 0); coins are the old coins plus coinsEarned (absent is 0), without clamping; games played grow by exactly 1; best level is the larger of old-or-1 and level-or-1, and is at least 1 when the old value is not negative; best lines is the larger of old and lines-or-0; a session's customStats replaces the stored one, otherwise the stored one is kept; the session's own keys are carried; the entry invariant is preserved |
| `PlayerModel.ReplayCounters` | backend/models/Player.js:56-71 | over any sequence of updates, games played grow by exactly the number of sessions, coins by exactly the coins earned (so two sessions earning 10 each add exactly 20 and 2 games), and highscore, best level and best lines never decrease; the final highscore is at least every session's score |
| `PlayerModel.Player.UpdateGameStats` | backend/models/Player.js:56-71 | the returned entry is the merge of what `getGameStats` gave before the call, and it is stored under the game name; all other map keys and all other player fields are unchanged; every stored entry keeps the entry invariant |
| `HighscoreRoutes.SpaceshipCustomStats` | backend/routes/highscores.js:86-94 | the forwarded counters are empty unless the game is `spaceships`; for `spaceships` they hold exactly the defined asteroidsDestroyed, powerUpsCollected, accuracy and survivalTime, with their values, plus shipUsed only when it is a non-empty name; no other key ever appears |
| `HighscoreRoutes.SessionOf` | backend/routes/highscores.js:97-104 | the session handed to the update carries the request's score, level, lines, coinsEarned and duration unchanged, plus the filtered counters |
| `HighscoreRoutes.ScoreRecordOf` | backend/routes/highscores.js:114-120 | the ledger row keeps the player, game and score; a missing or zero level is stored as 1 and a missing duration as 0 |
| `HighscoreRoutes.NewHighscoreIffReachesBest` | backend/routes/highscores.js:126 | the new-highscore flag holds exactly when the submitted score is at least the previous highscore (ties included) |
| `HighscoreRoutes.Submit` | backend/routes/highscores.js:58-133 | for the player document looked up by the request's id: a falsy player id or game name, or an undefined score, gives a 400 answer and changes nothing; an unknown player gives a 404 answer; otherwise the game's entry becomes the merge of the session, total score grows by the score and games played by exactly 1, the flag is as above, the reported coinsEarned is 0 when it was absent, and the ledger row is produced for that same player |
| `HighscoreRoutes.HighscoreEntries` | backend/routes/highscores.js:41-49 | one row per player, in order, holding that player's identity and `getGameStats` entry for the game |
| `HighscoreRoutes.GameHighscores` | backend/routes/highscores.js:41-50 | the list keeps exactly the rows whose highscore is positive: every such player appears, every row comes from some input player, and the list is no longer than the input |
| `Common.Filter` | backend/routes/highscores.js:50 | the filter's result holds exactly the input elements the predicate accepts and is never longer than the input |
| `Common.FilterAppend` | backend/routes/highscores.js:265 | filtering keeps the input order: the filter of a concatenation is the concatenation of the filters |
| `Common.FilterKeepsAll` | backend/routes/highscores.js:265 | an input whose every element passes comes out unchanged |
| `HighscoreRoutes.RoundedAverage` | backend/routes/highscores.js:214 | the average is the integer nearest to sum / n, with halves rounded up, as `Math.round` does |
| `HighscoreRoutes.SpaceshipAnalytics` | backend/routes/highscores.js:211-219 | the average is 0 without scores and the rounded mean otherwise; improvement is newest minus oldest with at least two scores and 0 otherwise; recent games are the first at most 5 scores; play time reads `totalPlayTime` (0 if missing); a coin balance of 0 is reported as 1000 |
| `HighscoreRoutes.SumScoresBounds` | backend/routes/highscores.js:214 | the sum of n scores between lo and hi lies between n * lo and n * hi |
| `HighscoreRoutes.RoundedAverageBetween` | backend/routes/highscores.js:214 | rounding the mean of a sum between n * lo and n * hi gives a value between lo and hi |
| `HighscoreRoutes.AverageWithinScores` | backend/routes/highscores.js:214 | the reported average score lies between the lowest and the highest score |
| `HighscoreRoutes.SortField` | backend/routes/highscores.js:233-246 | "accuracy" sorts by bestAccuracy, "survival" by averageSurvivalTime, and "score" and every other category by the highscore |
| `HighscoreRoutes.LeaderboardEntryOf` | backend/routes/highscores.js:252-264 | a row reports the spaceship highscore and games played, and bestAccuracy and averageSurvivalTime when present and truthy, else 0 |
| `HighscoreRoutes.LeaderboardEntries` | backend/routes/highscores.js:252-264 | one leaderboard row per player, in order |
| `HighscoreRoutes.Leaderboard` | backend/routes/highscores.js:248-265 | the leaderboard keeps exactly the rows whose score is positive: every such player appears and every row comes from an input player |
| `PlayerQuery.MaxOf` | backend/query_player_data.js:87 | the maximum is an element of the list and no element exceeds it |
| `PlayerQuery.BestPerformanceOf` | backend/query_player_data.js:87-88 | the highest level and the best score are attained by some stored score and bound all of them |
| `PlayerQuery.UnlockCount` | backend/query_player_data.js:103 | the number of unlocked levels is min(maxLevel + 1, 10) when that is at least 0, 0 for a negative maxLevel, and never more than 10 |
| `PlayerQuery.ShouldUnlock` | backend/query_player_data.js:102-105 | the built list has UnlockCount(maxLevel) elements, its i-th element is i + 1, and it is strictly ascending |
| `PlayerQuery.AnalyzeUnlocks` | backend/query_player_data.js:100-113 | without scores there is no analysis; otherwise maxLevel is the maximum stored level, the list is 1 .. UnlockCount(maxLevel), and, when a player was found, a sync is needed exactly when that list is longer than the currently unlocked one |

## Left out

- Database and web-framework calls (`find`, `populate`, `sort`, `limit`, `save`, `res.status().json`): query results are input sequences and responses are values. The ordering of the highscore lists and leaderboards, and the 10/20/5 result caps, are done by the database and are not modelled.
- `parseInt(req.query.limit) || 10` and the other limit parsing: string-to-number parsing is not modelled.
- The 500 answers: they only come from exceptions the database raises.
- The `tilliman` branch of the highscore route (backend/routes/highscores.js:13-32): it only copies database rows sorted by the database.
- The per-player score route (backend/routes/highscores.js:136-153): a single database query.
- The spaceship profile routes (backend/routes/highscores.js:155-194): `getSpaceshipProfile` and `updateSpaceshipProfile` are not part of this model. The player source file does not define them.
- `getTilliProfile`, `unlockTilliLevel` and `syncTilliLevelsFromScores` are not part of this model either. backend/models/Player.js does not define `getTilliProfile`, so as written the call at backend/query_player_data.js:109 throws and control passes to the catch at line 119. `PlayerQuery.AnalyzeUnlocks` instead takes the currently unlocked levels as an input, as if that method existed and returned them.
- Platform and shooter profile derivation, purchases and level sync from the ledger: backend/models/Player.js defines no such methods, so they are not modelled.
- Timestamps: `lastPlayed` takes the `now` parameter, and the ledger row's creation time is dropped.
- JavaScript number semantics beyond integers: floating-point values (accuracy, survival time, fractional averages before rounding), `NaN`, `null` and numeric strings. A `null` score passes validation in the source; here a score is either defined or undefined.
- How the document store casts entries: the model stores exactly the object `updateGameStats` returns, including the spread session keys, and reads a stored entry back as a plain record. The spreads at backend/models/Player.js:59 and backend/routes/highscores.js:48 act on whatever `gameHighscores.get` returns; if a stored subdocument's spread did not copy `highscore`, the filter at backend/routes/highscores.js:50 would drop every row. The model assumes the fields are copied.
- Session: an undefined field and a missing key are both `None`. A caller that omits a key (backend/create_test_player.js:61-70 passes no `lines` or `duration`) keeps the older entry's spread key for it in the source, while the model's `lastInput` is replaced by the whole new session. The submit route always passes all five keys, so no contract about it is affected.
- `HighscoreRoutes.HighscoreEntry` nests the game entry instead of spreading its keys next to the identity, and it omits the duplicate `playerId` key.
- GameHighscores: its own contract states membership and length only; that the input order is kept is stated by `Common.FilterAppend` for the filter it applies.
- Leaderboard: its own contract states membership and length only; that the input order is kept is stated by `Common.FilterAppend` for the filter it applies.
- Console output of the query script, the connection handling, concurrent requests racing on one player document, and the other route files, the server setup and the test scripts.
