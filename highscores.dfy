/** The rules of the highscore routes once the web framework and the database are
    stripped away: score submission, the generic highscore list, the spaceship
    analytics and the spaceship leaderboards. Query results arrive as sequences. */
module HighscoreRoutes {
  import opened Common
  import opened ScoreModel
  import opened PlayerModel

  // ---------------------------------------------------------------------------
  // Score submission

  /** The body of a submit request; `None` is an undefined field, an absent id or
      game name is the empty string. */
  datatype SubmitRequest = SubmitRequest(
    playerId: string,
    gameName: string,
    score: Option<int>,
    level: Option<int>,
    lines: Option<int>,
    coinsEarned: Option<int>,
    duration: Option<int>,
    asteroidsDestroyed: Option<int>,
    powerUpsCollected: Option<int>,
    accuracy: Option<int>,
    survivalTime: Option<int>,
    shipUsed: Option<string>)

  datatype SubmitResponse =
    | MissingFields
    | PlayerNotFound
    | Submitted(gameStats: GameStat, isNewHighscore: bool, coinsEarned: int)
  {
    /** The HTTP status the route answers with. */
    function Status(): int {
      match this
      case MissingFields => 400
      case PlayerNotFound => 404
      case Submitted(_, _, _) => 200
    }
  }

  /** A falsy player id or game name, or an undefined score, is rejected. */
  predicate HasRequiredFields(req: SubmitRequest) {
    req.playerId != "" && req.gameName != "" && req.score.Some?
  }

  const SpaceshipGame: string := "spaceships"

  /** The only keys the submit route ever puts into a session's customStats. */
  const SpaceshipKeys: set<string> :=
    {"asteroidsDestroyed", "powerUpsCollected", "accuracy", "survivalTime", "shipUsed"}

  /** The session counters the route forwards: none unless the game is the spaceship
      game; then each defined counter, and the ship only when its name is non-empty. */
  function SpaceshipCustomStats(req: SubmitRequest): (cs: CustomStats)
    ensures req.gameName != SpaceshipGame ==> cs == map[]
    ensures cs.Keys <= SpaceshipKeys
    ensures req.gameName == SpaceshipGame ==>
              ("asteroidsDestroyed" in cs <==> req.asteroidsDestroyed.Some?) &&
              ("powerUpsCollected" in cs <==> req.powerUpsCollected.Some?) &&
              ("accuracy" in cs <==> req.accuracy.Some?) &&
              ("survivalTime" in cs <==> req.survivalTime.Some?) &&
              ("shipUsed" in cs <==> req.shipUsed.Some? && req.shipUsed.value != "")
    ensures "asteroidsDestroyed" in cs ==>
              req.asteroidsDestroyed.Some? && cs["asteroidsDestroyed"] == Num(req.asteroidsDestroyed.value)
    ensures "powerUpsCollected" in cs ==>
              req.powerUpsCollected.Some? && cs["powerUpsCollected"] == Num(req.powerUpsCollected.value)
    ensures "accuracy" in cs ==> req.accuracy.Some? && cs["accuracy"] == Num(req.accuracy.value)
    ensures "survivalTime" in cs ==>
              req.survivalTime.Some? && cs["survivalTime"] == Num(req.survivalTime.value)
    ensures "shipUsed" in cs ==> req.shipUsed.Some? && cs["shipUsed"] == Str(req.shipUsed.value)
  {
    if req.gameName != SpaceshipGame then map[]
    else
      var m0: CustomStats := map[];
      var m1 := if req.asteroidsDestroyed.Some? then m0["asteroidsDestroyed" := Num(req.asteroidsDestroyed.value)] else m0;
      var m2 := if req.powerUpsCollected.Some? then m1["powerUpsCollected" := Num(req.powerUpsCollected.value)] else m1;
      var m3 := if req.accuracy.Some? then m2["accuracy" := Num(req.accuracy.value)] else m2;
      var m4 := if req.survivalTime.Some? then m3["survivalTime" := Num(req.survivalTime.value)] else m3;
      if req.shipUsed.Some? && req.shipUsed.value != "" then m4["shipUsed" := Str(req.shipUsed.value)] else m4
  }

  /** The session handed to the player's update: the request's own fields and the
      forwarded counters. */
  function SessionOf(req: SubmitRequest): (s: Session)
    ensures s.score == req.score && s.level == req.level && s.lines == req.lines
    ensures s.coinsEarned == req.coinsEarned && s.duration == req.duration
    ensures s.customStats == Some(SpaceshipCustomStats(req))
  {
    Session(req.score, req.level, req.lines, req.coinsEarned, req.duration,
            Some(SpaceshipCustomStats(req)))
  }

  /** The ledger row appended for an accepted submission: an undefined or zero level
      is stored as 1, an undefined or zero duration as 0. */
  function ScoreRecordOf(req: SubmitRequest): (r: ScoreRecord)
    requires req.score.Some?
    ensures r.playerId == req.playerId && r.gameName == req.gameName && r.score == req.score.value
    ensures req.level.Some? && req.level.value != 0 ==> r.level == req.level.value
    ensures req.level.None? || req.level.value == 0 ==> r.level == 1
    ensures req.duration.Some? ==> r.duration == req.duration.value
    ensures req.duration.None? ==> r.duration == 0
  {
    ScoreRecord(req.playerId, req.gameName, req.score.value, NumOr(req.level, 1), NumOr(req.duration, 0))
  }

  /** The flag the route reports: the updated highscore equals the submitted score. */
  predicate IsNewHighscore(updated: GameStat, score: int) {
    updated.highscore == score
  }

  /** Since the merge keeps the larger of the two, the flag holds exactly when the score
      reaches the previous highscore, a tie included. */
  lemma NewHighscoreIffReachesBest(previous: GameStat, stats: Session, now: Time)
    requires stats.score.Some?
    ensures IsNewHighscore(Merge(previous, stats, now), stats.score.value) <==>
              stats.score.value >= previous.highscore
  {
  }

  /** Handles a submission for the player document `findById` returned for the
      request's id (`null`: not found).
      Invalid requests change nothing; otherwise the game's entry is merged, the global
      counters are bumped and a ledger row is produced. */
  method Submit(req: SubmitRequest, player: Player?, now: Time)
    returns (resp: SubmitResponse, record: Option<ScoreRecord>)
    requires player != null ==> player.Valid() && player.id == req.playerId
    modifies player
    ensures !HasRequiredFields(req) ==> resp == MissingFields && record == None
    ensures !HasRequiredFields(req) && player != null ==> unchanged(player)
    ensures HasRequiredFields(req) && player == null ==> resp == PlayerNotFound && record == None
    ensures HasRequiredFields(req) && player != null ==>
              player.Valid() &&
              resp.Submitted? &&
              resp.gameStats == Merge(old(player.GetGameStats(req.gameName, now)), SessionOf(req), now) &&
              player.gameHighscores == old(player.gameHighscores)[req.gameName := resp.gameStats] &&
              player.totalScore == old(player.totalScore) + req.score.value &&
              player.gamesPlayed == old(player.gamesPlayed) + 1 &&
              player.lastPlayed == now &&
              player.id == old(player.id) && player.badgeId == old(player.badgeId) &&
              player.name == old(player.name) &&
              (resp.isNewHighscore <==> req.score.value >= old(player.GetGameStats(req.gameName, now)).highscore) &&
              resp.coinsEarned == NumOr(req.coinsEarned, 0) &&
              record == Some(ScoreRecordOf(req)) &&
              record.value.playerId == player.id
  {
    if !HasRequiredFields(req) {
      return MissingFields, None;
    }
    if player == null {
      return PlayerNotFound, None;
    }
    ghost var previous := player.GetGameStats(req.gameName, now);
    var score := req.score.value;
    var gameStats := player.UpdateGameStats(req.gameName, SessionOf(req), now);
    player.totalScore := player.totalScore + score;
    player.gamesPlayed := player.gamesPlayed + 1;
    player.lastPlayed := now;
    record := Some(ScoreRecordOf(req));
    NewHighscoreIffReachesBest(previous, SessionOf(req), now);
    resp := Submitted(gameStats, IsNewHighscore(gameStats, score), NumOr(req.coinsEarned, 0));
  }

  // ---------------------------------------------------------------------------
  // Generic highscore list (every game but the platform game)

  /** One row of the generic list: the player's identity and the game's entry. */
  datatype HighscoreEntry = HighscoreEntry(id: string, name: string, badgeId: string, stats: GameStat)

  function HighscoreEntryOf(p: Player, gameName: string, now: Time): HighscoreEntry
    reads p
  {
    HighscoreEntry(p.id, p.name, p.badgeId, p.GetGameStats(gameName, now))
  }

  function HighscoreEntries(players: seq<Player>, gameName: string, now: Time): (r: seq<HighscoreEntry>)
    reads players
    ensures |r| == |players|
    ensures forall i :: 0 <= i < |players| ==> r[i] == HighscoreEntryOf(players[i], gameName, now)
  {
    if |players| == 0 then []
    else [HighscoreEntryOf(players[0], gameName, now)] + HighscoreEntries(players[1..], gameName, now)
  }

  predicate HasHighscore(e: HighscoreEntry) {
    e.stats.highscore > 0
  }

  /** The list for a game, built from the players the database returned: one row per
      player whose highscore for the game is positive, in the order given. */
  function GameHighscores(players: seq<Player>, gameName: string, now: Time): (r: seq<HighscoreEntry>)
    reads players
    ensures |r| <= |players|
    ensures forall e :: e in r ==> e.stats.highscore > 0
    ensures forall i :: 0 <= i < |players| && players[i].GetGameStats(gameName, now).highscore > 0 ==>
              HighscoreEntryOf(players[i], gameName, now) in r
    ensures forall e :: e in r ==> exists i :: 0 <= i < |players| && e == HighscoreEntryOf(players[i], gameName, now)
  {
    var entries := HighscoreEntries(players, gameName, now);
    assert forall i :: 0 <= i < |players| ==> entries[i] in entries;
    Filter(entries, HasHighscore)
  }

  // ---------------------------------------------------------------------------
  // Spaceship analytics

  function SumScores(scores: seq<ScoreRecord>): int
    decreases |scores|
  {
    if |scores| == 0 then 0 else scores[0].score + SumScores(scores[1..])
  }

  /** `Math.round(sum / n)`: the nearest integer, halves rounded up. */
  function RoundedAverage(sum: int, n: int): (avg: int)
    requires n > 0
    ensures 2 * (n * avg) - n <= 2 * sum < 2 * (n * avg) + n
  {
    var q := (2 * sum + n) / (2 * n);
    assert (2 * n) * q + (2 * sum + n) % (2 * n) == 2 * sum + n;
    assert (2 * n) * q == 2 * (n * q);
    q
  }

  /** A rounded average of a sum lying between n * lo and n * hi lies between lo and hi. */
  lemma RoundedAverageBetween(sum: int, n: int, lo: int, hi: int)
    requires n > 0 && n * lo <= sum <= n * hi
    ensures lo <= RoundedAverage(sum, n) <= hi
  {
    var avg := RoundedAverage(sum, n);
    if avg > hi {
      MulMonotone(n, hi + 1, avg);
      assert false;
    }
    if avg < lo {
      MulMonotone(n, avg + 1, lo);
      assert false;
    }
  }

  datatype Analytics = Analytics(
    totalGames: int,
    bestScore: int,
    averageScore: int,
    improvement: int,
    recentGames: seq<ScoreRecord>,
    playTime: Value,
    coins: int)

  /** The analytics view from the spaceship entry and the player's latest spaceship
      scores, newest first. */
  function SpaceshipAnalytics(stats: GameStat, scores: seq<ScoreRecord>): (a: Analytics)
    ensures a.totalGames == stats.gamesPlayed && a.bestScore == stats.highscore
    ensures |scores| == 0 ==> a.averageScore == 0
    ensures |scores| > 0 ==>
              2 * (|scores| * a.averageScore) - |scores| <= 2 * SumScores(scores) <
              2 * (|scores| * a.averageScore) + |scores|
    ensures |scores| >= 2 ==> a.improvement == scores[0].score - scores[|scores| - 1].score
    ensures |scores| < 2 ==> a.improvement == 0
    ensures |a.recentGames| == Min(|scores|, 5) && a.recentGames <= scores
    ensures a.playTime == ValueOr(stats.customStats, "totalPlayTime", Num(0))
    // a spent-out balance of 0 is reported as the starting grant
    ensures a.coins == (if stats.coins != 0 then stats.coins else 1000)
  {
    Analytics(
      totalGames := Or(stats.gamesPlayed, 0),
      bestScore := Or(stats.highscore, 0),
      averageScore := if |scores| > 0 then RoundedAverage(SumScores(scores), |scores|) else 0,
      improvement := if |scores| >= 2 then scores[0].score - scores[|scores| - 1].score else 0,
      recentGames := scores[..Min(|scores|, 5)],
      playTime := ValueOr(stats.customStats, "totalPlayTime", Num(0)),
      coins := Or(stats.coins, 1000))
  }

  lemma {:induction false} SumScoresBounds(scores: seq<ScoreRecord>, lo: int, hi: int)
    requires forall i :: 0 <= i < |scores| ==> lo <= scores[i].score <= hi
    ensures |scores| * lo <= SumScores(scores) <= |scores| * hi
    decreases |scores|
  {
    if |scores| > 0 {
      SumScoresBounds(scores[1..], lo, hi);
      assert |scores| * lo == lo + (|scores| - 1) * lo;
      assert |scores| * hi == hi + (|scores| - 1) * hi;
    }
  }

  /** The reported average lies between the lowest and the highest of the scores. */
  lemma AverageWithinScores(stats: GameStat, scores: seq<ScoreRecord>, lo: int, hi: int)
    requires |scores| > 0
    requires forall i :: 0 <= i < |scores| ==> lo <= scores[i].score <= hi
    ensures lo <= SpaceshipAnalytics(stats, scores).averageScore <= hi
  {
    SumScoresBounds(scores, lo, hi);
    RoundedAverageBetween(SumScores(scores), |scores|, lo, hi);
  }

  lemma MulMonotone(k: int, a: int, b: int)
    requires k >= 0 && a <= b
    ensures k * a <= k * b
  {
    assert k * b - k * a == k * (b - a);
  }

  // ---------------------------------------------------------------------------
  // Spaceship leaderboards

  /** The document field a leaderboard category sorts by; unknown categories sort by
      highscore like "score". */
  function SortField(category: string): (field: string)
    ensures category == "accuracy" ==> field == "gameHighscores.spaceships.customStats.bestAccuracy"
    ensures category == "survival" ==> field == "gameHighscores.spaceships.customStats.averageSurvivalTime"
    ensures category != "accuracy" && category != "survival" ==> field == "gameHighscores.spaceships.highscore"
  {
    match category
    case "score" => "gameHighscores.spaceships.highscore"
    case "accuracy" => "gameHighscores.spaceships.customStats.bestAccuracy"
    case "survival" => "gameHighscores.spaceships.customStats.averageSurvivalTime"
    case _ => "gameHighscores.spaceships.highscore"
  }

  datatype LeaderboardEntry = LeaderboardEntry(
    id: string,
    name: string,
    badgeId: string,
    score: int,
    accuracy: Value,
    survivalTime: Value,
    gamesPlayed: int)

  /** One leaderboard row, read from the player's spaceship entry with 0 for whatever
      is missing. */
  function LeaderboardEntryOf(p: Player, now: Time): (e: LeaderboardEntry)
    reads p
    ensures e.id == p.id && e.name == p.name && e.badgeId == p.badgeId
    ensures e.score == p.GetGameStats(SpaceshipGame, now).highscore
    ensures e.gamesPlayed == p.GetGameStats(SpaceshipGame, now).gamesPlayed
    ensures e.accuracy == ValueOr(p.GetGameStats(SpaceshipGame, now).customStats, "bestAccuracy", Num(0))
    ensures e.survivalTime ==
              ValueOr(p.GetGameStats(SpaceshipGame, now).customStats, "averageSurvivalTime", Num(0))
  {
    var stats := p.GetGameStats(SpaceshipGame, now);
    LeaderboardEntry(
      p.id, p.name, p.badgeId,
      Or(stats.highscore, 0),
      ValueOr(stats.customStats, "bestAccuracy", Num(0)),
      ValueOr(stats.customStats, "averageSurvivalTime", Num(0)),
      Or(stats.gamesPlayed, 0))
  }

  function LeaderboardEntries(players: seq<Player>, now: Time): (r: seq<LeaderboardEntry>)
    reads players
    ensures |r| == |players|
    ensures forall i :: 0 <= i < |players| ==> r[i] == LeaderboardEntryOf(players[i], now)
  {
    if |players| == 0 then []
    else [LeaderboardEntryOf(players[0], now)] + LeaderboardEntries(players[1..], now)
  }

  predicate HasScore(e: LeaderboardEntry) {
    e.score > 0
  }

  /** The leaderboard from the players the database returned in category order: one row
      per player with a positive spaceship highscore, in the order given. */
  function Leaderboard(players: seq<Player>, now: Time): (r: seq<LeaderboardEntry>)
    reads players
    ensures |r| <= |players|
    ensures forall e :: e in r ==> e.score > 0
    ensures forall i :: 0 <= i < |players| && players[i].GetGameStats(SpaceshipGame, now).highscore > 0 ==>
              LeaderboardEntryOf(players[i], now) in r
    ensures forall e :: e in r ==> exists i :: 0 <= i < |players| && e == LeaderboardEntryOf(players[i], now)
  {
    var entries := LeaderboardEntries(players, now);
    assert forall i :: 0 <= i < |players| ==> entries[i] in entries;
    Filter(entries, HasScore)
  }
}
