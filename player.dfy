/** The player entity and its per-game statistics store (`gameHighscores`). */
module PlayerModel {
  import opened Common

  /** One session's result as handed to `updateGameStats`; `None` is an undefined field
      or a missing key, which the model does not tell apart (the submit route always
      passes all five numeric keys). `customStats` is `None` when the input object has
      no such key. */
  datatype Session = Session(
    score: Option<int>,
    level: Option<int>,
    lines: Option<int>,
    coinsEarned: Option<int>,
    duration: Option<int>,
    customStats: Option<CustomStats>)

  /** One entry of `gameHighscores`. `lastInput` is the session object whose own keys
      (score, level, lines, coinsEarned, duration) the last update spread onto the entry;
      an entry no update has written carries `None`. */
  datatype GameStat = GameStat(
    highscore: int,
    coins: int,
    gamesPlayed: int,
    lastPlayed: Time,
    bestLevel: int,
    bestLines: int,
    customStats: CustomStats,
    lastInput: Option<Session>)

  /** The counters every entry built by the program satisfies. Coins are not among them:
      a negative `coinsEarned` is added without clamping. */
  predicate WellFormed(e: GameStat) {
    e.highscore >= 0 && e.gamesPlayed >= 0 && e.bestLevel >= 1 && e.bestLines >= 0
  }

  /** The entry `getGameStats` synthesizes for a game the player has never played. */
  function DefaultStats(now: Time): (r: GameStat)
    ensures WellFormed(r) && r.gamesPlayed == 0 && r.coins == 0
  {
    GameStat(highscore := 0, coins := 0, gamesPlayed := 0, lastPlayed := now,
             bestLevel := 1, bestLines := 0, customStats := map[], lastInput := None)
  }

  /** The entry `updateGameStats` builds from the current entry and one session. */
  function Merge(current: GameStat, stats: Session, now: Time): (r: GameStat)
    // highscore is the larger of the old highscore and the score (an absent score counts as 0)
    ensures r.highscore >= current.highscore && r.highscore >= NumOr(stats.score, 0)
    ensures r.highscore == current.highscore || r.highscore == NumOr(stats.score, 0)
    // coins are a running sum, without clamping
    ensures r.coins == current.coins + NumOr(stats.coinsEarned, 0)
    ensures stats.coinsEarned.None? ==> r.coins == current.coins
    ensures r.gamesPlayed == current.gamesPlayed + 1
    ensures r.lastPlayed == now
    // best level: a stored or reported level of 0 or undefined counts as 1
    ensures r.bestLevel >= current.bestLevel && r.bestLevel >= NumOr(stats.level, 1)
    ensures r.bestLevel == Or(current.bestLevel, 1) || r.bestLevel == NumOr(stats.level, 1)
    ensures current.bestLevel >= 0 ==> r.bestLevel >= 1
    ensures r.bestLines >= current.bestLines && r.bestLines >= NumOr(stats.lines, 0)
    ensures r.bestLines == current.bestLines || r.bestLines == NumOr(stats.lines, 0)
    // the spread: a session's customStats replaces the stored one wholesale
    ensures stats.customStats.Some? ==> r.customStats == stats.customStats.value
    ensures stats.customStats.None? ==> r.customStats == current.customStats
    ensures r.lastInput == Some(stats)
    ensures WellFormed(current) ==> WellFormed(r)
  {
    GameStat(
      highscore := Max(current.highscore, NumOr(stats.score, 0)),
      coins := Or(current.coins, 0) + NumOr(stats.coinsEarned, 0),
      gamesPlayed := Or(current.gamesPlayed, 0) + 1,
      lastPlayed := now,
      bestLevel := Max(Or(current.bestLevel, 1), NumOr(stats.level, 1)),
      bestLines := Max(Or(current.bestLines, 0), NumOr(stats.lines, 0)),
      customStats := if stats.customStats.Some? then stats.customStats.value else current.customStats,
      lastInput := Some(stats))
  }

  /** The entry after a sequence of `updateGameStats` calls for one game, in call order. */
  function Replay(e: GameStat, sessions: seq<Session>, now: Time): GameStat
    decreases |sessions|
  {
    if |sessions| == 0 then e else Replay(Merge(e, sessions[0], now), sessions[1..], now)
  }

  /** The coins the sessions earn, an absent `coinsEarned` counting as 0. */
  function CoinsEarned(sessions: seq<Session>): int
    decreases |sessions|
  {
    if |sessions| == 0 then 0 else NumOr(sessions[0].coinsEarned, 0) + CoinsEarned(sessions[1..])
  }

  /** Across any sequence of updates: the game count grows by exactly the number of sessions,
      the coins by exactly what they earned, and highscore, bestLevel and bestLines never
      decrease; the highscore is at least every session's score. */
  lemma {:induction false} ReplayCounters(e: GameStat, sessions: seq<Session>, now: Time)
    ensures Replay(e, sessions, now).gamesPlayed == e.gamesPlayed + |sessions|
    ensures Replay(e, sessions, now).coins == e.coins + CoinsEarned(sessions)
    ensures Replay(e, sessions, now).highscore >= e.highscore
    ensures Replay(e, sessions, now).bestLevel >= e.bestLevel
    ensures Replay(e, sessions, now).bestLines >= e.bestLines
    ensures forall i :: 0 <= i < |sessions| ==>
              Replay(e, sessions, now).highscore >= NumOr(sessions[i].score, 0)
    decreases |sessions|
  {
    if |sessions| > 0 {
      var next := Merge(e, sessions[0], now);
      ReplayCounters(next, sessions[1..], now);
      forall i | 0 <= i < |sessions|
        ensures Replay(e, sessions, now).highscore >= NumOr(sessions[i].score, 0)
      {
        if i > 0 {
          assert sessions[1..][i - 1] == sessions[i];
        }
      }
    }
  }

  class Player {
    var id: string
    var badgeId: string
    var name: string
    var totalScore: int
    var gamesPlayed: int
    var lastPlayed: Time
    var gameHighscores: map<string, GameStat>

    /** Every stored entry keeps the counters `updateGameStats` maintains. */
    ghost predicate Valid()
      reads this
    {
      gamesPlayed >= 0 &&
      forall g :: g in gameHighscores ==> WellFormed(gameHighscores[g])
    }

    /** A new player document with the schema's defaults. */
    constructor (id: string, badgeId: string, name: string, now: Time)
      ensures Valid()
      ensures this.id == id && this.badgeId == badgeId && this.name == name
      ensures totalScore == 0 && gamesPlayed == 0 && lastPlayed == now
      ensures gameHighscores == map[]
    {
      this.id := id;
      this.badgeId := badgeId;
      this.name := name;
      totalScore := 0;
      gamesPlayed := 0;
      lastPlayed := now;
      gameHighscores := map[];
    }

    /** The stored entry for `gameName`, or a fresh default entry that is NOT written back. */
    function GetGameStats(gameName: string, now: Time): (r: GameStat)
      reads this
      ensures gameName in gameHighscores ==> r == gameHighscores[gameName]
      ensures gameName !in gameHighscores ==>
                r.highscore == 0 && r.coins == 0 && r.gamesPlayed == 0 && r.lastPlayed == now &&
                r.bestLevel == 1 && r.bestLines == 0 && r.customStats == map[] && r.lastInput == None
      ensures Valid() ==> WellFormed(r)
    {
      if gameName in gameHighscores then gameHighscores[gameName] else DefaultStats(now)
    }

    /** Merges one session into the entry for `gameName`, stores it and returns it. */
    method UpdateGameStats(gameName: string, stats: Session, now: Time) returns (updated: GameStat)
      requires Valid()
      modifies this
      ensures Valid()
      ensures updated == Merge(old(GetGameStats(gameName, now)), stats, now)
      ensures gameHighscores == old(gameHighscores)[gameName := updated]
      ensures id == old(id) && badgeId == old(badgeId) && name == old(name)
      ensures totalScore == old(totalScore) && gamesPlayed == old(gamesPlayed)
      ensures lastPlayed == old(lastPlayed)
    {
      var current := GetGameStats(gameName, now);
      updated := Merge(current, stats, now);
      gameHighscores := gameHighscores[gameName := updated];
    }
  }
}
