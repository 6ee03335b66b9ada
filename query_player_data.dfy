/** The level-unlock analysis done over a player's stored platform-game scores:
    best level and score, the levels that should be unlocked, and whether the
    player's unlocked list lags behind them. */
module PlayerQuery {
  import opened Common
  import opened ScoreModel

  /** The highest level the unlock rule ever grants. */
  const MaxUnlockLevel: int := 10

  /** `Math.max(...s)` on a non-empty list. */
  function MaxOf(s: seq<int>): (m: int)
    requires |s| > 0
    ensures m in s
    ensures forall i :: 0 <= i < |s| ==> s[i] <= m
  {
    if |s| == 1 then s[0] else Max(s[0], MaxOf(s[1..]))
  }

  function LevelsOf(scores: seq<ScoreRecord>): (levels: seq<int>)
    ensures |levels| == |scores|
    ensures forall i :: 0 <= i < |scores| ==> levels[i] == scores[i].level
  {
    seq(|scores|, i requires 0 <= i < |scores| => scores[i].level)
  }

  function PointsOf(scores: seq<ScoreRecord>): (points: seq<int>)
    ensures |points| == |scores|
    ensures forall i :: 0 <= i < |scores| ==> points[i] == scores[i].score
  {
    seq(|scores|, i requires 0 <= i < |scores| => scores[i].score)
  }

  datatype BestPerformance = BestPerformance(highestLevel: int, bestScore: int)

  /** The highest level and the best score over the player's stored scores; the program
      only asks for them when there is at least one score. */
  function BestPerformanceOf(scores: seq<ScoreRecord>): (b: BestPerformance)
    requires |scores| > 0
    ensures exists i :: 0 <= i < |scores| && scores[i].level == b.highestLevel
    ensures forall i :: 0 <= i < |scores| ==> scores[i].level <= b.highestLevel
    ensures exists i :: 0 <= i < |scores| && scores[i].score == b.bestScore
    ensures forall i :: 0 <= i < |scores| ==> scores[i].score <= b.bestScore
  {
    var levels, points := LevelsOf(scores), PointsOf(scores);
    var b := BestPerformance(MaxOf(levels), MaxOf(points));
    assert b.highestLevel in levels && b.bestScore in points;
    b
  }

  /** The number of levels the rule unlocks for a best level of `maxLevel`:
      min(maxLevel + 1, 10), or none when that bound is below 1. */
  function UnlockCount(maxLevel: int): (n: int)
    ensures 0 <= n <= MaxUnlockLevel
    ensures maxLevel >= 0 && maxLevel + 1 <= MaxUnlockLevel ==> n == maxLevel + 1
    ensures maxLevel + 1 >= MaxUnlockLevel ==> n == MaxUnlockLevel
    ensures maxLevel < 0 ==> n == 0
  {
    var bound := Min(maxLevel + 1, MaxUnlockLevel);
    if bound >= 0 then bound else 0
  }

  /** Builds the list 1, 2, ..., min(maxLevel + 1, 10) one push at a time. */
  method ShouldUnlock(maxLevel: int) returns (levels: seq<int>)
    ensures |levels| == UnlockCount(maxLevel)
    ensures forall i :: 0 <= i < |levels| ==> levels[i] == i + 1
    ensures forall i, j :: 0 <= i < j < |levels| ==> levels[i] < levels[j]
  {
    var bound := Min(maxLevel + 1, MaxUnlockLevel);
    levels := [];
    var i := 1;
    while i <= bound
      invariant 1 <= i
      invariant i <= Max(bound, 0) + 1
      invariant |levels| == i - 1
      invariant forall k :: 0 <= k < |levels| ==> levels[k] == k + 1
    {
      levels := levels + [i];
      i := i + 1;
    }
  }

  /** Whether the stored unlocked list is shorter than the list the scores call for. */
  predicate NeedsSync(shouldUnlock: seq<int>, unlocked: seq<int>) {
    |shouldUnlock| > |unlocked|
  }

  /** `needsSync` is `None` when no player document was found. */
  datatype UnlockAnalysis = UnlockAnalysis(maxLevel: int, shouldUnlock: seq<int>, needsSync: Option<bool>)

  /** The unlock analysis: nothing without platform-game scores; otherwise the levels
      to unlock from the best stored level and, given the player's currently unlocked
      levels, whether they need a sync. */
  method AnalyzeUnlocks(scores: seq<ScoreRecord>, unlocked: Option<seq<int>>)
    returns (r: Option<UnlockAnalysis>)
    ensures r.None? <==> |scores| == 0
    ensures r.Some? ==>
              (forall i :: 0 <= i < |scores| ==> scores[i].level <= r.value.maxLevel) &&
              (exists i :: 0 <= i < |scores| && scores[i].level == r.value.maxLevel)
    ensures r.Some? ==> |r.value.shouldUnlock| == UnlockCount(r.value.maxLevel)
    ensures r.Some? ==> forall i :: 0 <= i < |r.value.shouldUnlock| ==> r.value.shouldUnlock[i] == i + 1
    ensures r.Some? ==> (r.value.needsSync.Some? <==> unlocked.Some?)
    ensures r.Some? && unlocked.Some? ==>
              r.value.needsSync.value == (UnlockCount(r.value.maxLevel) > |unlocked.value|)
  {
    if |scores| == 0 {
      return None;
    }
    var maxLevel := MaxOf(LevelsOf(scores));
    var shouldUnlock := ShouldUnlock(maxLevel);
    var needsSync := if unlocked.Some? then Some(NeedsSync(shouldUnlock, unlocked.value)) else None;
    r := Some(UnlockAnalysis(maxLevel, shouldUnlock, needsSync));
  }
}
