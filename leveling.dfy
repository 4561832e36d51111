/**
 * The XP and levelling game of desafio1/server/app.py: every request to the
 * home endpoint earns XP, the level follows from the total XP, and a title
 * follows from the level. The three process-wide counters are the fields of
 * `Player`; the random reward and critical-hit roll are inputs.
 */
module Leveling {
  /** XP needed per level. */
  const XpPerLevel: nat := 100
  /** Cells of the progress bar. */
  const BarCells: nat := 10
  /** Bounds of `random.randint(15, 30)`, the base XP of a request. */
  const BaseXpMin: int := 15
  const BaseXpMax: int := 30

  const FilledCell: char := '\U{2588}'
  const EmptyCell: char := '\U{2591}'

  /** `calculate_level`: one level per full 100 XP, starting at level 1. */
  function CalculateLevel(xp: int): (level: int)
    ensures (level - 1) * XpPerLevel <= xp < level * XpPerLevel
    ensures xp >= 0 ==> level >= 1
  {
    xp / XpPerLevel + 1
  }

  /** The level never goes down as XP grows. */
  lemma LevelMonotone(xp1: int, xp2: int)
    requires xp1 <= xp2
    ensures CalculateLevel(xp1) <= CalculateLevel(xp2)
  {
  }

  /** A gain of at most 100 XP raises the level by at most one. */
  lemma AtMostOneLevelPerGain(xp: int, gain: int)
    requires 0 <= gain <= XpPerLevel
    ensures CalculateLevel(xp) <= CalculateLevel(xp + gain) <= CalculateLevel(xp) + 1
  {
  }

  /** The eleven titles, in order of their thresholds. */
  datatype Title =
    | Novice | HttpWarrior | EndpointGuardian | CurlMaster | ApiLord | DockerLegend
    | RequestKing | ContainerChampion | ConnectionGod | DigitalTranscendent | CosmicNetworkEntity

  /** The levels from which each title is held, ascending. */
  const Thresholds: seq<int> := [1, 5, 10, 15, 20, 25, 30, 40, 50, 75, 100]
  const Titles: seq<Title> := [Novice, HttpWarrior, EndpointGuardian, CurlMaster, ApiLord, DockerLegend,
                               RequestKing, ContainerChampion, ConnectionGod, DigitalTranscendent,
                               CosmicNetworkEntity]

  /**
   * Searching the thresholds at indices `i` down to 0: the first one at or
   * below `level`, or index 0 when none is.
   */
  function RankBelow(level: int, i: nat): (k: nat)
    requires i < |Thresholds|
    ensures k <= i
    ensures Thresholds[k] <= level || k == 0
    ensures forall j :: k < j <= i ==> level < Thresholds[j]
    decreases i
  {
    if i == 0 || Thresholds[i] <= level then i else RankBelow(level, i - 1)
  }

  /** The index of the title held at `level`. */
  function TitleRank(level: int): (k: nat)
    ensures k < |Thresholds|
    ensures Thresholds[k] <= level || k == 0
    ensures forall j :: k < j < |Thresholds| ==> level < Thresholds[j]
  {
    RankBelow(level, |Thresholds| - 1)
  }

  /** Titles never go down as the level rises; below level 1 the first title is held. */
  lemma TitleMonotone(level1: int, level2: int)
    requires level1 <= level2
    ensures TitleRank(level1) <= TitleRank(level2)
    ensures level1 < Thresholds[0] ==> TitleRank(level1) == 0
  {
  }

  /**
   * `get_title`: scan the thresholds from the highest down and return the
   * title of the first one at or below `level`; the first title otherwise.
   */
  method GetTitle(level: int) returns (title: Title)
    ensures title == Titles[TitleRank(level)]
  {
    var i := |Thresholds|;
    while i > 0
      invariant 0 <= i <= |Thresholds|
      invariant forall j :: i <= j < |Thresholds| ==> level < Thresholds[j]
    {
      i := i - 1;
      if level >= Thresholds[i] {
        return Titles[i];
      }
    }
    return Titles[0];
  }

  /** `get_xp_reward`: the base XP, doubled on a critical hit. */
  function XpReward(baseXp: int, critical: bool): (reward: int)
    requires BaseXpMin <= baseXp <= BaseXpMax
    ensures BaseXpMin <= reward <= 2 * BaseXpMax
    ensures critical ==> 2 * BaseXpMin <= reward && reward == 2 * baseXp
    ensures !critical ==> reward <= BaseXpMax && reward == baseXp
  {
    if critical then baseXp * 2 else baseXp
  }

  /** XP earned within the current level: `player_xp - (player_level - 1) * 100`. */
  function XpProgress(xp: int, level: int): int {
    xp - (level - 1) * XpPerLevel
  }

  /** With the level derived from the XP, the progress is the XP modulo 100. */
  lemma ProgressIsRemainder(xp: int)
    ensures XpProgress(xp, CalculateLevel(xp)) == xp % XpPerLevel
    ensures 0 <= XpProgress(xp, CalculateLevel(xp)) < XpPerLevel
  {
  }

  /** Python's `c * n` for a one-character string: `n` copies, none when `n <= 0`. */
  function Repeat(c: char, n: int): (s: seq<char>)
    ensures |s| == if n > 0 then n else 0
    ensures forall i :: 0 <= i < |s| ==> s[i] == c
    decreases n
  {
    if n <= 0 then [] else [c] + Repeat(c, n - 1)
  }

  /** The progress bar: one filled cell per 10 XP of progress, then empty cells up to 10. */
  function ProgressBar(progress: int): (bar: seq<char>)
    ensures 0 <= progress < XpPerLevel ==>
      |bar| == BarCells &&
      forall i :: 0 <= i < |bar| ==> (bar[i] == FilledCell <==> i < progress / 10) &&
                                     (bar[i] == EmptyCell <==> progress / 10 <= i)
  {
    Repeat(FilledCell, progress / 10) + Repeat(EmptyCell, BarCells - progress / 10)
  }

  /** The player part of the home endpoint's response. */
  datatype HomeReport = HomeReport(
    level: int, title: Title, totalXp: int, xpProgress: int, requestsMade: int,
    xpGained: int, critical: bool, levelUp: bool)

  /** The player part of the stats endpoint's response. */
  datatype StatsReport = StatsReport(
    level: int, title: Title, totalXp: int, xpToNextLevel: int, progressBar: seq<char>, totalRequests: int)

  /** The game state: total XP, current level and number of home requests. */
  class Player {
    var xp: int
    var level: int
    var requests: int

    /** The level always follows from the XP; XP and the request count are never negative. */
    ghost predicate Valid()
      reads this
    {
      xp >= 0 && level == CalculateLevel(xp) && requests >= 0
    }

    constructor ()
      ensures Valid() && xp == 0 && level == 1 && requests == 0
    {
      xp, level, requests := 0, 1, 0;
    }

    /**
     * `home`: count the request, add the reward, recompute the level, and
     * report whether it rose; it rises by at most one per request.
     */
    method Home(baseXp: int, critical: bool) returns (report: HomeReport)
      requires Valid()
      requires BaseXpMin <= baseXp <= BaseXpMax
      modifies this
      ensures Valid()
      ensures requests == old(requests) + 1
      ensures xp == old(xp) + XpReward(baseXp, critical)
      ensures level == CalculateLevel(xp)
      ensures old(level) <= level <= old(level) + 1
      ensures report.levelUp <==> level > old(level)
      ensures report.level == level && report.totalXp == xp && report.requestsMade == requests
      ensures report.xpGained == XpReward(baseXp, critical) && report.critical == critical
      ensures report.title == Titles[TitleRank(level)]
      ensures report.xpProgress == xp % XpPerLevel
    {
      requests := requests + 1;

      var xpGained := XpReward(baseXp, critical);
      var oldLevel := level;
      AtMostOneLevelPerGain(xp, xpGained);
      xp := xp + xpGained;
      level := CalculateLevel(xp);

      var leveledUp := level > oldLevel;
      var title := GetTitle(level);
      ProgressIsRemainder(xp);
      var xpProgress := XpProgress(xp, level);

      report := HomeReport(level, title, xp, xpProgress, requests, xpGained, critical, leveledUp);
    }

    /**
     * `stats`: the XP still needed for the next level lies in [1, 100] and the
     * progress bar always has ten cells.
     */
    method Stats() returns (report: StatsReport)
      requires Valid()
      ensures report.level == level && report.totalXp == xp && report.totalRequests == requests
      ensures report.title == Titles[TitleRank(level)]
      ensures report.xpToNextLevel == XpPerLevel - xp % XpPerLevel
      ensures 1 <= report.xpToNextLevel <= XpPerLevel
      ensures report.progressBar == ProgressBar(xp % XpPerLevel) && |report.progressBar| == BarCells
    {
      var title := GetTitle(level);
      ProgressIsRemainder(xp);
      var xpProgress := XpProgress(xp, level);
      report := StatsReport(level, title, xp, XpPerLevel - xpProgress, ProgressBar(xpProgress), requests);
    }
  }
}
