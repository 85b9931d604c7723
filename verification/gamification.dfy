/**
 * Experience points, user levels and muscle ranks awarded for saved sets.
 */
module Gamification {
  import opened Basics

  /**
   * The XP needed for the next level. It starts at 250 and only grows, so it is
   * never below 1; with 0 the level-up loop would never end.
   */
  type XpStep = n: int | n >= 1 witness 250

  const InitialXpForNextLevel: XpStep := 250

  /** A muscle rank tier (the colour and icon of the source are display-only). */
  datatype Rank = Rank(name: string, threshold: int)

  const MuscleRanks: seq<Rank> := [
    Rank("Anfänger", 0), Rank("Amateur", 250), Rank("Profi", 1000), Rank("Elite", 2500), Rank("Titan", 5000)]

  /** The index of the highest tier whose threshold `xp` reaches; tier 0 when none is reached. */
  function RankIndexFor(xp: int): (i: nat)
    ensures i < |MuscleRanks|
    ensures xp >= 0 ==> MuscleRanks[i].threshold <= xp
    ensures i + 1 < |MuscleRanks| ==> xp < MuscleRanks[i + 1].threshold
  {
    if xp >= 5000 then 4 else if xp >= 2500 then 3 else if xp >= 1000 then 2 else if xp >= 250 then 1 else 0
  }

  /** More XP never lowers the rank. */
  lemma RankMonotone(a: int, b: int)
    requires a <= b
    ensures RankIndexFor(a) <= RankIndexFor(b)
  {
  }

  /**
   * getRankForMuscle: walk the tiers in order, keep the last one reached and
   * stop at the first threshold not met.
   */
  method GetRankForMuscle(xp: int) returns (rank: Rank)
    ensures rank == MuscleRanks[RankIndexFor(xp)]
    ensures forall j :: 0 <= j < |MuscleRanks| && MuscleRanks[j].threshold <= xp ==> MuscleRanks[j].threshold <= rank.threshold
  {
    rank := MuscleRanks[0];
    var i := 0;
    while i < |MuscleRanks| && xp >= MuscleRanks[i].threshold
      invariant 0 <= i <= |MuscleRanks|
      invariant forall j :: 0 <= j < i ==> MuscleRanks[j].threshold <= xp
      invariant rank == MuscleRanks[if i == 0 then 0 else i - 1]
    {
      rank := MuscleRanks[i];
      i := i + 1;
    }
  }

  /** The quality bonus: x1.5 above 90, x1.2 above 80. */
  function QualityMultiplier(quality: int): (m: real)
    ensures 1.0 <= m <= 1.5
  {
    if quality > 90 then 1.5 else if quality > 80 then 1.2 else 1.0
  }

  /** calculateXP: five XP per rep, scaled by the quality bonus, plus half the weight, rounded. */
  function CalculateXP(reps: nat, quality: int, weight: real): (xp: int)
    ensures weight >= 0.0 ==> xp >= 5 * reps
    ensures weight == 0.0 ==> xp <= Round(7.5 * reps as real)
    ensures quality <= 80 && weight == 0.0 ==> xp == 5 * reps
  {
    var points := (reps * 5) as real;
    var base := if quality > 90 then points * 1.5 else if quality > 80 then points * 1.2 else points;
    var withWeight := if weight > 0.0 then base + weight * 0.5 else base;
    Round(withWeight)
  }

  /** A better quality score never earns less XP for the same set. */
  lemma CalculateXPMonotoneInQuality(reps: nat, q1: int, q2: int, weight: real)
    requires q1 <= q2
    ensures CalculateXP(reps, q1, weight) <= CalculateXP(reps, q2, weight)
  {
    var m1, m2 := QualityMultiplier(q1), QualityMultiplier(q2);
    assert m1 <= m2;
    assert (reps * 5) as real * m1 <= (reps * 5) as real * m2;
    var w := if weight > 0.0 then weight * 0.5 else 0.0;
    RoundMonotone((reps * 5) as real * m1 + w, (reps * 5) as real * m2 + w);
  }

  /** The level counters of the gamification state. */
  datatype Progress = Progress(userLevel: int, currentXP: int, xpForNextLevel: XpStep)

  /** The next threshold: Math.floor(xpForNextLevel * 1.2), never smaller than the current one. */
  function NextXpStep(n: XpStep): (m: XpStep)
    ensures n <= m
  {
    Floor(n as real * 1.2)
  }

  /**
   * What the level-up loop of processGamification computes: while the XP
   * reaches the threshold, gain a level, pay the threshold and raise it.
   */
  function LevelUp(p: Progress): (r: Progress)
    ensures r.currentXP < r.xpForNextLevel
    ensures p.userLevel <= r.userLevel
    ensures p.xpForNextLevel <= r.xpForNextLevel
    ensures p.currentXP >= 0 ==> r.currentXP >= 0
    ensures r.currentXP <= p.currentXP
    ensures p.currentXP < p.xpForNextLevel <==> r == p
    decreases p.currentXP
  {
    if p.currentXP < p.xpForNextLevel then p
    else LevelUp(Progress(p.userLevel + 1, p.currentXP - p.xpForNextLevel, NextXpStep(p.xpForNextLevel)))
  }
}
