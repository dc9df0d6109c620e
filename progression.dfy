/**
 The player's progression: experience, level and money change only when a
 crop is harvested, and the day counter only when a day ends.
 */
module Progression {
  import opened Types
  import opened Constants

  /** Money a harvested crop sells for. */
  const SELL_VALUE: int := 15

  /** The record a new game starts with. */
  const InitialGameState: GameState := GameState(0, 1, 1, 100)

  /** The level that goes with an amount of experience: one per XP_PER_LEVEL points, from 1. */
  function LevelFor(xp: int): (level: int)
    ensures xp >= 0 ==> level >= 1
    ensures xp >= 0 ==> (level - 1) * XP_PER_LEVEL <= xp < level * XP_PER_LEVEL
  {
    xp / XP_PER_LEVEL + 1
  }

  lemma LevelForMonotone(x1: int, x2: int)
    requires x1 <= x2
    ensures LevelFor(x1) <= LevelFor(x2)
  {
  }

  /** Experience is never negative, the level is the one the experience gives, the calendar starts at day 1. */
  predicate Consistent(g: GameState) {
    g.xp >= 0 && g.level == LevelFor(g.xp) && g.day >= 1
  }

  lemma InitialConsistent()
    ensures Consistent(InitialGameState)
  {
  }

  /**
   Credits a harvest: the crop's experience, a fresh level computed from
   the new total, and the sell value. The day does not change.
   */
  function RecordHarvest(g: GameState, xpGain: int): (r: GameState)
    ensures r.xp == g.xp + xpGain
    ensures r.money == g.money + SELL_VALUE && r.day == g.day
    ensures r.level == LevelFor(r.xp)
    ensures Consistent(g) && xpGain >= 0 ==>
              Consistent(r) && g.xp <= r.xp && g.level <= r.level
  {
    var newXp := g.xp + xpGain;
    g.(xp := newXp, level := LevelFor(newXp), money := g.money + SELL_VALUE)
  }

  /**
   The level-up flag as the game computes it: the new experience's whole
   hundreds compared with the level held before the harvest.
   */
  function LeveledUp(g: GameState, xpGain: int): (up: bool)
    ensures Consistent(g) ==> (up <==> LevelFor(g.xp + xpGain) >= g.level + 2)
  {
    (g.xp + xpGain) / XP_PER_LEVEL > g.level
  }

  /**
   Because the stored level is already one more than the whole hundreds,
   the flag is raised only when one harvest lifts the level by two or more.
   */
  lemma LevelUpOnlyOnDoubleJump(g: GameState, xpGain: int)
    requires Consistent(g)
    ensures LeveledUp(g, xpGain) <==> RecordHarvest(g, xpGain).level >= g.level + 2
  {
  }

  /** A harvest from 90 to 140 experience raises the level but not the flag. */
  lemma LevelUpMissedOnSingleJump()
    ensures var g := GameState(90, 1, 1, 100);
            Consistent(g) && RecordHarvest(g, 50).level == g.level + 1 && !LeveledUp(g, 50)
  {
  }

  /** Ends the day: the counter moves on by one and nothing else changes. */
  function NewDay(g: GameState): (r: GameState)
    ensures r.day == g.day + 1
    ensures r.xp == g.xp && r.level == g.level && r.money == g.money
    ensures Consistent(g) ==> Consistent(r)
  {
    g.(day := g.day + 1)
  }

  /** The total of a run of experience rewards. */
  function Sum(gains: seq<int>): int {
    if gains == [] then 0 else gains[0] + Sum(gains[1..])
  }

  /** The record after a run of harvests, in order. */
  function HarvestAll(g: GameState, gains: seq<int>): GameState
    decreases |gains|
  {
    if gains == [] then g else HarvestAll(RecordHarvest(g, gains[0]), gains[1..])
  }

  /**
   Over any run of harvests with non-negative rewards, the level stays the
   one the experience gives, experience adds up the rewards, money grows by
   the sell value per harvest and the day does not move.
   */
  lemma {:induction false} HarvestsKeepLevelFormula(g: GameState, gains: seq<int>)
    requires Consistent(g)
    requires forall i :: 0 <= i < |gains| ==> gains[i] >= 0
    ensures Consistent(HarvestAll(g, gains))
    ensures HarvestAll(g, gains).xp == g.xp + Sum(gains) >= g.xp
    ensures HarvestAll(g, gains).money == g.money + SELL_VALUE * |gains|
    ensures HarvestAll(g, gains).day == g.day
    decreases |gains|
  {
    if gains != [] {
      HarvestsKeepLevelFormula(RecordHarvest(g, gains[0]), gains[1..]);
    }
  }
}
