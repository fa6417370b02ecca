/**
 * The difficulty tiers of the play scene: each tier bounds the two random
 * draws that place an obstacle pair (src/scenes/PlayScene.js:22-35), and the
 * active tier follows the score (src/scenes/PlayScene.js:39, 242-250).
 */
module Difficulty {

  datatype Tier = Easy | Normal | Hard

  /** An inclusive integer range, the kind Phaser.Math.Between draws from. */
  datatype Range = Range(lo: int, hi: int) {
    predicate Contains(v: int) {
      lo <= v <= hi
    }
  }

  /** pipeHorizontalDistanceRange: how far right of the rightmost pipe a new pair goes. */
  function HorizontalDistanceRange(t: Tier): (r: Range)
    ensures 0 < MinHorizontalDistance <= r.lo <= r.hi
  {
    match t
    case Easy => Range(300, 350)
    case Normal => Range(280, 330)
    case Hard => Range(250, 300)
  }

  /** pipeVerticalDistanceRange: the height of the gap between the two halves. */
  function VerticalDistanceRange(t: Tier): (r: Range)
    ensures MinGap <= r.lo <= r.hi <= MaxGap
  {
    match t
    case Easy => Range(150, 200)
    case Normal => Range(140, 190)
    case Hard => Range(120, 170)
  }

  /** A scene starts, and restarts, at the hardest tier. */
  const InitialTier := Hard

  /** Bounds that hold across the whole table. */
  const MinHorizontalDistance := 250
  const MinGap := 120
  const MaxGap := 200

  /** Every tier's ranges are non-empty and lie within the table-wide bounds. */
  lemma TierRangesWithinBounds(t: Tier)
    ensures HorizontalDistanceRange(t).lo <= HorizontalDistanceRange(t).hi
    ensures VerticalDistanceRange(t).lo <= VerticalDistanceRange(t).hi
    ensures MinHorizontalDistance <= HorizontalDistanceRange(t).lo
    ensures MinGap <= VerticalDistanceRange(t).lo && VerticalDistanceRange(t).hi <= MaxGap
  {
  }

  /**
   * The tier that is active once the score has reached `score` by steps of one
   * from 0: the switches to normal at 10 and back to hard at 20 are the only
   * ones, so the easy tier is never selected.
   */
  function TierFor(score: int): (t: Tier)
    ensures t != Easy
    ensures score < 10 ==> t == InitialTier
  {
    if 10 <= score < 20 then Normal else Hard
  }

  /**
   * One increment of the score followed by increaseDifficulty's two equality
   * tests keeps the tier equal to TierFor of the score.
   */
  lemma TierForStep(score: nat)
    ensures TierFor(0) == InitialTier
    ensures TierFor(score + 1) ==
      if score + 1 == 10 then Normal
      else if score + 1 == 20 then Hard
      else TierFor(score)
    ensures TierFor(score) != Easy
  {
  }

}
