/**
 * The resume countdown (src/scenes/PlayScene.js:176-198) and the
 * out-of-bounds test (src/scenes/PlayScene.js:200-204) of the play scene.
 */
module Lifecycle {

  /** The resume handler restarts the countdown at 3 seconds. */
  const ResumeSeconds := 3

  /** The countdown counter and the scene's isPaused flag. */
  datatype Countdown = Countdown(time: int, paused: bool)

  /** One countDown tick: decrement, and clear the pause once the counter is at or below 0. */
  function Tick(c: Countdown): (r: Countdown)
    ensures r.time == c.time - 1
    ensures r.paused ==> c.paused
    ensures r.time <= 0 ==> !r.paused
  {
    var t := c.time - 1;
    Countdown(t, if t <= 0 then false else c.paused)
  }

  function AfterTicks(c: Countdown, k: nat): Countdown {
    if k == 0 then c else Tick(AfterTicks(c, k - 1))
  }

  /**
   * Starting paused with `n` seconds on the counter, the scene stays paused
   * for the first n - 1 ticks and is unpaused exactly on tick n.
   */
  lemma {:induction false} CountdownUnpausesOnLastTick(n: int, k: nat)
    requires 0 < n && k <= n
    ensures AfterTicks(Countdown(n, true), k) == Countdown(n - k, k < n)
  {
    if k > 0 {
      CountdownUnpausesOnLastTick(n, k - 1);
    }
  }

  /** From the resume handler's 3: paused after ticks one and two, running after tick three. */
  lemma ResumeTakesThreeTicks()
    ensures AfterTicks(Countdown(ResumeSeconds, true), 1).paused
    ensures AfterTicks(Countdown(ResumeSeconds, true), 2).paused
    ensures !AfterTicks(Countdown(ResumeSeconds, true), 3).paused
  {
    CountdownUnpausesOnLastTick(ResumeSeconds, 1);
    CountdownUnpausesOnLastTick(ResumeSeconds, 2);
    CountdownUnpausesOnLastTick(ResumeSeconds, 3);
  }

  /**
   * checkGameStatus's condition: the bird's bottom edge at or below the
   * playfield's height, or its y at most 0 (its top at or above the top edge).
   */
  predicate OutOfBounds(birdY: int, birdHeight: int, height: int)
    ensures 0 < birdY && birdY + birdHeight < height ==> !OutOfBounds(birdY, birdHeight, height)
  {
    birdY + birdHeight >= height || birdY <= 0
  }

  /**
   * A bird shorter than half the playfield, placed at half its height, is in
   * bounds: a scene never starts in the game-over condition.
   */
  lemma StartInBounds(height: int, birdHeight: int)
    requires 2 <= height && 0 <= birdHeight < height - height / 2
    ensures !OutOfBounds(height / 2, birdHeight, height)
  {
  }

}
