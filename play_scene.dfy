/**
 * The play scene (src/scenes/PlayScene.js) with Phaser's rendering, timers
 * and storage replaced by plain fields: the obstacle group is an array of
 * pipes, the stored best score an optional integer, the physics engine's
 * pause flag a boolean, and each random draw a parameter.
 */
module Play {

  import opened Util
  import opened Difficulty
  import opened ObstacleStream
  import opened Score
  import opened Lifecycle

  /** flapVelocity: a flap sets the bird's vertical velocity to minus this. */
  const FlapVelocity := 300

  /** The smallest playfield in which every tier's gap fits between the two margins. */
  const MinHeight := 2 * Margin + MaxGap

  /** The four draws createPipes makes, all from the initial tier. */
  predicate InitialDraws(draws: seq<Draw>, height: int) {
    |draws| == PipesToRender && DrawsFit(draws, InitialTier, height)
  }

  class PlayScene {
    /** config.height, the pipe sprites' width and the bird sprite's height. */
    const height: int
    const pipeWidth: nat
    const birdHeight: int
    /** startPosition.y: half the playfield's height. */
    const startY: int

    /** The pipe group, in creation order. */
    var pipes: array<Pipe>
    var score: int
    var currentDifficulty: Tier
    /** localStorage 'bestScore', as the integer it parses to. */
    var storedBest: Option<int>
    var isPaused: bool
    /** this.physics.pause() / resume(). */
    var physicsPaused: bool
    /** this.scene.pause() / the scene being resumed. */
    var sceneActive: bool
    var initialTime: int
    /** The repeating countdown timer is scheduled. */
    var countingDown: bool
    /** The delayed restart is scheduled. */
    var restartPending: bool
    var birdY: int
    var birdVelocity: int

    /**
     * The scene's invariant: the pool is four lined-up pairs in the field, the
     * tier is the one the score selects, and once the score is positive the
     * stored best has caught up with it.
     */
    ghost predicate Valid()
      reads this, pipes
    {
      && MinHeight <= height
      && PairsInField(pipes[..], height)
      && 0 <= score
      && currentDifficulty == TierFor(score)
      && (score == 0 || score <= StoredOrZero(storedBest))
    }

    /** The constructor, then create() as Phaser runs it when the scene starts. */
    constructor (height: int, pipeWidth: nat, birdHeight: int, stored: Option<int>, draws: seq<Draw>)
      requires MinHeight <= height
      requires InitialDraws(draws, height)
      ensures Valid() && fresh(pipes)
      ensures this.height == height && this.pipeWidth == pipeWidth && this.birdHeight == birdHeight
      ensures startY == height / 2 && storedBest == stored
      ensures currentDifficulty == InitialTier && score == 0 && CreatedFrom(pipes[..], draws)
      ensures birdY == startY && birdVelocity == 0
      ensures !isPaused && !physicsPaused && sceneActive && !countingDown && !restartPending
    {
      this.height := height;
      this.pipeWidth := pipeWidth;
      this.birdHeight := birdHeight;
      startY := height / 2;
      storedBest := stored;
      pipes := new Pipe[0];
      new;
      Create(draws);
    }

    /**
     * create(): the state a start or a restart leaves, whatever came before,
     * except the stored best, which outlives the scene.
     */
    method Create(draws: seq<Draw>)
      requires MinHeight <= height
      requires InitialDraws(draws, height)
      modifies this
      ensures Valid() && fresh(pipes)
      ensures currentDifficulty == InitialTier && score == 0 && CreatedFrom(pipes[..], draws)
      ensures birdY == startY && birdVelocity == 0
      ensures !isPaused && !physicsPaused && sceneActive && !countingDown && !restartPending
      ensures storedBest == old(storedBest) && initialTime == old(initialTime)
    {
      currentDifficulty := InitialTier;
      birdY, birdVelocity := startY, 0;
      score := 0;
      isPaused := false;
      physicsPaused, sceneActive, countingDown, restartPending := false, true, false, false;
      CreatePipes(draws);
      CreatedPairsInField(pipes[..], draws, InitialTier, height);
    }

    /**
     * createPipes: a fresh group of PoolSize pipes, pair i placed with draw i:
     * both halves at the sum of the first i + 1 offsets, so the pairs lie
     * strictly left to right in creation order.
     */
    method CreatePipes(draws: seq<Draw>)
      requires |draws| == PipesToRender
      requires DrawsFit(draws, currentDifficulty, height)
      modifies this`pipes
      ensures fresh(pipes)
      ensures CreatedFrom(pipes[..], draws)
      ensures forall a, b :: 0 <= a < b < pipes.Length && a / 2 < b / 2 ==> pipes[a].x < pipes[b].x
    {
      // Pipes not created yet sit at (0, 0): the max-fold starts at 0, so they
      // do not change the anchor of the pairs placed before them.
      pipes := new Pipe[PoolSize](_ => Pipe(0, 0));
      var i := 0;
      while i < PipesToRender
        invariant 0 <= i <= PipesToRender
        invariant fresh(pipes) && pipes.Length == PoolSize
        invariant PairsPlaced(pipes[..], draws, i)
        invariant forall k :: 2 * i <= k < PoolSize ==> pipes[k] == Pipe(0, 0)
      {
        PlaceNextPair(pipes[..], draws, currentDifficulty, height, i);
        PlacePipe(2 * i, 2 * i + 1, draws[i]);
        i := i + 1;
      }
      CreatedIncreasing(pipes[..], draws, currentDifficulty, height);
    }

    /**
     * placePipe: the two given pipes become the pair Place computes from the
     * current tier and the group's rightmost x; no other pipe moves.
     */
    method PlacePipe(upper: nat, lower: nat, d: Draw)
      requires upper < pipes.Length && lower < pipes.Length
      requires ValidDraw(d, currentDifficulty, height)
      modifies pipes
      ensures pipes[..] == old(pipes[..])
        [upper := Place(currentDifficulty, RightMostX(old(pipes[..])), height, d).0]
        [lower := Place(currentDifficulty, RightMostX(old(pipes[..])), height, d).1]
    {
      var rightMostX := GetRightMostPipeX();
      var pair := Place(currentDifficulty, rightMostX, height, d);
      pipes[upper] := pair.0;
      pipes[lower] := pair.1;
    }

    /**
     * getRightMostPipeX: at least 0 and every pipe's x, and equal to 0 or to
     * some pipe's x.
     */
    method GetRightMostPipeX() returns (rightMostX: int)
      ensures rightMostX == RightMostX(pipes[..])
      ensures 0 <= rightMostX
      ensures forall k :: 0 <= k < pipes.Length ==> pipes[k].x <= rightMostX
      ensures rightMostX == 0 || exists k :: 0 <= k < pipes.Length && pipes[k].x == rightMostX
    {
      rightMostX := 0;
      var i := 0;
      while i < pipes.Length
        invariant 0 <= i <= pipes.Length
        invariant rightMostX == RightMostX(pipes[..i])
      {
        assert pipes[..i + 1][..i] == pipes[..i];
        rightMostX := Max(pipes[i].x, rightMostX);
        i := i + 1;
      }
      assert pipes[..i] == pipes[..];
      RightMostXIsMax(pipes[..]);
    }

    /**
     * recyclePipes: one scan of the group in order, collecting stale pipes;
     * when the second is found the first two are re-placed, and the score,
     * the stored best and the tier are updated once. Without two stale pipes
     * nothing changes.
     */
    method RecyclePipes(d: Draw)
      requires Valid()
      requires ValidDraw(d, currentDifficulty, height)
      modifies pipes, this`score, this`storedBest, this`currentDifficulty
      ensures Valid()
      ensures pipes[..] == Recycled(old(pipes[..]), pipeWidth, old(currentDifficulty), height, d)
      ensures score == if Recycles(old(pipes[..]), pipeWidth) then old(score) + 1 else old(score)
      ensures storedBest ==
        if Recycles(old(pipes[..]), pipeWidth) then SaveBest(old(storedBest), score) else old(storedBest)
    {
      ghost var s0, score0, best0, tier0 := pipes[..], score, storedBest, currentDifficulty;
      var tempPipes: seq<nat> := [];
      var i := 0;
      while i < pipes.Length
        invariant 0 <= i <= pipes.Length
        invariant tempPipes == StaleIndices(s0[..i], pipeWidth)
        invariant pipes[..] == Scanned(s0, i, pipeWidth, tier0, height, d)
        invariant score == if |tempPipes| < 2 then score0 else score0 + 1
        invariant storedBest == if |tempPipes| < 2 then best0 else SaveBest(best0, score)
        invariant currentDifficulty == TierFor(score)
      {
        ScanStep(s0, i, pipeWidth, tier0, height, d);
        StaleIndicesStep(s0, i, pipeWidth);
        if IsStale(pipes[i], pipeWidth) {
          tempPipes := tempPipes + [i];
          if |tempPipes| == 2 {
            PlacePipe(tempPipes[0], tempPipes[1], d);
            IncreaseScore();
            SaveBestScore();
            IncreaseDifficulty();
            TierForStep(score0);
          }
        }
        i := i + 1;
      }
      assert s0[..i] == s0;
      ScannedAll(s0, pipeWidth, tier0, height, d);
      RecyclePreservesPairs(s0, pipeWidth, tier0, height, d);
      if Recycles(s0, pipeWidth) {
        SaveBestNeverLowers(best0, score);
      }
    }

    /** increaseScore: one more point. */
    method IncreaseScore()
      modifies this`score
      ensures score == old(score) + 1
    {
      score := score + 1;
    }

    /** saveBestScore: the stored best becomes SaveBest of the stored value and the score. */
    method SaveBestScore()
      modifies this`storedBest
      ensures storedBest == SaveBest(old(storedBest), score)
    {
      var bestScore := storedBest;
      if bestScore.None? || bestScore.value == 0 || score > bestScore.value {
        storedBest := Some(score);
      }
    }

    /**
     * increaseDifficulty: normal exactly when the score is 10, hard exactly
     * when it is 20, otherwise the tier is left as it is.
     */
    method IncreaseDifficulty()
      modifies this`currentDifficulty
      ensures score == 10 ==> currentDifficulty == Normal
      ensures score == 20 ==> currentDifficulty == Hard
      ensures score != 10 && score != 20 ==> currentDifficulty == old(currentDifficulty)
    {
      if score == 10 {
        currentDifficulty := Normal;
      }
      if score == 20 {
        currentDifficulty := Hard;
      }
    }

    /**
     * update(): the bounds check, then one recycling scan. Pipes, score and
     * tier follow the scan; the stored best follows the game-over save (if
     * any) and then the clearance save (if any), so it never goes down.
     */
    method Update(d: Draw)
      requires Valid()
      requires ValidDraw(d, currentDifficulty, height)
      modifies pipes, this`score, this`storedBest, this`currentDifficulty
      modifies this`physicsPaused, this`restartPending
      ensures Valid()
      ensures var over := OutOfBounds(birdY, birdHeight, height);
        && restartPending == (old(restartPending) || over)
        && physicsPaused == (old(physicsPaused) || over)
      ensures pipes[..] == Recycled(old(pipes[..]), pipeWidth, old(currentDifficulty), height, d)
      ensures score == if Recycles(old(pipes[..]), pipeWidth) then old(score) + 1 else old(score)
      ensures var afterCheck :=
          if OutOfBounds(birdY, birdHeight, height) then SaveBest(old(storedBest), old(score))
          else old(storedBest);
        storedBest == if Recycles(old(pipes[..]), pipeWidth) then SaveBest(afterCheck, score) else afterCheck
      ensures StoredOrZero(old(storedBest)) <= StoredOrZero(storedBest)
    {
      CheckGameStatus();
      RecyclePipes(d);
      SaveBestNeverLowers(old(storedBest), old(score));
      SaveBestNeverLowers(old(storedBest), score);
    }

    /** checkGameStatus: game over exactly when the bird is out of bounds. */
    method CheckGameStatus()
      requires Valid()
      modifies this`physicsPaused, this`storedBest, this`restartPending
      ensures Valid()
      ensures var over := OutOfBounds(birdY, birdHeight, height);
        && restartPending == (old(restartPending) || over)
        && physicsPaused == (old(physicsPaused) || over)
        && storedBest == if over then SaveBest(old(storedBest), score) else old(storedBest)
    {
      if birdY + birdHeight >= height || birdY <= 0 {
        GameOver();
      }
    }

    /**
     * gameOver: physics stops, the best score is saved and a restart is
     * scheduled; the pipes, score and tier are left for the restart to reset.
     */
    method GameOver()
      requires Valid()
      modifies this`physicsPaused, this`storedBest, this`restartPending
      ensures Valid()
      ensures physicsPaused && restartPending
      ensures storedBest == SaveBest(old(storedBest), score)
    {
      physicsPaused := true;
      SaveBestScore();
      SaveBestNeverLowers(old(storedBest), score);
      restartPending := true;
    }

    /** The delayed restart: create() runs again on the same scene. */
    method Restart(draws: seq<Draw>)
      requires restartPending
      requires MinHeight <= height
      requires InitialDraws(draws, height)
      modifies this
      ensures Valid() && fresh(pipes)
      ensures currentDifficulty == InitialTier && score == 0 && CreatedFrom(pipes[..], draws)
      ensures birdY == startY && birdVelocity == 0
      ensures !isPaused && !physicsPaused && sceneActive && !countingDown && !restartPending
      ensures storedBest == old(storedBest)
    {
      Create(draws);
    }

    /** flap: no effect while paused, otherwise the velocity is set (not added to). */
    method Flap()
      modifies this`birdVelocity
      ensures birdVelocity == if isPaused then old(birdVelocity) else -FlapVelocity
    {
      if isPaused {
        return;
      }
      birdVelocity := -FlapVelocity;
    }

    /** The pause button: the scene, its physics and its update loop all stop. */
    method Pause()
      modifies this`isPaused, this`physicsPaused, this`sceneActive
      ensures isPaused && physicsPaused && !sceneActive
    {
      isPaused := true;
      physicsPaused := true;
      sceneActive := false;
    }

    /**
     * The 'resume' handler: the scene runs again but stays paused, with the
     * counter at 3 and the one-second countdown scheduled.
     */
    method OnResume()
      modifies this`sceneActive, this`initialTime, this`countingDown
      ensures sceneActive && initialTime == ResumeSeconds && countingDown
    {
      sceneActive := true;
      initialTime := ResumeSeconds;
      countingDown := true;
    }

    /**
     * countDown: one Tick of the counter and the pause flag; once the counter
     * is at or below 0 the timer is removed and physics resumes.
     */
    method CountDown()
      modifies this`initialTime, this`isPaused, this`countingDown, this`physicsPaused
      ensures Countdown(initialTime, isPaused) == Tick(Countdown(old(initialTime), old(isPaused)))
      ensures countingDown == (old(countingDown) && 0 < initialTime)
      ensures physicsPaused == (old(physicsPaused) && 0 < initialTime)
    {
      initialTime := initialTime - 1;
      if initialTime <= 0 {
        isPaused := false;
        countingDown := false;
        physicsPaused := false;
      }
    }

    /**
     * The physics engine's step, which the scene does not code itself: while
     * physics runs, every pipe moves left by dx and the bird takes the given
     * position and velocity; while it is paused nothing moves.
     */
    method Advance(dx: nat, newBirdY: int, newBirdVelocity: int)
      requires Valid()
      modifies pipes, this`birdY, this`birdVelocity
      ensures Valid()
      ensures physicsPaused ==>
        pipes[..] == old(pipes[..]) && birdY == old(birdY) && birdVelocity == old(birdVelocity)
      ensures !physicsPaused ==>
        pipes[..] == Shifted(old(pipes[..]), dx) && birdY == newBirdY && birdVelocity == newBirdVelocity
    {
      if !physicsPaused {
        forall k | 0 <= k < pipes.Length {
          pipes[k] := pipes[k].(x := pipes[k].x - dx);
        }
        birdY, birdVelocity := newBirdY, newBirdVelocity;
        assert pipes[..] == Shifted(old(pipes[..]), dx);
        ShiftPreservesPairs(old(pipes[..]), dx, height);
      }
    }
  }

}
