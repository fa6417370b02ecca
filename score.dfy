/**
 * The best score kept in the browser's storage under the key 'bestScore'
 * (src/scenes/PlayScene.js:206-213). The stored text is modelled as the
 * integer it parses to, or None when the key is absent.
 */
module Score {

  import opened Util

  /** The stored best as the game reads it: absent counts as 0. */
  function StoredOrZero(stored: Option<int>): int {
    match stored
    case None => 0
    case Some(v) => v
  }

  /**
   * saveBestScore: write the current score when nothing (or a zero) is stored
   * or when the score beats the stored value. For any non-negative score the
   * stored best becomes the larger of the old best and the score.
   */
  function SaveBest(stored: Option<int>, score: int): (r: Option<int>)
    ensures r.Some?
    ensures 0 <= score ==> r == Some(Max(StoredOrZero(stored), score))
  {
    if stored.None? || stored.value == 0 || score > stored.value then Some(score) else stored
  }

  /** Saving never lowers the stored best and leaves it at least the score. */
  lemma SaveBestNeverLowers(stored: Option<int>, score: nat)
    ensures StoredOrZero(stored) <= StoredOrZero(SaveBest(stored, score))
    ensures score <= StoredOrZero(SaveBest(stored, score))
  {
  }

  /** Saving the same score a second time changes nothing. */
  lemma SaveBestIdempotent(stored: Option<int>, score: nat)
    ensures SaveBest(SaveBest(stored, score), score) == SaveBest(stored, score)
  {
  }

  /** The stored best after a run of saves, one per score in order. */
  function SaveAll(stored: Option<int>, scores: seq<nat>): Option<int> {
    if scores == [] then stored
    else SaveBest(SaveAll(stored, scores[..|scores| - 1]), scores[|scores| - 1])
  }

  /** The largest of `base` and every score in `scores`. */
  function MaxOf(base: int, scores: seq<nat>): int {
    if scores == [] then base else Max(MaxOf(base, scores[..|scores| - 1]), scores[|scores| - 1])
  }

  /**
   * Across any sequence of saves (clearances and game-overs, over any number
   * of runs) the stored best ends as the maximum of what was stored first and
   * every score saved.
   */
  lemma {:induction false} SaveAllKeepsMaximum(stored: Option<int>, scores: seq<nat>)
    ensures StoredOrZero(SaveAll(stored, scores)) == MaxOf(StoredOrZero(stored), scores)
  {
    if scores != [] {
      SaveAllKeepsMaximum(stored, scores[..|scores| - 1]);
    }
  }

}
