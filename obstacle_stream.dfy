/**
 * The obstacle pool of the play scene as values: a flat sequence of pipes in
 * group order, upper halves at even positions and lower halves at odd ones
 * (src/scenes/PlayScene.js:81-136). The scene class in play_scene.dfy keeps
 * the pool in an array and is specified by the functions here.
 */
module ObstacleStream {

  import opened Util
  import opened Difficulty

  /** PIPES_TO_RENDER pairs, so the group holds twice as many pipes. */
  const PipesToRender: nat := 4
  const PoolSize: nat := 2 * PipesToRender

  /** The margin kept free above and below a gap. */
  const Margin := 20

  /**
   * One pipe sprite's position. Both halves have origin x 0, so x is the left
   * edge; y is the bottom edge of an upper half and the top edge of a lower one.
   */
  datatype Pipe = Pipe(x: int, y: int)

  /** getRightMostPipeX: Math.max folded over the group from 0, in group order. */
  function RightMostX(s: seq<Pipe>): (r: int)
    ensures 0 <= r
  {
    if s == [] then 0 else Max(s[|s| - 1].x, RightMostX(s[..|s| - 1]))
  }

  /** The fold is the maximum of 0 and every pipe's x. */
  lemma {:induction false} RightMostXIsMax(s: seq<Pipe>)
    ensures 0 <= RightMostX(s)
    ensures forall k :: 0 <= k < |s| ==> s[k].x <= RightMostX(s)
    ensures RightMostX(s) == 0 || exists k :: 0 <= k < |s| && s[k].x == RightMostX(s)
  {
    if s != [] {
      var init := s[..|s| - 1];
      RightMostXIsMax(init);
      assert forall k :: 0 <= k < |init| ==> init[k] == s[k];
    }
  }

  /** A value that is at least 0 and every x, and is 0 or some x, is the fold. */
  lemma RightMostXEquals(s: seq<Pipe>, m: int)
    requires 0 <= m
    requires forall k :: 0 <= k < |s| ==> s[k].x <= m
    requires m == 0 || exists k :: 0 <= k < |s| && s[k].x == m
    ensures RightMostX(s) == m
  {
    RightMostXIsMax(s);
  }

  /**
   * The three Phaser.Math.Between draws of placePipe: the gap from the tier's
   * vertical range, the upper half's bottom edge from [20, height - 20 - gap],
   * and the offset from the tier's horizontal range, all inclusive.
   */
  datatype Draw = Draw(gap: int, top: int, offset: int)

  predicate ValidDraw(d: Draw, t: Tier, height: int) {
    && VerticalDistanceRange(t).Contains(d.gap)
    && Margin <= d.top <= height - Margin - d.gap
    && HorizontalDistanceRange(t).Contains(d.offset)
  }

  /**
   * placePipe's arithmetic: the (upper, lower) pair it puts at the given
   * rightmost x. Both halves share one x, that x is a tier offset right of the
   * anchor, the gap is a tier gap, and the gap with its margins fits the field.
   */
  function Place(t: Tier, rightMostX: int, height: int, d: Draw): (pair: (Pipe, Pipe))
    requires ValidDraw(d, t, height)
    ensures pair.0.x == pair.1.x
    ensures HorizontalDistanceRange(t).Contains(pair.0.x - rightMostX)
    ensures VerticalDistanceRange(t).Contains(pair.1.y - pair.0.y)
    ensures Margin <= pair.0.y && pair.1.y <= height - Margin
  {
    var x := rightMostX + d.offset;
    (Pipe(x, d.top), Pipe(x, d.top + d.gap))
  }

  /** A pipe whose right edge, x plus the sprite's width, is at or left of 0. */
  predicate IsStale(p: Pipe, width: int)
    ensures IsStale(p, width) && 0 <= width ==> p.x <= 0
  {
    p.x + width <= 0
  }

  /** The positions recyclePipes pushes onto tempPipes, in scan order. */
  function StaleIndices(s: seq<Pipe>, width: int): (r: seq<nat>)
    ensures forall j :: 0 <= j < |r| ==> r[j] < |s|
  {
    if s == [] then []
    else
      var r := StaleIndices(s[..|s| - 1], width);
      if IsStale(s[|s| - 1], width) then r + [|s| - 1] else r
  }

  /** tempPipes holds exactly the stale pipes' positions, each once, in increasing order. */
  lemma {:induction false} StaleIndicesSpec(s: seq<Pipe>, width: int)
    ensures forall j :: 0 <= j < |StaleIndices(s, width)| ==> IsStale(s[StaleIndices(s, width)[j]], width)
    ensures forall k :: 0 <= k < |s| && IsStale(s[k], width) ==> k in StaleIndices(s, width)
    ensures forall a, b :: 0 <= a < b < |StaleIndices(s, width)| ==>
      StaleIndices(s, width)[a] < StaleIndices(s, width)[b]
  {
    if s != [] {
      var init := s[..|s| - 1];
      StaleIndicesSpec(init, width);
      var r0 := StaleIndices(init, width);
      var r := StaleIndices(s, width);
      assert r == if IsStale(s[|s| - 1], width) then r0 + [|s| - 1] else r0;
      forall j | 0 <= j < |r|
        ensures IsStale(s[r[j]], width)
      {
        if j < |r0| {
          assert IsStale(init[r0[j]], width);
          assert r[j] == r0[j] && init[r0[j]] == s[r0[j]];
        } else {
          assert r[j] == |s| - 1;
        }
      }
      forall k | 0 <= k < |s| && IsStale(s[k], width)
        ensures k in r
      {
        if k < |init| {
          assert init[k] == s[k];
          assert k in r0;
        }
      }
    }
  }

  /** Scanning one more pipe appends its position exactly when it is stale. */
  lemma StaleIndicesStep(s: seq<Pipe>, i: nat, width: int)
    requires i < |s|
    ensures StaleIndices(s[..i + 1], width) ==
      StaleIndices(s[..i], width) + if IsStale(s[i], width) then [i] else []
  {
    assert s[..i + 1][..i] == s[..i];
  }

  /** recyclePipes finds a second stale pipe during its scan. */
  predicate Recycles(s: seq<Pipe>, width: int) {
    |StaleIndices(s, width)| >= 2
  }

  /**
   * The group after one recyclePipes scan: the first two stale pipes in scan
   * order, whichever they are, are re-placed as an (upper, lower) pair
   * anchored at the group's rightmost x; without two stale pipes nothing moves.
   */
  function Recycled(s: seq<Pipe>, width: int, t: Tier, height: int, d: Draw): (r: seq<Pipe>)
    requires ValidDraw(d, t, height)
    ensures |r| == |s|
  {
    var stale := StaleIndices(s, width);
    StaleIndicesSpec(s, width);
    if |stale| < 2 then s
    else
      var pair := Place(t, RightMostX(s), height, d);
      s[stale[0] := pair.0][stale[1] := pair.1]
  }

  /**
   * The group after recyclePipes has scanned its first i pipes: once two
   * stale pipes have been found they are re-placed as in Recycled.
   */
  function Scanned(s: seq<Pipe>, i: nat, width: int, t: Tier, height: int, d: Draw): (r: seq<Pipe>)
    requires i <= |s| && ValidDraw(d, t, height)
    ensures |r| == |s|
  {
    var stale := StaleIndices(s[..i], width);
    StaleIndicesSpec(s[..i], width);
    if |stale| < 2 then s
    else
      var pair := Place(t, RightMostX(s), height, d);
      s[stale[0] := pair.0][stale[1] := pair.1]
  }

  /**
   * One step of the scan: pipe i is still as it was, and the group changes
   * only when pipe i is the second stale pipe found.
   */
  lemma ScanStep(s: seq<Pipe>, i: nat, width: int, t: Tier, height: int, d: Draw)
    requires i < |s| && ValidDraw(d, t, height)
    ensures |Scanned(s, i, width, t, height, d)| == |s|
    ensures Scanned(s, i, width, t, height, d)[i] == s[i]
    ensures |StaleIndices(s[..i], width)| < 2 ==> Scanned(s, i, width, t, height, d) == s
    ensures |StaleIndices(s[..i], width)| == 1 && IsStale(s[i], width) ==>
      var pair := Place(t, RightMostX(s), height, d);
      Scanned(s, i + 1, width, t, height, d) == s[StaleIndices(s[..i], width)[0] := pair.0][i := pair.1]
    ensures !(|StaleIndices(s[..i], width)| == 1 && IsStale(s[i], width)) ==>
      Scanned(s, i + 1, width, t, height, d) == Scanned(s, i, width, t, height, d)
  {
    StaleIndicesStep(s, i, width);
    var before := StaleIndices(s[..i], width);
    var after := StaleIndices(s[..i + 1], width);
    assert forall j :: 0 <= j < |before| ==> after[j] == before[j];
  }

  /** Scanning the whole group gives Recycled. */
  lemma ScannedAll(s: seq<Pipe>, width: int, t: Tier, height: int, d: Draw)
    requires ValidDraw(d, t, height)
    ensures Scanned(s, |s|, width, t, height, d) == Recycled(s, width, t, height, d)
  {
    assert s[..|s|] == s;
  }

  /**
   * A scan re-places at most one pair: only a pipe that was stale can move,
   * only the first two stale ones do, and both move exactly when there are two.
   */
  lemma RecycleTouchesFirstTwoStale(s: seq<Pipe>, width: int, t: Tier, height: int, d: Draw)
    requires ValidDraw(d, t, height)
    ensures |Recycled(s, width, t, height, d)| == |s|
    ensures forall k :: 0 <= k < |s| && Recycled(s, width, t, height, d)[k] != s[k] ==>
      IsStale(s[k], width) && Recycles(s, width) &&
      (k == StaleIndices(s, width)[0] || k == StaleIndices(s, width)[1])
    ensures !Recycles(s, width) ==> Recycled(s, width, t, height, d) == s
  {
    StaleIndicesSpec(s, width);
  }

  /**
   * A recycled pair shares one x, strictly right of every pipe of the group
   * before the scan and of every pipe the scan left alone.
   */
  lemma RecycledPairLeads(s: seq<Pipe>, width: int, t: Tier, height: int, d: Draw)
    requires ValidDraw(d, t, height)
    requires Recycles(s, width)
    ensures var st := StaleIndices(s, width);
      var r := Recycled(s, width, t, height, d);
      && r[st[0]].x == r[st[1]].x
      && (forall k :: 0 <= k < |s| ==> s[k].x < r[st[0]].x)
      && (forall k :: 0 <= k < |r| && k != st[0] && k != st[1] ==> r[k].x < r[st[0]].x)
  {
    StaleIndicesSpec(s, width);
    RightMostXIsMax(s);
    TierRangesWithinBounds(t);
  }

  /** The two halves of one pair lined up: same x, a gap the tiers allow, inside the margins. */
  predicate PairInField(upper: Pipe, lower: Pipe, height: int) {
    && upper.x == lower.x
    && MinGap <= lower.y - upper.y <= MaxGap
    && Margin <= upper.y
    && lower.y <= height - Margin
  }

  /** Pair slot i holds the upper half at 2i and the lower half at 2i + 1. */
  predicate SlotInField(s: seq<Pipe>, i: nat, height: int)
    requires 2 * i + 1 < |s|
  {
    PairInField(s[2 * i], s[2 * i + 1], height)
  }

  /** The pool invariant: every pair slot holds a lined-up pair. */
  predicate PairsInField(s: seq<Pipe>, height: int) {
    && |s| == PoolSize
    && forall i :: 0 <= i < PipesToRender ==> SlotInField(s, i, height)
  }

  /** In a lined-up pool both halves of a stale pipe's pair slot are stale. */
  lemma PairMateStale(s: seq<Pipe>, width: int, height: int, k: nat)
    requires PairsInField(s, height)
    requires k < |s| && IsStale(s[k], width)
    ensures IsStale(s[k - k % 2], width) && IsStale(s[k - k % 2 + 1], width)
  {
    assert SlotInField(s, k / 2, height);
  }

  /**
   * In a lined-up pool the first two stale pipes in scan order are always the
   * two halves of one pair slot, so scan-order pairing never splits a pair.
   */
  lemma FirstTwoStaleArePair(s: seq<Pipe>, width: int, height: int)
    requires PairsInField(s, height)
    requires Recycles(s, width)
    ensures StaleIndices(s, width)[0] % 2 == 0
    ensures StaleIndices(s, width)[1] == StaleIndices(s, width)[0] + 1
  {
    var st := StaleIndices(s, width);
    StaleIndicesSpec(s, width);
    var f := st[0];
    assert forall j :: 0 <= j < |st| ==> f <= st[j];
    PairMateStale(s, width, height, f);
    assert f - f % 2 in st;
    assert f % 2 == 0;
    assert f + 1 in st;
    var j :| 0 <= j < |st| && st[j] == f + 1;
    assert st[1] <= st[j];
  }

  /** A scan keeps the pool lined up. */
  lemma RecyclePreservesPairs(s: seq<Pipe>, width: int, t: Tier, height: int, d: Draw)
    requires PairsInField(s, height)
    requires ValidDraw(d, t, height)
    ensures PairsInField(Recycled(s, width, t, height, d), height)
  {
    var r := Recycled(s, width, t, height, d);
    if Recycles(s, width) {
      FirstTwoStaleArePair(s, width, height);
      TierRangesWithinBounds(t);
      var f := StaleIndices(s, width)[0];
      forall i | 0 <= i < PipesToRender
        ensures SlotInField(r, i, height)
      {
        if 2 * i != f {
          assert SlotInField(s, i, height);
          assert r[2 * i] == s[2 * i] && r[2 * i + 1] == s[2 * i + 1];
        }
      }
    }
  }

  /** The physics step's horizontal motion: every pipe moves left by dx. */
  function Shifted(s: seq<Pipe>, dx: int): (r: seq<Pipe>)
    ensures |r| == |s|
  {
    seq(|s|, k requires 0 <= k < |s| => s[k].(x := s[k].x - dx))
  }

  /** Moving the whole group keeps it lined up. */
  lemma ShiftPreservesPairs(s: seq<Pipe>, dx: int, height: int)
    requires PairsInField(s, height)
    ensures PairsInField(Shifted(s, dx), height)
  {
    var r := Shifted(s, dx);
    forall i | 0 <= i < PipesToRender
      ensures SlotInField(r, i, height)
    {
      assert SlotInField(s, i, height);
    }
  }

  /** The sum of the horizontal offsets drawn so far. */
  function OffsetSum(ds: seq<Draw>): int {
    if ds == [] then 0 else OffsetSum(ds[..|ds| - 1]) + ds[|ds| - 1].offset
  }

  /** With positive offsets, a longer prefix has a larger sum. */
  lemma {:induction false} OffsetSumIncreasing(ds: seq<Draw>, i: nat, j: nat)
    requires i < j <= |ds|
    requires forall n :: 0 <= n < |ds| ==> 0 < ds[n].offset
    ensures OffsetSum(ds[..i]) < OffsetSum(ds[..j])
    decreases j
  {
    assert ds[..j][..j - 1] == ds[..j - 1];
    if i < j - 1 {
      OffsetSumIncreasing(ds, i, j - 1);
    }
  }

  /**
   * The first n pair slots hold what createPipes puts there: pair i at the
   * sum of the first i + 1 offsets, with the i-th draw's gap.
   */
  ghost predicate PairsPlaced(s: seq<Pipe>, draws: seq<Draw>, n: nat)
    requires n <= |draws| && 2 * n <= |s|
  {
    forall i :: 0 <= i < n ==>
      && s[2 * i] == Pipe(OffsetSum(draws[..i + 1]), draws[i].top)
      && s[2 * i + 1] == Pipe(OffsetSum(draws[..i + 1]), draws[i].top + draws[i].gap)
  }

  /** The pool createPipes builds from its draws, one pair per draw. */
  ghost predicate CreatedFrom(s: seq<Pipe>, draws: seq<Draw>) {
    |s| == 2 * |draws| && PairsPlaced(s, draws, |draws|)
  }

  /** All draws made at creation fit the given tier. */
  predicate DrawsFit(draws: seq<Draw>, t: Tier, height: int) {
    forall i :: 0 <= i < |draws| ==> ValidDraw(draws[i], t, height)
  }

  /** Draws that fit a tier all move the anchor strictly to the right. */
  lemma DrawsFitOffsetsPositive(draws: seq<Draw>, t: Tier, height: int)
    requires DrawsFit(draws, t, height)
    ensures forall n :: 0 <= n < |draws| ==> 0 < draws[n].offset
  {
    TierRangesWithinBounds(t);
    forall n | 0 <= n < |draws|
      ensures 0 < draws[n].offset
    {
      assert ValidDraw(draws[n], t, height);
    }
  }

  /** A placed pipe lies no further right than the current anchor. */
  lemma PlacedWithinAnchor(s: seq<Pipe>, draws: seq<Draw>, n: nat, k: nat)
    requires n <= |draws| && 2 * n <= |s|
    requires forall i :: 0 <= i < |draws| ==> 0 < draws[i].offset
    requires PairsPlaced(s, draws, n)
    requires k < 2 * n
    ensures s[k].x <= OffsetSum(draws[..n])
  {
    var i := k / 2;
    assert k == 2 * i || k == 2 * i + 1;
    assert s[2 * i].x == OffsetSum(draws[..i + 1]) && s[2 * i + 1].x == s[2 * i].x;
    if i + 1 < n {
      OffsetSumIncreasing(draws, i + 1, n);
    }
  }

  /**
   * While createPipes runs, with n pairs placed and the rest still at (0, 0),
   * the rightmost x is the sum of the first n offsets.
   */
  lemma CreationAnchor(s: seq<Pipe>, draws: seq<Draw>, t: Tier, height: int, n: nat)
    requires n <= |draws| && 2 * n <= |s|
    requires DrawsFit(draws, t, height)
    requires PairsPlaced(s, draws, n)
    requires forall k :: 2 * n <= k < |s| ==> s[k] == Pipe(0, 0)
    ensures RightMostX(s) == OffsetSum(draws[..n])
  {
    var m := OffsetSum(draws[..n]);
    DrawsFitOffsetsPositive(draws, t, height);
    assert draws[..0] == [];
    if 0 < n {
      OffsetSumIncreasing(draws, 0, n);
    }
    forall k | 0 <= k < |s|
      ensures s[k].x <= m
    {
      if k < 2 * n {
        PlacedWithinAnchor(s, draws, n, k);
      }
    }
    if 0 < n {
      assert s[2 * (n - 1)].x == OffsetSum(draws[..n]) && draws[n - 1] == draws[n - 1];
    }
    RightMostXEquals(s, m);
  }

  /**
   * createPipes' step: with n pairs placed and the rest at (0, 0), placing
   * pair n at the rightmost x with draw n places n + 1 pairs.
   */
  lemma PlaceNextPair(s: seq<Pipe>, draws: seq<Draw>, t: Tier, height: int, n: nat)
    requires n < |draws| && 2 * n + 2 <= |s|
    requires DrawsFit(draws, t, height)
    requires PairsPlaced(s, draws, n)
    requires forall k :: 2 * n <= k < |s| ==> s[k] == Pipe(0, 0)
    ensures var pair := Place(t, RightMostX(s), height, draws[n]);
      var r := s[2 * n := pair.0][2 * n + 1 := pair.1];
      && PairsPlaced(r, draws, n + 1)
      && forall k :: 2 * n + 2 <= k < |r| ==> r[k] == Pipe(0, 0)
  {
    CreationAnchor(s, draws, t, height, n);
    assert draws[..n + 1][..n] == draws[..n];
    var pair := Place(t, RightMostX(s), height, draws[n]);
    var r := s[2 * n := pair.0][2 * n + 1 := pair.1];
    forall i | 0 <= i < n + 1
      ensures r[2 * i] == Pipe(OffsetSum(draws[..i + 1]), draws[i].top)
      ensures r[2 * i + 1] == Pipe(OffsetSum(draws[..i + 1]), draws[i].top + draws[i].gap)
    {
      if i < n {
        assert s[2 * i] == Pipe(OffsetSum(draws[..i + 1]), draws[i].top);
        assert s[2 * i + 1] == Pipe(OffsetSum(draws[..i + 1]), draws[i].top + draws[i].gap);
      }
    }
  }

  /** The pool createPipes builds from draws that fit a tier is lined up. */
  lemma CreatedPairsInField(s: seq<Pipe>, draws: seq<Draw>, t: Tier, height: int)
    requires |draws| == PipesToRender
    requires CreatedFrom(s, draws)
    requires DrawsFit(draws, t, height)
    ensures PairsInField(s, height)
  {
    TierRangesWithinBounds(t);
    forall i | 0 <= i < PipesToRender
      ensures SlotInField(s, i, height)
    {
      assert s[2 * i] == Pipe(OffsetSum(draws[..i + 1]), draws[i].top);
      assert s[2 * i + 1] == Pipe(OffsetSum(draws[..i + 1]), draws[i].top + draws[i].gap);
      assert ValidDraw(draws[i], t, height);
    }
  }

  /** Of two placed pairs, the one placed later lies further right. */
  lemma PairsOrdered(s: seq<Pipe>, draws: seq<Draw>, i: nat, j: nat)
    requires |s| == 2 * |draws| && PairsPlaced(s, draws, |draws|)
    requires forall n :: 0 <= n < |draws| ==> 0 < draws[n].offset
    requires i < j < |draws|
    ensures s[2 * i].x == s[2 * i + 1].x < s[2 * j].x == s[2 * j + 1].x
  {
    assert s[2 * i].x == OffsetSum(draws[..i + 1]) && s[2 * i + 1].x == s[2 * i].x;
    assert s[2 * j].x == OffsetSum(draws[..j + 1]) && s[2 * j + 1].x == s[2 * j].x;
    OffsetSumIncreasing(draws, i + 1, j + 1);
  }

  /**
   * The pairs createPipes builds from draws that fit a tier lie strictly left
   * to right in creation order.
   */
  lemma CreatedIncreasing(s: seq<Pipe>, draws: seq<Draw>, t: Tier, height: int)
    requires CreatedFrom(s, draws)
    requires DrawsFit(draws, t, height)
    ensures forall a, b :: 0 <= a < b < |s| && a / 2 < b / 2 ==> s[a].x < s[b].x
  {
    DrawsFitOffsetsPositive(draws, t, height);
    forall a, b | 0 <= a < b < |s| && a / 2 < b / 2
      ensures s[a].x < s[b].x
    {
      PairsOrdered(s, draws, a / 2, b / 2);
      assert a == 2 * (a / 2) || a == 2 * (a / 2) + 1;
      assert b == 2 * (b / 2) || b == 2 * (b / 2) + 1;
    }
  }

}
