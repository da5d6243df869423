/** Fling: the scroller seed taken from the pre-gesture rectangle and the
    per-frame pan by the difference of successive scroller positions. */
module Fling {
  import opened Transform
  import opened Bounds

  /** The OverScroller as the view configures it: whether it has finished,
      its start, its (negated) velocity and its scroll range [0, max] on each
      axis. Positions along the way come from outside. */
  datatype FlingScroller = FlingScroller(finished: bool, startX: real, startY: real,
                                         velocityX: real, velocityY: real, maxX: real, maxY: real)

  const Finished := FlingScroller(true, 0.0, 0.0, 0.0, 0.0, 0.0, 0.0)

  /** onFling's call to scroller.fling: the start is the current offset of the
      image into the view (minus the rectangle's origin), and the range is
      what the displayed extent exceeds the view by. */
  function FlingSeed(pre: Rect, viewWidth: int, viewHeight: int, velocityX: real, velocityY: real): (sc: FlingScroller)
    ensures !sc.finished
    ensures pre.left + sc.startX == 0.0 && pre.top + sc.startY == 0.0
    ensures sc.maxX + viewWidth as real == pre.Width() && sc.maxY + viewHeight as real == pre.Height()
    ensures sc.velocityX == -velocityX && sc.velocityY == -velocityY
  {
    FlingScroller(false, -pre.left, -pre.top, -velocityX, -velocityY,
                  pre.Width() - viewWidth as real, pre.Height() - viewHeight as real)
  }

  /** For a displayed rectangle wider (taller) than the view, the scroller's
      range on that axis is exactly the set of offsets at which the
      rectangle, moved to start at minus the offset, covers the view: the
      positions setBounds accepts unchanged. */
  lemma FlingRangeIsCoveringOffsets(pre: Rect, viewWidth: int, viewHeight: int,
                                    velocityX: real, velocityY: real, p: real)
    ensures var sc := FlingSeed(pre, viewWidth, viewHeight, velocityX, velocityY);
      && (pre.Width() > viewWidth as real ==>
           (0.0 <= p <= sc.maxX <==> AxisSettled(-p, -p + pre.Width(), viewWidth as real)))
      && (pre.Height() > viewHeight as real ==>
           (0.0 <= p <= sc.maxY <==> AxisSettled(-p, -p + pre.Height(), viewHeight as real)))
  {
  }

  /** The pan distances of successive fling frames along one axis, starting
      from the seed: each frame pans by its position minus the previous one. */
  function PanSteps(last: real, positions: seq<real>): (steps: seq<real>)
    ensures |steps| == |positions|
    ensures |positions| > 0 ==> steps[0] == positions[0] - last
    ensures forall i :: 0 < i < |positions| ==> steps[i] == positions[i] - positions[i - 1]
    decreases positions
  {
    if positions == [] then []
    else [positions[0] - last] + PanSteps(positions[0], positions[1..])
  }

  function Sum(xs: seq<real>): real
    decreases xs
  {
    if xs == [] then 0.0 else xs[0] + Sum(xs[1..])
  }

  /** Summing one more distance adds it to the total. */
  lemma {:induction false} SumSnoc(xs: seq<real>, x: real)
    ensures Sum(xs + [x]) == Sum(xs) + x
    decreases xs
  {
    if xs != [] {
      assert (xs + [x])[1..] == xs[1..] + [x];
      SumSnoc(xs[1..], x);
    }
  }

  /** The pan distances are determined step by step: any sequence whose
      first entry is the first position minus the seed and whose later
      entries are each position minus the previous one is PanSteps. */
  lemma PanStepsUnique(last: real, positions: seq<real>, steps: seq<real>)
    requires |steps| == |positions|
    requires forall k :: 0 <= k < |steps| ==> steps[k] == positions[k] - (if k == 0 then last else positions[k - 1])
    ensures steps == PanSteps(last, positions)
  {
    var expected := PanSteps(last, positions);
    forall k | 0 <= k < |steps|
      ensures steps[k] == expected[k]
    {
      assert steps[k] == positions[k] - (if k == 0 then last else positions[k - 1]);
      if k > 0 {
        assert expected[k] == positions[k] - positions[k - 1];
      }
    }
  }

  /** Over any run of frames the pan distances add up to the last scroller
      position minus the seed. */
  lemma {:induction false} PanStepsTelescope(last: real, positions: seq<real>)
    requires |positions| > 0
    ensures Sum(PanSteps(last, positions)) == positions[|positions| - 1] - last
    decreases positions
  {
    var steps := PanSteps(last, positions);
    assert steps[1..] == PanSteps(positions[0], positions[1..]);
    if |positions| > 1 {
      PanStepsTelescope(positions[0], positions[1..]);
    }
  }
}
