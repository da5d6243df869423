/** The pan and parent-intercept policy of onScroll and onTouchEvent. */
module Gestures {
  import opened Transform
  import opened Bounds
  import opened Scale

  /** onScroll does nothing while a pinch is in progress or at (or below) the
      minimum scale. */
  predicate ScrollIgnored(scaleInProgress: bool, currentScale: real) {
    scaleInProgress || currentScale <= MinScale
  }

  /** The result of onScroll: the scroll counts as consumed when either
      distance exceeds the touch slop. */
  predicate ScrollConsumed(distanceX: real, distanceY: real, touchSlop: real) {
    Abs(distanceX) > touchSlop || Abs(distanceY) > touchSlop
  }

  /** Consumption depends on the size of the distances, not their sign, and a
      scroll within the slop is never consumed. */
  lemma ScrollConsumedBySize(distanceX: real, distanceY: real, touchSlop: real)
    ensures ScrollConsumed(-distanceX, -distanceY, touchSlop) == ScrollConsumed(distanceX, distanceY, touchSlop)
    ensures Abs(distanceX) <= touchSlop && Abs(distanceY) <= touchSlop ==> !ScrollConsumed(distanceX, distanceY, touchSlop)
  {
  }

  /** The parent may intercept (for paging) only when paging is not
      disallowed and, on the dominant axis of the scroll, the pre-gesture
      rectangle is already flush with the view edge the drag heads to. A
      positive distance is a finger moving left or up. */
  predicate ReleasesToParent(disallowPaging: bool, distanceX: real, distanceY: real,
                             pre: Rect, viewWidth: int, viewHeight: int)
  {
    && !disallowPaging
    && if Abs(distanceX) > Abs(distanceY) then
         (distanceX > 0.0 && pre.right == viewWidth as real) || (distanceX < 0.0 && pre.left == 0.0)
       else
         (distanceY > 0.0 && pre.bottom == viewHeight as real) || (distanceY < 0.0 && pre.top == 0.0)
  }

  /** The flag onTouchEvent hands to the parent: interception is disallowed
      when zoomed in or while a pinch is in progress. */
  predicate TouchDisallowsIntercept(currentScale: real, scaleInProgress: bool) {
    currentScale > MinScale || scaleInProgress
  }

  /** A still finger never releases to the parent, and with paging
      disallowed nothing does. */
  lemma ReleaseNeedsMovement(disallowPaging: bool, distanceX: real, distanceY: real,
                             pre: Rect, viewWidth: int, viewHeight: int)
    ensures ReleasesToParent(disallowPaging, distanceX, distanceY, pre, viewWidth, viewHeight) ==>
      !disallowPaging && (distanceX != 0.0 || distanceY != 0.0)
  {
  }

  /** A settled axis pinned at the edge the drag heads to does not move: the
      pan by -d followed by setBounds's correction cancels out. */
  lemma AxisStuckAtEdge(lo: real, hi: real, view: real, d: real)
    requires AxisSettled(lo, hi, view)
    requires (d > 0.0 && hi == view) || (d < 0.0 && lo == 0.0)
    ensures AxisDelta(lo - d, hi - d, view) == d
  {
  }

  /** The parent is released only when the drag could not pan the image on its
      dominant axis: if the displayed rectangle is settled and is the one the
      gesture started from, the pan of onScroll followed by setBounds leaves
      the translation on that axis unchanged. */
  lemma ReleaseOnlyWhenPanIsStuck(base: Affine, zoom: Affine, d: Size, viewWidth: int, viewHeight: int,
                                  disallowPaging: bool, distanceX: real, distanceY: real)
    requires Settled(DisplayRect(base, zoom, Some(d)).value, viewWidth, viewHeight)
    requires ReleasesToParent(disallowPaging, distanceX, distanceY,
                              DisplayRect(base, zoom, Some(d)).value, viewWidth, viewHeight)
    ensures var z := Constrained(PostTranslate(zoom, -distanceX, -distanceY), base, Some(d), viewWidth, viewHeight);
      if Abs(distanceX) > Abs(distanceY) then z.tx == zoom.tx else z.ty == zoom.ty
  {
    var r := DisplayRect(base, zoom, Some(d)).value;
    DisplayRectTranslate(base, zoom, d, -distanceX, -distanceY);
    if Abs(distanceX) > Abs(distanceY) {
      AxisStuckAtEdge(r.left, r.right, viewWidth as real, distanceX);
    } else {
      AxisStuckAtEdge(r.top, r.bottom, viewHeight as real, distanceY);
    }
  }

  /** A pre-gesture rectangle 1000 wide in a 500 x 500 view, flush with the
      right edge: a 50 px drag to the left releases the gesture to the parent. */
  lemma FlushRightDragLeftReleases()
    ensures ReleasesToParent(false, 50.0, 0.0, Rect(-500.0, 0.0, 500.0, 500.0), 500, 500)
  {
  }
}
