/** The view itself: the transform state of ZoomImageView and the gesture,
    animation and fling callbacks that update it. Detector and animator
    outputs (factors, focus points, distances, interpolated fractions,
    scroller positions, whether a pinch is in progress) arrive as
    parameters. */
module ZoomView {
  import opened Transform
  import opened Fit
  import opened Bounds
  import opened Scale
  import opened Gestures
  import opened Fling

  /** drawable?.intrinsicWidth ?: 0 */
  function DrawableWidth(d: Option<Size>): int { if d.Some? then d.value.width else 0 }

  /** drawable?.intrinsicHeight ?: 0 */
  function DrawableHeight(d: Option<Size>): int { if d.Some? then d.value.height else 0 }

  /** k takes the current scale to the value. */
  predicate IsScaleFactor(k: real, current: real, value: real) {
    k * current == value
  }

  /** The relative factor value / current that a frame hands to postScale,
      given by what it means: the factor that takes the current scale to the
      value. */
  ghost function ScaleFactor(value: real, current: real): (k: real)
    requires current != 0.0
    ensures k * current == value
  {
    assert IsScaleFactor(value / current, current, value);
    var k :| IsScaleFactor(k, current, value); k
  }

  /** That factor is the quotient the listener computes. */
  lemma ScaleFactorIsRatio(value: real, current: real)
    requires current != 0.0
    ensures ScaleFactor(value, current) == value / current
  {
    var k := ScaleFactor(value, current);
    assert k == (k * current) / current;
  }

  /** One frame of the zoom animation's update listener at animated value
      `value` about (px, py): the relative factor value / currentScale is
      applied and the bounds corrected, so the zoom scale becomes the value.
      At a zero current scale the factor is not finite and the frame has no
      effect on the model. */
  ghost function AnimationFrame(zoom: Affine, base: Affine, drawable: Option<Size>, viewWidth: int, viewHeight: int,
                                value: real, px: real, py: real): (z: Affine)
    ensures zoom.s != 0.0 ==> z.s == value
    ensures zoom.s == 0.0 ==> z == zoom
  {
    if zoom.s == 0.0 then zoom
    else Constrained(PostScale(zoom, ScaleFactor(value, zoom.s), px, py), base, drawable, viewWidth, viewHeight)
  }

  /** A frame whose value is the current scale scales by 1: it only applies
      setBounds. This is the start frame of a double-tap or of a snap-back,
      whose animations start at the current scale. */
  lemma FrameAtCurrentScaleOnlyCorrects(zoom: Affine, base: Affine, drawable: Option<Size>,
                                        viewWidth: int, viewHeight: int, px: real, py: real)
    requires zoom.s != 0.0
    ensures AnimationFrame(zoom, base, drawable, viewWidth, viewHeight, zoom.s, px, py)
         == Constrained(zoom, base, drawable, viewWidth, viewHeight)
  {
    assert zoom.s / zoom.s == 1.0;
    assert PostScale(zoom, 1.0, px, py) == zoom;
  }

  /** The last frame of a reset animation, over the fit-centre base and from
      any non-zero zoom, shows the image fitted: the rectangle of the base
      matrix alone, centred in the view, within it and filling one axis. The
      frame's arguments are taken as the animation supplies them. */
  lemma LastResetFrameIsFitted(zoom: Affine, base: Affine, drawable: Option<Size>, viewWidth: int, viewHeight: int,
                               value: real, px: real, py: real)
    requires drawable.Some? && drawable.value.width > 0 && drawable.value.height > 0
    requires viewWidth > 0 && viewHeight > 0 && zoom.s != 0.0
    requires base == FitCenter(drawable.value.width as real, drawable.value.height as real,
                               viewWidth as real, viewHeight as real)
    requires value == MinScale && px == viewWidth as real / 2.0 && py == viewHeight as real / 2.0
    ensures var z := AnimationFrame(zoom, base, drawable, viewWidth, viewHeight, value, px, py);
      var r := DisplayRect(base, z, drawable).value;
      && z.s == MinScale
      && r == DisplayRect(base, Identity, drawable).value
      && r.left == (viewWidth as real - r.Width()) / 2.0
      && r.top == (viewHeight as real - r.Height()) / 2.0
      && r.Width() <= viewWidth as real && r.Height() <= viewHeight as real
      && (r.Width() == viewWidth as real || r.Height() == viewHeight as real)
  {
    var scaled := PostScale(zoom, ScaleFactor(MinScale, zoom.s), px, py);
    assert scaled.s == MinScale;
    UnitZoomOverFitIsCentred(drawable.value, viewWidth, viewHeight, scaled);
  }

  class ZoomImageView {
    var zoomMatrix: Affine
    var baseMatrix: Affine
    /** The matrix last handed to the ImageView (its imageMatrix). */
    var imageMatrix: Affine
    var drawable: Option<Size>
    var viewWidth: int
    var viewHeight: int
    var oldScale: real
    var handlingTouch: bool
    var touchSlop: real
    var disallowPagingWhenZoomed: bool
    var preEventImgRect: Rect
    var zoomAnimator: ZoomAnimation
    var scroller: FlingScroller
    /** flingRunnable.lastX and lastY. */
    var lastX: real
    var lastY: real
    /** Whether flingRunnable is posted for the next animation frame. */
    var flingPosted: bool
    /** The last value requested through requestDisallowInterceptTouchEvent. */
    var parentDisallowIntercept: bool
    var hasClickListener: bool
    var hasLongClickListener: bool
    /** Whether the platform view has been given a frame by a layout pass. */
    var hasFrame: bool

    /** The state after initView: no drawable, no frame yet, and the view size
        computed from the position and paddings the view has at construction. */
    constructor (touchSlop: real, left: int, top: int, right: int, bottom: int,
                 paddingLeft: int, paddingTop: int, paddingRight: int, paddingBottom: int)
      ensures zoomMatrix == Identity && baseMatrix == Identity && imageMatrix == Identity
      ensures drawable == None && !hasFrame
      ensures viewWidth == right - left - paddingLeft - paddingRight
      ensures viewHeight == bottom - top - paddingTop - paddingBottom
      ensures oldScale == MinScale && !handlingTouch && this.touchSlop == touchSlop
      ensures !disallowPagingWhenZoomed && preEventImgRect == Rect(0.0, 0.0, 0.0, 0.0)
      ensures zoomAnimator == Idle && scroller == Finished
      ensures lastX == 0.0 && lastY == 0.0 && !flingPosted
      ensures !parentDisallowIntercept && !hasClickListener && !hasLongClickListener
    {
      zoomMatrix, baseMatrix, imageMatrix := Identity, Identity, Identity;
      drawable, hasFrame := None, false;
      viewWidth := right - left - paddingLeft - paddingRight;
      viewHeight := bottom - top - paddingTop - paddingBottom;
      oldScale, handlingTouch, this.touchSlop := MinScale, false, touchSlop;
      disallowPagingWhenZoomed, preEventImgRect := false, Rect(0.0, 0.0, 0.0, 0.0);
      zoomAnimator, scroller := Idle, Finished;
      lastX, lastY, flingPosted := 0.0, 0.0, false;
      parentDisallowIntercept, hasClickListener, hasLongClickListener := false, false, false;
    }

    function CurrentScale(): real reads this { zoomMatrix.s }
    function CurrentTransX(): real reads this { zoomMatrix.tx }
    function CurrentTransY(): real reads this { zoomMatrix.ty }

    /** The getter of the public currentZoom property. */
    function CurrentZoom(): real reads this { CurrentScale() }

    /** What the platform's imageMatrix getter returns: the matrix last set
        once the view has a frame and a drawable of positive size, and the
        identity before that. */
    function ShownImageMatrix(): Affine reads this {
      if hasFrame && DrawableWidth(drawable) > 0 && DrawableHeight(drawable) > 0 then imageMatrix
      else Identity
    }

    method SetDisallowPagingWhenZoomed(value: bool)
      modifies this`disallowPagingWhenZoomed
      ensures disallowPagingWhenZoomed == value
    {
      disallowPagingWhenZoomed := value;
    }

    method SetOnClickListener(present: bool)
      modifies this`hasClickListener
      ensures hasClickListener == present
    {
      hasClickListener := present;
    }

    method SetOnLongClickListener(present: bool)
      modifies this`hasLongClickListener
      ensures hasLongClickListener == present
    {
      hasLongClickListener := present;
    }

    /** setBounds: one pass of the bounds solver on the current displayed
        rectangle, folded into the zoom matrix. */
    method SetBounds()
      modifies this`zoomMatrix
      ensures zoomMatrix == Constrained(old(zoomMatrix), baseMatrix, drawable, viewWidth, viewHeight)
    {
      var rect := DisplayRect(baseMatrix, zoomMatrix, drawable);
      if rect.None? {
        return;
      }
      var r := rect.value;
      var height := r.Height();
      var width := r.Width();
      var vh := viewHeight as real;
      var deltaX, deltaY := 0.0, 0.0;
      if height <= vh {
        deltaY := (vh - height) / 2.0 - r.top;
      } else if r.top > 0.0 {
        deltaY := -r.top;
      } else if r.bottom < vh {
        deltaY := vh - r.bottom;
      }
      var vw := viewWidth as real;
      if width <= vw {
        deltaX := (vw - width) / 2.0 - r.left;
      } else if r.left > 0.0 {
        deltaX := -r.left;
      } else if r.right < vw {
        deltaX := vw - r.right;
      }
      zoomMatrix := PostTranslate(zoomMatrix, deltaX, deltaY);
    }

    /** updateMatrix: hand the draw matrix to the ImageView. */
    method UpdateMatrix()
      modifies this`imageMatrix
      ensures imageMatrix == DrawMatrix(baseMatrix, zoomMatrix)
    {
      imageMatrix := DrawMatrix(baseMatrix, zoomMatrix);
    }

    /** setZoom: scale about (x, y), then correct the bounds. */
    method SetZoom(scale: real, x: real, y: real)
      modifies this`zoomMatrix, this`imageMatrix
      ensures zoomMatrix == Constrained(PostScale(old(zoomMatrix), scale, x, y), baseMatrix, drawable, viewWidth, viewHeight)
      ensures zoomMatrix.s == scale * old(zoomMatrix.s)
      ensures imageMatrix == DrawMatrix(baseMatrix, zoomMatrix)
    {
      zoomMatrix := PostScale(zoomMatrix, scale, x, y);
      SetBounds();
      UpdateMatrix();
    }

    /** panImage: move the image against the scroll distance, then correct
        the bounds. */
    method PanImage(distanceX: real, distanceY: real)
      modifies this`zoomMatrix, this`imageMatrix
      ensures zoomMatrix == Constrained(PostTranslate(old(zoomMatrix), -distanceX, -distanceY), baseMatrix, drawable, viewWidth, viewHeight)
      ensures zoomMatrix.s == old(zoomMatrix.s)
      ensures imageMatrix == DrawMatrix(baseMatrix, zoomMatrix)
    {
      zoomMatrix := PostTranslate(zoomMatrix, -distanceX, -distanceY);
      SetBounds();
      UpdateMatrix();
    }

    /** cancelAnimation: the animator's listeners are removed, so no pending
        tick has any effect. */
    method CancelAnimation()
      modifies this`zoomAnimator
      ensures zoomAnimator == Idle
    {
      zoomAnimator := Idle;
    }

    /** animateZoom: start an animation from startZoom to endZoom about
        (x, y). ValueAnimator.start() delivers the frame at fraction 0 at
        once, so the zoom scale is already startZoom on return. */
    method AnimateZoom(startZoom: real, endZoom: real, x: real, y: real)
      modifies this`zoomAnimator, this`zoomMatrix, this`imageMatrix
      ensures zoomAnimator == Running(startZoom, endZoom, x, y)
      ensures zoomMatrix == AnimationFrame(old(zoomMatrix), baseMatrix, drawable, viewWidth, viewHeight, startZoom, x, y)
      ensures old(zoomMatrix.s) != 0.0 ==> imageMatrix == DrawMatrix(baseMatrix, zoomMatrix)
      ensures old(zoomMatrix.s) == 0.0 ==> imageMatrix == old(imageMatrix)
    {
      zoomAnimator := Running(startZoom, endZoom, x, y);
      AnimationTick(0.0);
    }

    /** setScaleAbsolute: replace any running animation by one from oldScale
        to the requested scale held into [MinScale, MaxScale]; its first
        frame brings the zoom scale to oldScale. */
    method SetScaleAbsolute(scale: real, x: real, y: real)
      modifies this`zoomAnimator, this`zoomMatrix, this`imageMatrix
      ensures zoomAnimator == Running(oldScale, Clamp(scale), x, y)
      ensures MinScale <= zoomAnimator.endZoom <= MaxScale
      ensures zoomMatrix == AnimationFrame(old(zoomMatrix), baseMatrix, drawable, viewWidth, viewHeight, oldScale, x, y)
      ensures old(zoomMatrix.s) != 0.0 ==> imageMatrix == DrawMatrix(baseMatrix, zoomMatrix)
      ensures old(zoomMatrix.s) == 0.0 ==> imageMatrix == old(imageMatrix)
    {
      var zoom := if scale > MaxScale then MaxScale else if scale < MinScale then MinScale else scale;
      CancelAnimation();
      AnimateZoom(oldScale, zoom, x, y);
    }

    /** One update of the zoom animation at an interpolated fraction: the
        relative factor animatedValue / currentScale is applied about the
        pivot, so the zoom scale becomes the animated value. */
    method AnimationTick(fraction: real)
      modifies this`zoomMatrix, this`imageMatrix
      ensures zoomAnimator.Idle? || old(zoomMatrix.s) == 0.0 ==>
        zoomMatrix == old(zoomMatrix) && imageMatrix == old(imageMatrix)
      ensures zoomAnimator.Running? ==>
        zoomMatrix == AnimationFrame(old(zoomMatrix), baseMatrix, drawable, viewWidth, viewHeight,
                                     AnimatedValue(zoomAnimator.startZoom, zoomAnimator.endZoom, fraction),
                                     zoomAnimator.pivotX, zoomAnimator.pivotY)
      ensures zoomAnimator.Running? && old(zoomMatrix.s) != 0.0 ==> imageMatrix == DrawMatrix(baseMatrix, zoomMatrix)
    {
      if zoomAnimator.Running? && zoomMatrix.s != 0.0 {
        var value := AnimatedValue(zoomAnimator.startZoom, zoomAnimator.endZoom, fraction);
        var scale := value / zoomMatrix.s;
        ScaleFactorIsRatio(value, zoomMatrix.s);
        SetZoom(scale, zoomAnimator.pivotX, zoomAnimator.pivotY);
      }
    }

    /** resetZoom: recompute the fit-centre base matrix, start an animation
        to MinScale about the view centre (whose first frame, under the new
        base, brings the zoom scale to oldScale) and show the base matrix. */
    method ResetZoom()
      modifies this`baseMatrix, this`zoomAnimator, this`imageMatrix, this`zoomMatrix
      ensures baseMatrix == FitCenter(DrawableWidth(drawable) as real, DrawableHeight(drawable) as real,
                                      viewWidth as real, viewHeight as real)
      ensures zoomAnimator == Running(oldScale, MinScale, viewWidth as real / 2.0, viewHeight as real / 2.0)
      ensures zoomMatrix == AnimationFrame(old(zoomMatrix), baseMatrix, drawable, viewWidth, viewHeight,
                                           oldScale, viewWidth as real / 2.0, viewHeight as real / 2.0)
      ensures imageMatrix == baseMatrix
    {
      baseMatrix := FitCenter(DrawableWidth(drawable) as real, DrawableHeight(drawable) as real,
                              viewWidth as real, viewHeight as real);
      ghost var zoom := zoomMatrix;
      SetScaleAbsolute(MinScale, viewWidth as real / 2.0, viewHeight as real / 2.0);
      assert zoomMatrix == AnimationFrame(zoom, baseMatrix, drawable, viewWidth, viewHeight,
                                          oldScale, viewWidth as real / 2.0, viewHeight as real / 2.0);
      imageMatrix := baseMatrix;
    }

    /** The copy of the ImageView's matrix into the zoom matrix done after a
        drawable is set: the matrix last set if the view has a frame and a
        drawable of positive size, the identity otherwise. */
    method CopyImageMatrixToZoom()
      modifies this`zoomMatrix
      ensures hasFrame && DrawableWidth(drawable) > 0 && DrawableHeight(drawable) > 0 ==> zoomMatrix == imageMatrix
      ensures !(hasFrame && DrawableWidth(drawable) > 0 && DrawableHeight(drawable) > 0) ==> zoomMatrix == Identity
    {
      zoomMatrix := ShownImageMatrix();
    }

    /** setImageDrawable: a non-null drawable notifies onDrawableLoaded, resets
        the zoom and copies the shown matrix into the zoom matrix: the base
        matrix once the view has a frame (and the drawable a positive size),
        the identity before the first layout. */
    method SetImageDrawable(d: Option<Size>) returns (loadedNotified: bool)
      modifies this`drawable, this`baseMatrix, this`zoomAnimator, this`imageMatrix, this`zoomMatrix
      ensures drawable == d && loadedNotified == d.Some?
      ensures d.None? ==> baseMatrix == old(baseMatrix) && zoomAnimator == old(zoomAnimator)
                          && imageMatrix == old(imageMatrix) && zoomMatrix == old(zoomMatrix)
      ensures d.Some? ==>
        && baseMatrix == FitCenter(d.value.width as real, d.value.height as real, viewWidth as real, viewHeight as real)
        && zoomAnimator == Running(oldScale, MinScale, viewWidth as real / 2.0, viewHeight as real / 2.0)
        && imageMatrix == baseMatrix
        && (hasFrame && d.value.width > 0 && d.value.height > 0 ==> zoomMatrix == baseMatrix)
        && (!(hasFrame && d.value.width > 0 && d.value.height > 0) ==> zoomMatrix == Identity)
    {
      drawable := d;
      loadedNotified := false;
      if d.Some? {
        loadedNotified := true;
        ResetZoom();
        CopyImageMatrixToZoom();
        if hasFrame && d.value.width > 0 && d.value.height > 0 {
          assert zoomMatrix == baseMatrix;
        } else {
          assert zoomMatrix == Identity;
        }
      }
    }

    /** onLayout, after the layout pass has given the view its frame: record
        the content size of the view; a changed layout resets the zoom. */
    method OnLayout(changed: bool, left: int, top: int, right: int, bottom: int,
                    paddingLeft: int, paddingTop: int, paddingRight: int, paddingBottom: int)
      modifies this`hasFrame, this`viewWidth, this`viewHeight, this`baseMatrix, this`zoomAnimator, this`imageMatrix,
               this`zoomMatrix
      ensures hasFrame
      ensures viewWidth == right - left - paddingLeft - paddingRight
      ensures viewHeight == bottom - top - paddingTop - paddingBottom
      ensures changed ==>
        && baseMatrix == FitCenter(DrawableWidth(drawable) as real, DrawableHeight(drawable) as real,
                                   viewWidth as real, viewHeight as real)
        && zoomAnimator == Running(oldScale, MinScale, viewWidth as real / 2.0, viewHeight as real / 2.0)
        && zoomMatrix == AnimationFrame(old(zoomMatrix), baseMatrix, drawable, viewWidth, viewHeight,
                                        oldScale, viewWidth as real / 2.0, viewHeight as real / 2.0)
        && imageMatrix == baseMatrix
      ensures !changed ==>
        && baseMatrix == old(baseMatrix) && zoomAnimator == old(zoomAnimator)
        && imageMatrix == old(imageMatrix) && zoomMatrix == old(zoomMatrix)
    {
      hasFrame := true;
      viewWidth := right - left - paddingLeft - paddingRight;
      viewHeight := bottom - top - paddingTop - paddingBottom;
      if changed {
        ResetZoom();
      }
    }

    /** The setter of the public currentZoom property. */
    method SetCurrentZoom(value: real)
      modifies this`zoomAnimator, this`zoomMatrix, this`imageMatrix
      ensures zoomAnimator == Running(oldScale, Clamp(value), viewWidth as real / 2.0, viewHeight as real / 2.0)
      ensures zoomMatrix == AnimationFrame(old(zoomMatrix), baseMatrix, drawable, viewWidth, viewHeight,
                                           oldScale, viewWidth as real / 2.0, viewHeight as real / 2.0)
      ensures old(zoomMatrix.s) != 0.0 ==> imageMatrix == DrawMatrix(baseMatrix, zoomMatrix)
      ensures old(zoomMatrix.s) == 0.0 ==> imageMatrix == old(imageMatrix)
    {
      SetScaleAbsolute(value, viewWidth as real / 2.0, viewHeight as real / 2.0);
    }

    /** onDoubleTap: animate from the current scale to the toggle target,
        about the tap point. The first frame is at the current scale, so it
        only corrects the bounds. */
    method OnDoubleTap(x: real, y: real) returns (handled: bool)
      modifies this`oldScale, this`zoomAnimator, this`zoomMatrix, this`imageMatrix
      ensures handled && oldScale == old(zoomMatrix.s) && zoomMatrix.s == old(zoomMatrix.s)
      ensures zoomAnimator == Running(old(zoomMatrix.s), DoubleTapTarget(old(zoomMatrix.s)), x, y)
      ensures zoomMatrix == AnimationFrame(old(zoomMatrix), baseMatrix, drawable, viewWidth, viewHeight,
                                           old(zoomMatrix.s), x, y)
      ensures old(zoomMatrix.s) != 0.0 ==> imageMatrix == DrawMatrix(baseMatrix, zoomMatrix)
      ensures old(zoomMatrix.s) == 0.0 ==> imageMatrix == old(imageMatrix)
    {
      oldScale := CurrentScale();
      var scaleFactor := if CurrentScale() != MinScale then MinScale else MidScale;
      SetScaleAbsolute(scaleFactor, x, y);
      handled := true;
    }

    /** onSingleTapConfirmed: notify the click listener, if any. */
    method OnSingleTapConfirmed() returns (handled: bool, clickNotified: bool)
      ensures handled && clickNotified == hasClickListener
    {
      clickNotified := hasClickListener;
      handled := true;
    }

    /** onLongPress: notify the long-click listener, if any. */
    method OnLongPress() returns (longClickNotified: bool)
      ensures longClickNotified == hasLongClickListener
    {
      longClickNotified := hasLongClickListener;
    }

    /** onScroll: pan when zoomed in and not pinching, tell the parent whether
        it may take the gesture, and report whether the scroll exceeded the
        touch slop. */
    method OnScroll(scaleInProgress: bool, distanceX: real, distanceY: real) returns (consumed: bool)
      modifies this`zoomMatrix, this`imageMatrix, this`parentDisallowIntercept
      ensures ScrollIgnored(scaleInProgress, old(zoomMatrix.s)) ==>
        && !consumed
        && zoomMatrix == old(zoomMatrix) && imageMatrix == old(imageMatrix)
        && parentDisallowIntercept == old(parentDisallowIntercept)
      ensures !ScrollIgnored(scaleInProgress, old(zoomMatrix.s)) ==>
        && zoomMatrix == Constrained(PostTranslate(old(zoomMatrix), -distanceX, -distanceY),
                                     baseMatrix, drawable, viewWidth, viewHeight)
        && imageMatrix == DrawMatrix(baseMatrix, zoomMatrix)
        && parentDisallowIntercept == !ReleasesToParent(disallowPagingWhenZoomed, distanceX, distanceY,
                                                        preEventImgRect, viewWidth, viewHeight)
        && consumed == ScrollConsumed(distanceX, distanceY, touchSlop)
    {
      if scaleInProgress || CurrentScale() <= MinScale {
        return false;
      }
      PanImage(distanceX, distanceY);
      var disallowParentIntercept := true;
      if !disallowPagingWhenZoomed {
        if Abs(distanceX) > Abs(distanceY) {
          if distanceX > 0.0 && preEventImgRect.right == viewWidth as real {
            disallowParentIntercept := false;
          } else if distanceX < 0.0 && preEventImgRect.left == 0.0 {
            disallowParentIntercept := false;
          }
        } else {
          if distanceY > 0.0 && preEventImgRect.bottom == viewHeight as real {
            disallowParentIntercept := false;
          } else if distanceY < 0.0 && preEventImgRect.top == 0.0 {
            disallowParentIntercept := false;
          }
        }
      }
      parentDisallowIntercept := disallowParentIntercept;
      consumed := Abs(distanceX) > touchSlop || Abs(distanceY) > touchSlop;
    }

    /** onFling: seed the scroller and the runnable from the pre-gesture
        rectangle and post the runnable. */
    method OnFling(velocityX: real, velocityY: real) returns (handled: bool)
      modifies this`lastX, this`lastY, this`scroller, this`flingPosted
      ensures handled && flingPosted
      ensures lastX == -preEventImgRect.left && lastY == -preEventImgRect.top
      ensures scroller == FlingSeed(preEventImgRect, viewWidth, viewHeight, velocityX, velocityY)
    {
      var maxX := preEventImgRect.Width() - viewWidth as real;
      var maxY := preEventImgRect.Height() - viewHeight as real;
      lastX := -preEventImgRect.left;
      lastY := -preEventImgRect.top;
      scroller := FlingScroller(false, lastX, lastY, -velocityX, -velocityY, maxX, maxY);
      flingPosted := true;
      handled := true;
    }

    /** One animation frame for flingRunnable. A removed callback does not
        run. A posted one, while the scroller yields a new offset
        (currX, currY), pans by its difference from the last offset, records
        the offset and posts itself again; otherwise the scroller is finished
        and nothing is posted. */
    method RunFling(offsetComputed: bool, currX: real, currY: real)
      modifies this`zoomMatrix, this`imageMatrix, this`lastX, this`lastY, this`flingPosted, this`scroller
      ensures !old(flingPosted) ==>
        && zoomMatrix == old(zoomMatrix) && imageMatrix == old(imageMatrix)
        && lastX == old(lastX) && lastY == old(lastY) && !flingPosted && scroller == old(scroller)
      ensures old(flingPosted) && !old(scroller.finished) && offsetComputed ==>
        && zoomMatrix == Constrained(PostTranslate(old(zoomMatrix), -(currX - old(lastX)), -(currY - old(lastY))),
                                     baseMatrix, drawable, viewWidth, viewHeight)
        && imageMatrix == DrawMatrix(baseMatrix, zoomMatrix)
        && lastX == currX && lastY == currY && flingPosted && scroller == old(scroller)
      ensures old(flingPosted) && !(!old(scroller.finished) && offsetComputed) ==>
        && zoomMatrix == old(zoomMatrix) && imageMatrix == old(imageMatrix)
        && lastX == old(lastX) && lastY == old(lastY) && !flingPosted
        && scroller == old(scroller).(finished := true)
    {
      if !flingPosted {
        return;
      }
      flingPosted := false;
      if !scroller.finished && offsetComputed {
        PanImage(currX - lastX, currY - lastY);
        lastX := currX;
        lastY := currY;
        flingPosted := true;
      } else {
        scroller := scroller.(finished := true);
      }
    }

    /** onTouchEvent: compute the parent-intercept flag, and on a touch-down
        stop the fling and capture the displayed rectangle. The event then
        goes to the tap detector, and to the scale detector only if the tap
        detector did not handle it; either way the event is reported as
        handled. */
    method OnTouchEvent(isDown: bool, scaleInProgress: bool, tapDetectorHandled: bool)
      returns (handled: bool, scaleDetectorFed: bool)
      modifies this`flingPosted, this`scroller, this`preEventImgRect, this`parentDisallowIntercept
      ensures handled && scaleDetectorFed == !tapDetectorHandled
      ensures parentDisallowIntercept == TouchDisallowsIntercept(zoomMatrix.s, scaleInProgress)
      ensures isDown ==> !flingPosted && scroller == old(scroller).(finished := true)
      ensures !isDown ==> flingPosted == old(flingPosted) && scroller == old(scroller)
      ensures isDown && drawable.Some? ==> preEventImgRect == DisplayRect(baseMatrix, zoomMatrix, drawable).value
      ensures !(isDown && drawable.Some?) ==> preEventImgRect == old(preEventImgRect)
    {
      var disallowIntercept := CurrentScale() > MinScale || scaleInProgress;
      if isDown {
        flingPosted := false;
        scroller := scroller.(finished := true);
        var rect := DisplayRect(baseMatrix, zoomMatrix, drawable);
        if rect.Some? {
          preEventImgRect := rect.value;
        }
      }
      parentDisallowIntercept := disallowIntercept;
      handled := true;
      scaleDetectorFed := !tapDetectorHandled;
    }

    method OnScaleBegin() returns (handled: bool)
      modifies this`handlingTouch
      ensures handled && handlingTouch
    {
      handlingTouch := true;
      handled := true;
    }

    /** onScale: refuse a non-finite factor, and a zoom-in above MaxScale;
        otherwise remember the scale and apply the factor about the focus
        point (setScale forwards to setZoom). */
    method OnScale(factor: real, nonFinite: bool, focusX: real, focusY: real) returns (handled: bool)
      modifies this`oldScale, this`zoomMatrix, this`imageMatrix
      ensures handled == PinchAccepted(old(zoomMatrix.s), factor, nonFinite)
      ensures !handled ==> zoomMatrix == old(zoomMatrix) && oldScale == old(oldScale) && imageMatrix == old(imageMatrix)
      ensures handled ==>
        && oldScale == old(zoomMatrix.s)
        && zoomMatrix == Constrained(PostScale(old(zoomMatrix), factor, focusX, focusY),
                                     baseMatrix, drawable, viewWidth, viewHeight)
        && zoomMatrix.s == factor * old(zoomMatrix.s)
        && imageMatrix == DrawMatrix(baseMatrix, zoomMatrix)
    {
      if nonFinite {
        return false;
      }
      if CurrentScale() > MaxScale && factor > 1.0 {
        return false;
      }
      oldScale := CurrentScale();
      SetZoom(factor, focusX, focusY);
      handled := true;
    }

    /** onScaleEnd: remember the scale, snap back to MinScale about the focus
        point only from below it, and end the touch handling. */
    method OnScaleEnd(focusX: real, focusY: real)
      modifies this`oldScale, this`zoomAnimator, this`handlingTouch, this`zoomMatrix, this`imageMatrix
      ensures oldScale == old(zoomMatrix.s) && zoomMatrix.s == old(zoomMatrix.s) && !handlingTouch
      ensures NeedsSnapBack(old(zoomMatrix.s)) ==>
        && zoomAnimator == Running(old(zoomMatrix.s), MinScale, focusX, focusY)
        && zoomMatrix == AnimationFrame(old(zoomMatrix), baseMatrix, drawable, viewWidth, viewHeight,
                                        old(zoomMatrix.s), focusX, focusY)
        && (old(zoomMatrix.s) != 0.0 ==> imageMatrix == DrawMatrix(baseMatrix, zoomMatrix))
        && (old(zoomMatrix.s) == 0.0 ==> imageMatrix == old(imageMatrix))
      ensures !NeedsSnapBack(old(zoomMatrix.s)) ==>
        zoomAnimator == old(zoomAnimator) && zoomMatrix == old(zoomMatrix) && imageMatrix == old(imageMatrix)
    {
      oldScale := CurrentScale();
      var needsReset := false;
      var newScale := MinScale;
      if CurrentScale() < MinScale {
        newScale := MinScale;
        needsReset := true;
      }
      if needsReset {
        SetScaleAbsolute(newScale, focusX, focusY);
      }
      handlingTouch := false;
    }
  }

  /** Two double-taps from MinScale, each followed by its animation's last
      frame, come back to MinScale, passing through MidScale. */
  method DoubleTapTwiceFromMin(v: ZoomImageView, x: real, y: real)
    requires v.zoomMatrix.s == MinScale
    modifies v`oldScale, v`zoomAnimator, v`zoomMatrix, v`imageMatrix
    ensures v.zoomMatrix.s == MinScale
  {
    var _ := v.OnDoubleTap(x, y);
    v.AnimationTick(1.0);
    assert v.zoomMatrix.s == MidScale;
    var _ := v.OnDoubleTap(x, y);
    v.AnimationTick(1.0);
  }

  /** At scale 2 in a 500 x 500 view whose image was flush with the right edge
      when the gesture began, a 50 px drag to the left pans (the scroll is not
      ignored) and releases the gesture to the parent. */
  method ScrollAtRightEdgeReleasesParent(v: ZoomImageView) returns (consumed: bool)
    requires v.zoomMatrix.s == 2.0 && !v.disallowPagingWhenZoomed
    requires v.viewWidth == 500 && v.viewHeight == 500
    requires v.preEventImgRect == Rect(-500.0, 0.0, 500.0, 500.0)
    modifies v`zoomMatrix, v`imageMatrix, v`parentDisallowIntercept
    ensures !v.parentDisallowIntercept
    ensures consumed == (50.0 > v.touchSlop)
    ensures v.zoomMatrix == Constrained(PostTranslate(old(v.zoomMatrix), -50.0, 0.0),
                                        v.baseMatrix, v.drawable, v.viewWidth, v.viewHeight)
    ensures v.imageMatrix == DrawMatrix(v.baseMatrix, v.zoomMatrix)
    ensures v.zoomMatrix.s == 2.0
  {
    consumed := v.OnScroll(false, 50.0, 0.0);
  }

  /** A drawable set before the first layout leaves the zoom matrix at the
      identity (the getter has nothing to show yet); the first changed layout
      and the last frame of its reset animation then bring the scale to
      MinScale. */
  method DrawableBeforeFirstLayout(v: ZoomImageView, d: Size, right: int, bottom: int)
    requires !v.hasFrame && d.width > 0 && d.height > 0 && v.oldScale != 0.0
    modifies v`drawable, v`baseMatrix, v`zoomAnimator, v`imageMatrix, v`zoomMatrix, v`hasFrame, v`viewWidth, v`viewHeight
    ensures v.hasFrame && v.drawable == Some(d) && v.zoomMatrix.s == MinScale
    ensures v.viewWidth == right && v.viewHeight == bottom
    ensures v.baseMatrix == FitCenter(d.width as real, d.height as real, right as real, bottom as real)
  {
    var _ := v.SetImageDrawable(Some(d));
    assert v.zoomMatrix == Identity;
    LayoutResetsScale(v, right, bottom);
  }

  /** From any non-zero scale, a changed layout leaves the zoom scale at
      oldScale (the first frame of the reset animation it starts), and the
      last frame of that animation leaves the view laid out at MinScale, with
      the same drawable. */
  method LayoutResetsScale(v: ZoomImageView, right: int, bottom: int)
    requires v.zoomMatrix.s != 0.0 && v.oldScale != 0.0
    modifies v`baseMatrix, v`zoomAnimator, v`imageMatrix, v`zoomMatrix, v`hasFrame, v`viewWidth, v`viewHeight
    ensures v.hasFrame && v.zoomMatrix.s == MinScale
    ensures v.viewWidth == right && v.viewHeight == bottom
    ensures v.baseMatrix == FitCenter(DrawableWidth(v.drawable) as real, DrawableHeight(v.drawable) as real,
                                      right as real, bottom as real)
  {
    ghost var z0 := v.zoomMatrix;
    v.OnLayout(true, 0, 0, right, bottom, 0, 0, 0, 0);
    ghost var z1 := v.zoomMatrix;
    assert z1 == AnimationFrame(z0, v.baseMatrix, v.drawable, v.viewWidth, v.viewHeight,
                                v.oldScale, v.viewWidth as real / 2.0, v.viewHeight as real / 2.0);
    assert z1.s == v.oldScale;
    assert v.zoomAnimator.Running? && v.zoomAnimator.endZoom == MinScale;
    ghost var value := AnimatedValue(v.zoomAnimator.startZoom, MinScale, 1.0);
    assert value == MinScale;
    v.AnimationTick(1.0);
    assert v.zoomMatrix == AnimationFrame(z1, v.baseMatrix, v.drawable, v.viewWidth, v.viewHeight,
                                          value, v.zoomAnimator.pivotX, v.zoomAnimator.pivotY);
  }

  /** A touch-down removes the pending fling frame: a frame that would have
      run afterwards leaves the transform and the fling state alone. */
  method TouchDownStopsFling(v: ZoomImageView, scaleInProgress: bool, tapDetectorHandled: bool,
                             offsetComputed: bool, currX: real, currY: real)
    modifies v`flingPosted, v`scroller, v`preEventImgRect, v`parentDisallowIntercept,
             v`zoomMatrix, v`imageMatrix, v`lastX, v`lastY
    ensures v.zoomMatrix == old(v.zoomMatrix) && v.imageMatrix == old(v.imageMatrix)
    ensures v.lastX == old(v.lastX) && v.lastY == old(v.lastY) && !v.flingPosted && v.scroller.finished
  {
    var _, _ := v.OnTouchEvent(true, scaleInProgress, tapDetectorHandled);
    v.RunFling(offsetComputed, currX, currY);
  }

  /** The zoom matrix after fling frames that pan by the given distances in
      turn, each followed by setBounds. */
  ghost function FlingPans(zoom: Affine, base: Affine, drawable: Option<Size>, viewWidth: int, viewHeight: int,
                           pansX: seq<real>, pansY: seq<real>): (z: Affine)
    requires |pansX| == |pansY|
    ensures |pansX| > 0 ==> z.s == zoom.s
    ensures |pansX| == 0 ==> z == zoom
    decreases |pansX|
  {
    if |pansX| == 0 then zoom
    else
      var n := |pansX|;
      Constrained(PostTranslate(FlingPans(zoom, base, drawable, viewWidth, viewHeight, pansX[..n - 1], pansY[..n - 1]),
                                -pansX[n - 1], -pansY[n - 1]),
                  base, drawable, viewWidth, viewHeight)
  }

  /** One more frame pans the result of the earlier ones and corrects it. */
  lemma FlingPansSnoc(zoom: Affine, base: Affine, drawable: Option<Size>, viewWidth: int, viewHeight: int,
                      pansX: seq<real>, pansY: seq<real>, p: real, q: real)
    requires |pansX| == |pansY|
    ensures FlingPans(zoom, base, drawable, viewWidth, viewHeight, pansX + [p], pansY + [q])
         == Constrained(PostTranslate(FlingPans(zoom, base, drawable, viewWidth, viewHeight, pansX, pansY), -p, -q),
                        base, drawable, viewWidth, viewHeight)
  {
    assert (pansX + [p])[..|pansX|] == pansX && (pansY + [q])[..|pansY|] == pansY;
  }

  /** Without a drawable, setBounds changes nothing and the frames add up to
      a single translation by minus the total pan distance. */
  lemma {:induction false} FlingPansWithoutDrawable(zoom: Affine, base: Affine, viewWidth: int, viewHeight: int,
                                                    pansX: seq<real>, pansY: seq<real>)
    requires |pansX| == |pansY|
    ensures FlingPans(zoom, base, None, viewWidth, viewHeight, pansX, pansY)
         == PostTranslate(zoom, -Sum(pansX), -Sum(pansY))
    decreases |pansX|
  {
    var n := |pansX|;
    if n > 0 {
      var headX, headY := pansX[..n - 1], pansY[..n - 1];
      FlingPansWithoutDrawable(zoom, base, viewWidth, viewHeight, headX, headY);
      assert headX + [pansX[n - 1]] == pansX && headY + [pansY[n - 1]] == pansY;
      SumSnoc(headX, pansX[n - 1]);
      SumSnoc(headY, pansY[n - 1]);
    }
  }

  /** One frame of a live fling that computed the offset (x, y): it pans by
      the offset minus the previous one, and the fling goes on. */
  method LiveFlingFrame(v: ZoomImageView, x: real, y: real) returns (p: real, q: real)
    requires v.flingPosted && !v.scroller.finished
    modifies v`zoomMatrix, v`imageMatrix, v`lastX, v`lastY, v`flingPosted, v`scroller
    ensures p == x - old(v.lastX) && q == y - old(v.lastY)
    ensures v.zoomMatrix == Constrained(PostTranslate(old(v.zoomMatrix), -p, -q),
                                        v.baseMatrix, v.drawable, v.viewWidth, v.viewHeight)
    ensures v.imageMatrix == DrawMatrix(v.baseMatrix, v.zoomMatrix)
    ensures v.lastX == x && v.lastY == y && v.flingPosted && v.scroller == old(v.scroller)
  {
    p, q := x - v.lastX, y - v.lastY;
    v.RunFling(true, x, y);
  }

  /** A fling driven frame after frame: while the scroller runs and every
      frame computes an offset, frame i pans by the scroller position xs[i],
      ys[i] minus the previous one, the pan distances are PanSteps of the
      positions from the seed and they add up to the last position minus the
      seed. The zoom matrix ends as those pans, each corrected by setBounds,
      applied to the old one. */
  method FlingFrames(v: ZoomImageView, xs: seq<real>, ys: seq<real>) returns (pansX: seq<real>, pansY: seq<real>)
    requires |xs| == |ys| && v.flingPosted && !v.scroller.finished
    modifies v`zoomMatrix, v`imageMatrix, v`lastX, v`lastY, v`flingPosted, v`scroller
    ensures v.flingPosted && v.scroller == old(v.scroller)
    ensures pansX == PanSteps(old(v.lastX), xs) && pansY == PanSteps(old(v.lastY), ys)
    ensures v.zoomMatrix == FlingPans(old(v.zoomMatrix), v.baseMatrix, v.drawable, v.viewWidth, v.viewHeight,
                                      pansX, pansY)
    ensures |xs| > 0 ==>
      && v.lastX == xs[|xs| - 1] && v.lastY == ys[|ys| - 1]
      && Sum(pansX) == xs[|xs| - 1] - old(v.lastX) && Sum(pansY) == ys[|ys| - 1] - old(v.lastY)
      && v.imageMatrix == DrawMatrix(v.baseMatrix, v.zoomMatrix)
  {
    ghost var seedX, seedY, sc, z0 := v.lastX, v.lastY, v.scroller, v.zoomMatrix;
    pansX, pansY := [], [];
    var i := 0;
    while i < |xs|
      invariant 0 <= i <= |xs|
      invariant v.flingPosted && v.scroller == sc
      invariant v.lastX == (if i == 0 then seedX else xs[i - 1])
      invariant v.lastY == (if i == 0 then seedY else ys[i - 1])
      invariant |pansX| == |pansY| == i
      invariant forall k :: 0 <= k < i ==> pansX[k] == xs[k] - (if k == 0 then seedX else xs[k - 1])
      invariant forall k :: 0 <= k < i ==> pansY[k] == ys[k] - (if k == 0 then seedY else ys[k - 1])
      invariant v.zoomMatrix == FlingPans(z0, v.baseMatrix, v.drawable, v.viewWidth, v.viewHeight, pansX, pansY)
      invariant i > 0 ==> v.imageMatrix == DrawMatrix(v.baseMatrix, v.zoomMatrix)
    {
      ghost var zPrev := v.zoomMatrix;
      var p, q := LiveFlingFrame(v, xs[i], ys[i]);
      assert p == xs[i] - (if i == 0 then seedX else xs[i - 1]);
      assert q == ys[i] - (if i == 0 then seedY else ys[i - 1]);
      assert v.zoomMatrix == Constrained(PostTranslate(zPrev, -p, -q), v.baseMatrix, v.drawable, v.viewWidth, v.viewHeight);
      FlingPansSnoc(z0, v.baseMatrix, v.drawable, v.viewWidth, v.viewHeight, pansX, pansY, p, q);
      pansX, pansY := pansX + [p], pansY + [q];
      i := i + 1;
    }
    PanStepsUnique(seedX, xs, pansX);
    PanStepsUnique(seedY, ys, pansY);
    if |xs| > 0 {
      PanStepsTelescope(seedX, xs);
      PanStepsTelescope(seedY, ys);
    }
  }

  /** After resetZoom and the last frame of its animation, an image and a view
      of positive size show the image fitted: exactly the rectangle of the base
      matrix alone, centred in the view, within it and filling one axis. The
      synchronous first frame has brought the scale to oldScale on the way. */
  method ResetZoomSettles(v: ZoomImageView)
    requires v.drawable.Some? && v.drawable.value.width > 0 && v.drawable.value.height > 0
    requires v.viewWidth > 0 && v.viewHeight > 0 && v.zoomMatrix.s != 0.0 && v.oldScale != 0.0
    modifies v`baseMatrix, v`zoomAnimator, v`imageMatrix, v`zoomMatrix
    ensures v.baseMatrix == FitCenter(v.drawable.value.width as real, v.drawable.value.height as real,
                                      v.viewWidth as real, v.viewHeight as real)
    ensures v.zoomMatrix.s == MinScale
    ensures var r := DisplayRect(v.baseMatrix, v.zoomMatrix, v.drawable).value;
      && r.left == (v.viewWidth as real - r.Width()) / 2.0
      && r.top == (v.viewHeight as real - r.Height()) / 2.0
      && r.Width() <= v.viewWidth as real && r.Height() <= v.viewHeight as real
      && (r.Width() == v.viewWidth as real || r.Height() == v.viewHeight as real)
      && r == DisplayRect(v.baseMatrix, Identity, v.drawable).value
  {
    v.ResetZoom();
    assert v.zoomMatrix.s == v.oldScale;
    LastResetFrameSettles(v);
  }

  /** The last frame of a reset animation, from the state resetZoom leaves:
      the fit-centre base and an animation to MinScale about the view centre. */
  method LastResetFrameSettles(v: ZoomImageView)
    requires v.drawable.Some? && v.drawable.value.width > 0 && v.drawable.value.height > 0
    requires v.viewWidth > 0 && v.viewHeight > 0 && v.zoomMatrix.s != 0.0
    requires v.baseMatrix == FitCenter(v.drawable.value.width as real, v.drawable.value.height as real,
                                       v.viewWidth as real, v.viewHeight as real)
    requires v.zoomAnimator.Running? && v.zoomAnimator.endZoom == MinScale
    requires v.zoomAnimator.pivotX == v.viewWidth as real / 2.0 && v.zoomAnimator.pivotY == v.viewHeight as real / 2.0
    modifies v`zoomMatrix, v`imageMatrix
    ensures v.zoomMatrix.s == MinScale
    ensures var r := DisplayRect(v.baseMatrix, v.zoomMatrix, v.drawable).value;
      && r.left == (v.viewWidth as real - r.Width()) / 2.0
      && r.top == (v.viewHeight as real - r.Height()) / 2.0
      && r.Width() <= v.viewWidth as real && r.Height() <= v.viewHeight as real
      && (r.Width() == v.viewWidth as real || r.Height() == v.viewHeight as real)
      && r == DisplayRect(v.baseMatrix, Identity, v.drawable).value
  {
    ghost var z0 := v.zoomMatrix;
    v.AnimationTick(1.0);
    LastResetFrameIsFitted(z0, v.baseMatrix, v.drawable, v.viewWidth, v.viewHeight,
                           AnimatedValue(v.zoomAnimator.startZoom, v.zoomAnimator.endZoom, 1.0),
                           v.zoomAnimator.pivotX, v.zoomAnimator.pivotY);
  }
}
