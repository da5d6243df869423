# ZoomImageView transform engine

ZoomImageView is an Android `ImageView` that supports pinch zoom, double-tap zoom, panning and fling on one image. This project models the engine behind those gestures and proves properties of it.

The picture on screen is the image's intrinsic rectangle `[0, 0, w, h]` mapped through the draw matrix. The draw matrix is the **base matrix** followed by the **zoom matrix**:

- The base matrix fits the image into the view, centred (`setRectToRect` with `ScaleToFit.CENTER`).
- The zoom matrix is what the gestures change.

Both matrices are a uniform scale plus a translation, so the model writes them as `Affine(s, tx, ty)` over reals. After every scale or pan step, `setBounds` post-translates the zoom matrix: an image smaller than the view is centred, and a larger one is pulled back so that no gap shows at an edge. The band [1, 3] bounds the scales the view animates to, not every scale it reaches:

- The clamp of `setScaleAbsolute` and the double-tap toggle between 1 and 1.75 keep every animation target inside the band.
- A pinch can overshoot either end. The pinch gate refuses a zoom-in only once the scale is already above 3, so one pinch step from 2.9 can pass 3.
- The snap-back at the end of a pinch corrects only a scale below 1. A scale above 3 stays.

Animations apply the relative factor `animatedValue / currentScale` on each frame. The first frame, at fraction 0, is delivered by the animator's `start()` before the starting method returns, so every animation begins by taking the zoom scale to its start value. A fling pans by the difference between successive scroller positions.

Modules:

- `Transform` (transform.dfy): the matrix shape and the Android post operations (`postScale`, `postTranslate`, `postConcat`). Also `mapRect`, the draw matrix and the displayed rectangle.
- `Bounds` (bounds.dfy): the per-axis solver of `setBounds` and the zoom matrix after `setBounds` (`Constrained`).
- `Fit` (fit.dfy): the fit-centre base matrix computed by `resetZoom`.
- `Scale` (scale.dfy): the scale constants, the clamp, the double-tap target, the pinch gate, the snap-back test and the animated value.
- `Gestures` (gestures.dfy): the gating and touch-slop result of `onScroll`, and its parent-intercept policy. Also the intercept flag of `onTouchEvent`.
- `Fling` (fling.dfy): the scroller seed of `onFling` and the per-frame pan steps of `flingRunnable`.
- `ZoomView` (zoom_image_view.dfy): the class `ZoomImageView`.
  - Its fields are the view's state: zoom, base and image matrices, drawable size, view size, `oldScale`, `handlingTouch`, the pre-gesture rectangle, the animation, the scroller, the fling runnable's `lastX`/`lastY`, and whether the view has been given a frame by a layout pass.
  - Its methods are the source's methods and gesture callbacks. They update those fields in place, and each is specified against the pure functions of the other modules.

Detector, animator and scroller outputs become method parameters:

- scale factors and focus points;
- scroll distances and fling velocities;
- whether a pinch is in progress;
- whether the tap detector handled an event;
- the interpolated animation fraction;
- the scroller's "offset computed" verdict and its current position.

A non-finite pinch factor is an explicit flag. Listener callbacks are booleans, recording whether a listener is present and whether it was notified.

## Model

| member | source | states |
|---|---|---|
| `Transform.PostScaleMapsPoints` | app/src/main/java/com/k2/zoomimageview/ZoomImageView.kt:155 | postScale stays in the scale-plus-translation shape. It multiplies the scale, and every point maps to the old image scaled about the pivot. |
| `Transform.PostScale` | app/src/main/java/com/k2/zoomimageview/ZoomImageView.kt:155 | Matrix.postScale(k, k, px, py) on the scale-plus-translation shape: first the transform, then a scaling by k about the pivot. Its meaning is stated by PostScaleMapsPoints. |
| `Transform.PostTranslate` | app/src/main/java/com/k2/zoomimageview/ZoomImageView.kt:275 | Matrix.postTranslate(dx, dy): first the transform, then a shift. Its meaning is stated by PostTranslateMapsPoints. |
| `Transform.PostConcat` | app/src/main/java/com/k2/zoomimageview/ZoomImageView.kt:346 | Matrix.postConcat(other): first the transform, then the other one, which is again a scale plus a translation. |
| `Transform.DrawMatrix` | app/src/main/java/com/k2/zoomimageview/ZoomImageView.kt:343-348 | The draw matrix is the base matrix post-concatenated with the zoom matrix. Its meaning is stated by DrawMatrixMapsPoints. |
| `Transform.PostTranslateMapsPoints` | app/src/main/java/com/k2/zoomimageview/ZoomImageView.kt:275 | postTranslate keeps the scale and shifts every mapped point by exactly (dx, dy). |
| `Transform.DrawMatrixMapsPoints` | app/src/main/java/com/k2/zoomimageview/ZoomImageView.kt:343-348 | The draw matrix maps a point through the base matrix first and then the zoom matrix. Its scale is the product of the two scales. |
| `Transform.MapRect` | app/src/main/java/com/k2/zoomimageview/ZoomImageView.kt:337 | mapRect gives a sorted rectangle whose edges are the mapped content edges, in one order or the other. |
| `Transform.DisplayRect` | app/src/main/java/com/k2/zoomimageview/ZoomImageView.kt:331-341 | The displayed rectangle exists exactly when there is a drawable. |
| `Transform.DisplayRectSize` | app/src/main/java/com/k2/zoomimageview/ZoomImageView.kt:331-341 | The displayed width and height are the content width and height times the magnitude of the combined scale. |
| `Transform.DisplayRectOfBase` | app/src/main/java/com/k2/zoomimageview/ZoomImageView.kt:331-341 | With a non-negative base scale and an identity zoom, the displayed rectangle is the content scaled and placed at the base translation. |
| `Transform.DisplayRectTranslate` | app/src/main/java/com/k2/zoomimageview/ZoomImageView.kt:274-278 | Post-translating the zoom matrix shifts the displayed rectangle by the same amount and keeps its size. |
| `Transform.PostScaleFixesPivot` | app/src/main/java/com/k2/zoomimageview/ZoomImageView.kt:154-158 | A scale step leaves the content point shown at the pivot at the pivot. This is the focus point of a pinch or the tap point of a double-tap, before the bounds correction. |
| `Bounds.AxisDelta` | app/src/main/java/com/k2/zoomimageview/ZoomImageView.kt:287-309 | Per axis: an extent that fits ends centred, and a larger one ends covering the view. It ends flush with 0 if its low edge was inside the view, and flush with the view extent if its high edge was. |
| `Bounds.AxisDeltaZeroIffSettled` | app/src/main/java/com/k2/zoomimageview/ZoomImageView.kt:287-309 | The correction on an axis is 0 if and only if that axis is already settled (centred or covering). |
| `Bounds.BoundsDelta` | app/src/main/java/com/k2/zoomimageview/ZoomImageView.kt:287-309 | The pair (deltaX, deltaY) of setBounds: the per-axis correction of the horizontal and the vertical edges of the displayed rectangle. |
| `Bounds.AxisDeltaSettles` | app/src/main/java/com/k2/zoomimageview/ZoomImageView.kt:287-309 | After its correction an axis is settled, and a second pass computes 0. |
| `Bounds.BoundsDeltaAxesIndependent` | app/src/main/java/com/k2/zoomimageview/ZoomImageView.kt:280-311 | The x correction depends only on horizontal rectangle data, and the y correction only on vertical data. |
| `Bounds.Constrained` | app/src/main/java/com/k2/zoomimageview/ZoomImageView.kt:280-311 | setBounds only changes the translation. It leaves the zoom matrix alone when there is no drawable, and otherwise leaves the displayed rectangle settled on both axes. |
| `Bounds.ConstrainedRect` | app/src/main/java/com/k2/zoomimageview/ZoomImageView.kt:280-311 | setBounds keeps the rectangle's width and height. Per axis, the result is centred, covering, flush to the edge that left a gap, or unmoved when it already covered the view. |
| `Bounds.ConstrainedIdempotent` | app/src/main/java/com/k2/zoomimageview/ZoomImageView.kt:280-311 | A second setBounds changes nothing. |
| `Fit.FitCenter` | app/src/main/java/com/k2/zoomimageview/ZoomImageView.kt:202-205 | setRectToRect CENTER: an empty content gives the identity, and an empty view (with non-empty content) gives the zero matrix. |
| `Fit.FitCenterCentres` | app/src/main/java/com/k2/zoomimageview/ZoomImageView.kt:205 | For a non-empty content and view, the fit scale is the smaller ratio. The scaled content fits on both axes, fills at least one, and is centred on both. |
| `Fit.FitCenterTallImage` | app/src/main/java/com/k2/zoomimageview/ZoomImageView.kt:205 | A 1000 x 2000 image in a 500 x 500 view is fitted at scale 0.25 with horizontal offset 125. |
| `Fit.FittedRect` | app/src/main/java/com/k2/zoomimageview/ZoomImageView.kt:202-207 | The rectangle under the base matrix alone is the scaled content at the centring offsets, within the view. |
| `Fit.UnitZoomOverFitIsCentred` | app/src/main/java/com/k2/zoomimageview/ZoomImageView.kt:202-208 | Any zoom of scale 1 over the fit-centre base, once corrected by setBounds, shows exactly the fitted rectangle: centred, within the view. |
| `Fit.UnitZoomOverCentredBase` | app/src/main/java/com/k2/zoomimageview/ZoomImageView.kt:280-311 | The same for any positive base whose content rectangle is centred in the view and fits it. |
| `Scale.Clamp` | app/src/main/java/com/k2/zoomimageview/ZoomImageView.kt:170-175 | The setScaleAbsolute target always lies in [MinScale, MaxScale] and equals the request when the request is already in the band. |
| `Scale.ClampIsNearest` | app/src/main/java/com/k2/zoomimageview/ZoomImageView.kt:171-175 | The clamped target is the point of the band nearest to the request. |
| `Scale.DoubleTapTarget` | app/src/main/java/com/k2/zoomimageview/ZoomImageView.kt:71 | The double-tap target is MidScale if and only if the current scale is MinScale, and MinScale otherwise. It is never changed by the clamp. |
| `Scale.DoubleTapToggles` | app/src/main/java/com/k2/zoomimageview/ZoomImageView.kt:69-74 | Two double-tap targets starting from MinScale come back to MinScale. The targets alternate from the first one on. |
| `Scale.PinchGate` | app/src/main/java/com/k2/zoomimageview/ZoomImageView.kt:217-220 | A non-finite factor is refused. Above MaxScale a finite factor is accepted if and only if it is at most 1. At or below MaxScale every finite factor is accepted. |
| `Scale.PinchAccepted` | app/src/main/java/com/k2/zoomimageview/ZoomImageView.kt:217-220 | The onScale gate: a non-finite factor is refused, and so is a factor above 1 when the scale is above MaxScale. |
| `Scale.PinchAboveMaxNeverGrows` | app/src/main/java/com/k2/zoomimageview/ZoomImageView.kt:219-220 | Above MaxScale an accepted pinch never makes the scale larger. |
| `Scale.AnimatedValue` | app/src/main/java/com/k2/zoomimageview/ZoomImageView.kt:258-261 | The animated value starts at startZoom (fraction 0) and ends at endZoom (fraction 1). |
| `Scale.NeedsSnapBack` | app/src/main/java/com/k2/zoomimageview/ZoomImageView.kt:231 | onScaleEnd requests a snap-back exactly when the scale is below MinScale. |
| `Scale.AnimatedValueBetween` | app/src/main/java/com/k2/zoomimageview/ZoomImageView.kt:258-261 | For fractions in [0, 1] the animated value lies between the two ends. |
| `Gestures.ScrollConsumedBySize` | app/src/main/java/com/k2/zoomimageview/ZoomImageView.kt:105 | Whether a scroll is consumed depends on the sizes of the distances, not their signs. A scroll within the touch slop on both axes is never consumed. |
| `Gestures.ScrollIgnored` | app/src/main/java/com/k2/zoomimageview/ZoomImageView.kt:88 | onScroll does nothing while a pinch is in progress or when the scale is at or below MinScale. |
| `Gestures.ScrollConsumed` | app/src/main/java/com/k2/zoomimageview/ZoomImageView.kt:105 | A scroll is consumed when either distance exceeds the touch slop in absolute value. |
| `Gestures.ReleasesToParent` | app/src/main/java/com/k2/zoomimageview/ZoomImageView.kt:90-103 | Interception is released to the parent only when paging is allowed and, on the dominant axis, the drag heads to an edge flush with the view: right at viewWidth for a positive x distance, left at 0 for a negative one, and the same for y. |
| `Gestures.TouchDisallowsIntercept` | app/src/main/java/com/k2/zoomimageview/ZoomImageView.kt:142 | onTouchEvent disallows interception when the scale is above MinScale or a pinch is in progress. |
| `Gestures.ReleaseNeedsMovement` | app/src/main/java/com/k2/zoomimageview/ZoomImageView.kt:90-103 | The parent may intercept only if paging is not disallowed and the finger moved. |
| `Gestures.AxisStuckAtEdge` | app/src/main/java/com/k2/zoomimageview/ZoomImageView.kt:287-309 | On a settled axis pinned at the edge the drag heads to, setBounds exactly cancels the pan. |
| `Gestures.ReleaseOnlyWhenPanIsStuck` | app/src/main/java/com/k2/zoomimageview/ZoomImageView.kt:88-104 | For a settled pre-gesture rectangle, onScroll releases the gesture to the parent only when pan plus setBounds leaves the dominant-axis translation unchanged. That is, the image could not move that way. |
| `Gestures.FlushRightDragLeftReleases` | app/src/main/java/com/k2/zoomimageview/ZoomImageView.kt:92-96 | A pre-gesture rectangle 1000 wide, flush with the right edge of a 500 wide view, releases a 50 px leftward drag to the parent. |
| `Fling.FlingSeed` | app/src/main/java/com/k2/zoomimageview/ZoomImageView.kt:111-118 | The scroller starts at minus the pre-gesture rectangle's origin, with the velocity negated. Its range is how far the rectangle exceeds the view on each axis. |
| `Fling.PanSteps` | app/src/main/java/com/k2/zoomimageview/ZoomImageView.kt:129-135 | Each fling frame pans by the new position minus the previous one, the first frame by the first position minus the seed. |
| `Fling.FlingRangeIsCoveringOffsets` | app/src/main/java/com/k2/zoomimageview/ZoomImageView.kt:111-117 | For a rectangle larger than the view on an axis, an offset lies in the scroller range [0, max] if and only if the rectangle, moved to start at minus that offset, covers the view, so setBounds leaves it alone. |
| `Fling.PanStepsTelescope` | app/src/main/java/com/k2/zoomimageview/ZoomImageView.kt:128-136 | Over any run of frames, the pan steps sum to the last scroller position minus the seed. |
| `Fling.PanStepsUnique` | app/src/main/java/com/k2/zoomimageview/ZoomImageView.kt:129-135 | Any sequence whose first entry is the first position minus the seed, and whose later entries are each position minus the previous one, is PanSteps of the positions. |
| `Fling.SumSnoc` | app/src/main/java/com/k2/zoomimageview/ZoomImageView.kt:128-136 | Adding one more pan distance adds it to the total. |
| `ZoomView.ZoomImageView.constructor` | app/src/main/java/com/k2/zoomimageview/ZoomImageView.kt:27-67 | The initial state: identity matrices, no drawable and no frame yet. The view size is the position extent minus the paddings at construction (minus the paddings while the view is still at 0). oldScale is MinScale, with no animation, a finished scroller, no fling pending and no listeners. |
| `ZoomView.DrawableWidth` | app/src/main/java/com/k2/zoomimageview/ZoomImageView.kt:180-181 | The intrinsic width of the drawable, or 0 without one. |
| `ZoomView.DrawableHeight` | app/src/main/java/com/k2/zoomimageview/ZoomImageView.kt:183-184 | The intrinsic height of the drawable, or 0 without one. |
| `ZoomView.ZoomImageView.CurrentScale` | app/src/main/java/com/k2/zoomimageview/ZoomImageView.kt:313-317 | The scale entry of the zoom matrix. |
| `ZoomView.ZoomImageView.CurrentTransX` | app/src/main/java/com/k2/zoomimageview/ZoomImageView.kt:319-323 | The x translation entry of the zoom matrix. |
| `ZoomView.ZoomImageView.CurrentTransY` | app/src/main/java/com/k2/zoomimageview/ZoomImageView.kt:325-329 | The y translation entry of the zoom matrix. |
| `ZoomView.ZoomImageView.CurrentZoom` | app/src/main/java/com/k2/zoomimageview/ZoomImageView.kt:350-351 | The currentZoom getter is the current scale. |
| `ZoomView.ZoomImageView.ShownImageMatrix` | app/src/main/java/com/k2/zoomimageview/ZoomImageView.kt:191 | What the imageMatrix getter returns at line 191: the matrix last set when the view has a frame and a drawable of positive size, and the identity otherwise. |
| `ZoomView.ZoomImageView.SetDisallowPagingWhenZoomed` | app/src/main/java/com/k2/zoomimageview/ZoomImageView.kt:45 | Sets the paging flag and nothing else. |
| `ZoomView.ZoomImageView.SetOnClickListener` | app/src/main/java/com/k2/zoomimageview/ZoomImageView.kt:362-364 | Fills the single click-listener slot and nothing else. |
| `ZoomView.ZoomImageView.SetOnLongClickListener` | app/src/main/java/com/k2/zoomimageview/ZoomImageView.kt:366-368 | Fills the single long-click-listener slot and nothing else. |
| `ZoomView.ZoomImageView.SetBounds` | app/src/main/java/com/k2/zoomimageview/ZoomImageView.kt:280-311 | The imperative three-way branches on each axis leave the zoom matrix equal to Constrained of the old one. No other field changes. |
| `ZoomView.ZoomImageView.UpdateMatrix` | app/src/main/java/com/k2/zoomimageview/ZoomImageView.kt:160-164 | The image matrix becomes the draw matrix. |
| `ZoomView.ZoomImageView.SetZoom` | app/src/main/java/com/k2/zoomimageview/ZoomImageView.kt:154-158 | Scales about (x, y), then corrects the bounds. The new scale is the factor times the old one, and the image matrix is the new draw matrix. |
| `ZoomView.ZoomImageView.PanImage` | app/src/main/java/com/k2/zoomimageview/ZoomImageView.kt:274-278 | Translates by minus the distances, then corrects the bounds. The scale is unchanged and the image matrix is the new draw matrix. |
| `ZoomView.ZoomImageView.CancelAnimation` | app/src/main/java/com/k2/zoomimageview/ZoomImageView.kt:269-272 | The animation's listeners are gone (Idle), so no further tick applies. |
| `ZoomView.ZoomImageView.AnimateZoom` | app/src/main/java/com/k2/zoomimageview/ZoomImageView.kt:257-267 | Starts an animation from startZoom to endZoom about (x, y), and start() delivers its first frame at once. The zoom matrix is the fraction-0 frame of the old one (scale startZoom, bounds corrected), and the draw matrix is shown. |
| `ZoomView.ZoomImageView.SetScaleAbsolute` | app/src/main/java/com/k2/zoomimageview/ZoomImageView.kt:170-178 | Replaces any animation by one from oldScale to the clamped request, whose end lies in the band. Its first frame has already taken the zoom scale to oldScale about (x, y). |
| `ZoomView.ZoomImageView.AnimationTick` | app/src/main/java/com/k2/zoomimageview/ZoomImageView.kt:260-263 | A frame of a running animation is the AnimationFrame of the old zoom matrix at the animated value and the pivot, and the draw matrix is shown. A cancelled animation changes nothing. |
| `ZoomView.AnimationFrame` | app/src/main/java/com/k2/zoomimageview/ZoomImageView.kt:257-263 | One listener frame at animated value v. With a non-zero current scale the zoom scale becomes v: the factor v / currentScale is applied about the pivot and the bounds are corrected. At scale 0 the frame changes nothing. |
| `ZoomView.ScaleFactor` | app/src/main/java/com/k2/zoomimageview/ZoomImageView.kt:261 | The factor a frame hands to postScale is the one that takes the current scale to the animated value. |
| `ZoomView.ScaleFactorIsRatio` | app/src/main/java/com/k2/zoomimageview/ZoomImageView.kt:261 | That factor is the quotient animatedValue / currentScale the listener computes. |
| `ZoomView.FrameAtCurrentScaleOnlyCorrects` | app/src/main/java/com/k2/zoomimageview/ZoomImageView.kt:257-267 | A frame whose value is the current scale only applies setBounds. This is the first frame of a double-tap or of a snap-back, whose animations start at the current scale. |
| `ZoomView.ZoomImageView.ResetZoom` | app/src/main/java/com/k2/zoomimageview/ZoomImageView.kt:202-208 | The base matrix becomes the fit-centre of drawable and view, and an animation to MinScale about the view centre starts. Its first frame, under the new base, rescales the zoom matrix to oldScale with bounds corrected. Afterwards the image matrix is the base matrix. |
| `ZoomView.ZoomImageView.CopyImageMatrixToZoom` | app/src/main/java/com/k2/zoomimageview/ZoomImageView.kt:191 | The zoom matrix becomes what the imageMatrix getter returns: the matrix last set once the view has a frame and a drawable of positive size, and the identity before that. |
| `ZoomView.ZoomImageView.SetImageDrawable` | app/src/main/java/com/k2/zoomimageview/ZoomImageView.kt:186-193 | A non-null drawable is stored and notified, and resets the zoom. The zoom matrix then equals the base matrix if the view has a frame and the drawable a positive size, and the identity otherwise (before the first layout), never by reset. A null drawable changes only the drawable. |
| `ZoomView.ZoomImageView.OnLayout` | app/src/main/java/com/k2/zoomimageview/ZoomImageView.kt:195-200 | The view now has a frame, and its padded content size is recorded. A changed layout resets the zoom, including the reset animation's first frame on the zoom matrix. An unchanged one changes nothing else. |
| `ZoomView.ZoomImageView.SetCurrentZoom` | app/src/main/java/com/k2/zoomimageview/ZoomImageView.kt:350-354 | Setting currentZoom animates to the clamped value about the view centre. The first frame takes the zoom scale to oldScale. |
| `ZoomView.ZoomImageView.OnDoubleTap` | app/src/main/java/com/k2/zoomimageview/ZoomImageView.kt:69-74 | Records oldScale and animates from the current scale to the toggle target about the tap point. The first frame keeps the scale and only corrects the bounds. Always handled. |
| `ZoomView.ZoomImageView.OnSingleTapConfirmed` | app/src/main/java/com/k2/zoomimageview/ZoomImageView.kt:76-79 | Notifies the click listener exactly when one is set. Always handled. |
| `ZoomView.ZoomImageView.OnLongPress` | app/src/main/java/com/k2/zoomimageview/ZoomImageView.kt:81-83 | Notifies the long-click listener exactly when one is set. |
| `ZoomView.ZoomImageView.OnScroll` | app/src/main/java/com/k2/zoomimageview/ZoomImageView.kt:85-106 | Ignored during a pinch or at or below MinScale: nothing changes and false is returned. Otherwise it pans and corrects, tells the parent it may intercept exactly when the edge test releases, and returns whether the slop was exceeded. |
| `ZoomView.ZoomImageView.OnFling` | app/src/main/java/com/k2/zoomimageview/ZoomImageView.kt:108-121 | Seeds lastX/lastY and the scroller from the pre-gesture rectangle and posts the runnable. Always handled. |
| `ZoomView.ZoomImageView.RunFling` | app/src/main/java/com/k2/zoomimageview/ZoomImageView.kt:125-138 | A removed frame does nothing. A live frame with a new offset pans by the offset minus the last one, records it and re-posts. Otherwise the scroller is finished and nothing is posted. |
| `ZoomView.LiveFlingFrame` | app/src/main/java/com/k2/zoomimageview/ZoomImageView.kt:125-138 | One frame of a live fling with a new offset returns the pan distance, which is the offset minus lastX/lastY. The zoom matrix is panned by minus that distance and corrected by setBounds, and the draw matrix is shown. lastX/lastY become the offset, and the fling stays posted with the scroller unchanged. |
| `ZoomView.FlingPans` | app/src/main/java/com/k2/zoomimageview/ZoomImageView.kt:129-135 | The zoom matrix after fling frames that pan by the given distances in turn, each followed by setBounds. The scale never changes. |
| `ZoomView.FlingPansSnoc` | app/src/main/java/com/k2/zoomimageview/ZoomImageView.kt:129-135 | One more frame pans the result of the earlier frames by minus its distance and corrects it. |
| `ZoomView.FlingPansWithoutDrawable` | app/src/main/java/com/k2/zoomimageview/ZoomImageView.kt:129-135 | With no drawable, setBounds does nothing, so the frames amount to one translation by minus the sum of the pan distances. |
| `ZoomView.FlingFrames` | app/src/main/java/com/k2/zoomimageview/ZoomImageView.kt:125-138 | Running the posted runnable over scroller positions xs, ys pans by PanSteps of the positions from the seed. The zoom matrix ends as FlingPans of the old zoom matrix by those pans, and the runnable stays posted. lastX and lastY end at the last position, the pans sum to it minus the seed, and the draw matrix is shown. Only the transform and fling fields change. |
| `ZoomView.ZoomImageView.OnTouchEvent` | app/src/main/java/com/k2/zoomimageview/ZoomImageView.kt:141-152 | Asks the parent not to intercept exactly when zoomed in or pinching. A touch-down stops the fling and captures the displayed rectangle. The scale detector sees the event only if the tap detector did not handle it, and the event is always handled. |
| `ZoomView.ZoomImageView.OnScaleBegin` | app/src/main/java/com/k2/zoomimageview/ZoomImageView.kt:211-214 | Marks a touch as being handled. |
| `ZoomView.ZoomImageView.OnScale` | app/src/main/java/com/k2/zoomimageview/ZoomImageView.kt:216-224 | Returns the pinch gate's verdict. A refused pinch changes nothing. An accepted one records oldScale, scales about the focus point and corrects the bounds, and the scale is multiplied by the factor. |
| `ZoomView.ZoomImageView.OnScaleEnd` | app/src/main/java/com/k2/zoomimageview/ZoomImageView.kt:226-237 | Records oldScale and always clears handlingTouch. Only from below MinScale does it start a snap animation to MinScale about the focus point, whose first frame keeps the scale and corrects the bounds. The draw matrix is then shown, unless the scale was 0. Otherwise the animation and the matrices are unchanged. |
| `ZoomView.DoubleTapTwiceFromMin` | app/src/main/java/com/k2/zoomimageview/ZoomImageView.kt:69-74 | Two double-taps from MinScale, each completed by its last animation frame, come back to MinScale. Only oldScale, the animation and the two matrices change. |
| `ZoomView.ResetZoomSettles` | app/src/main/java/com/k2/zoomimageview/ZoomImageView.kt:202-208 | After resetZoom and the last frame of its animation, an image and a view of positive size show exactly the rectangle of the base matrix alone at scale MinScale. It is centred in the view, within it, and fills it on at least one axis. The base matrix is the fit-centre of the view's own drawable and size, and only the base, the animation and the two matrices change. |
| `ZoomView.LastResetFrameSettles` | app/src/main/java/com/k2/zoomimageview/ZoomImageView.kt:257-263 | From the state resetZoom leaves (fit-centre base, animation to MinScale about the view centre), the animation's last frame shows the fitted rectangle: centred, within the view, one axis filled, equal to the base matrix's alone. |
| `ZoomView.LastResetFrameIsFitted` | app/src/main/java/com/k2/zoomimageview/ZoomImageView.kt:202-208 | For the fit-centre base and any non-zero zoom, the reset animation's last frame has scale MinScale and shows the rectangle of the base alone, centred, within the view and filling one axis. |
| `ZoomView.DrawableBeforeFirstLayout` | app/src/main/java/com/k2/zoomimageview/ZoomImageView.kt:186-200 | A drawable set before the first layout leaves the zoom matrix at the identity. The first changed layout and the last frame of its reset animation then bring the scale to MinScale. The view then has the laid-out size and the fit-centre base of that drawable. |
| `ZoomView.LayoutResetsScale` | app/src/main/java/com/k2/zoomimageview/ZoomImageView.kt:195-200 | From non-zero scales, a changed layout brings the zoom scale to oldScale (the reset animation's first frame). The animation's last frame then leaves the view laid out at MinScale with the same drawable. The view size is the new frame's, and the base is the fit-centre of the drawable in it. |
| `ZoomView.TouchDownStopsFling` | app/src/main/java/com/k2/zoomimageview/ZoomImageView.kt:143-145 | After a touch-down, a fling frame leaves the transform and the fling state unchanged. The base, drawable and view size are outside the frame. |
| `ZoomView.ScrollAtRightEdgeReleasesParent` | app/src/main/java/com/k2/zoomimageview/ZoomImageView.kt:85-106 | At scale 2, with the pre-gesture rectangle flush with the right edge of a 500 x 500 view, a 50 px leftward drag releases the gesture to the parent. The zoom matrix is panned by 50 px to the left and corrected by setBounds, and the draw matrix is shown. The result is whether 50 exceeds the touch slop. Only the two matrices and the intercept request change. |

## Left out

- MainActivity.kt (the activity and its network image load) is not part of this model.
- Gesture recognition, tap versus double-tap timing, scroller deceleration and the animator's timing curve are left out. Their outputs are method parameters.
- Floating point is modelled by reals. A non-finite pinch factor is a boolean flag, and the exact equality tests of the edge check are over reals.
- Rendering is left out: onDraw, the debug text (logText), the text paint and the hand-off of the matrix to the platform view beyond the recorded image matrix.
- The platform ImageView is not part of this model. Its imageMatrix getter is modelled by ShownImageMatrix: it returns the last matrix set once the view has a frame and a drawable of positive size, and the identity before that. Layout gives the frame (hasFrame, set by OnLayout).
- `onDrawableLoaded` is a notification flag returned by SetImageDrawable. The listeners themselves are left out; only their presence is recorded.
- ZoomView.ZoomImageView.AnimationTick: when the current scale is 0 the source divides by zero and produces a non-finite factor. The model makes that frame change nothing. The same holds for AnimationFrame and for the first frame applied by AnimateZoom, so the client methods that follow a reset to MinScale require a non-zero oldScale.
- ZoomView.ZoomImageView.AnimateZoom: only the first frame, which start() delivers synchronously, is applied inside the method. Later frames are AnimationTick steps whose interpolated fraction is a parameter, and their timing is left out.
- Fling.FlingSeed: the `toInt()` truncations of the start, the velocity and the range are not modelled. The scroller's clamping of positions to its range belongs to its physics and is left out.
- ZoomView.ZoomImageView.RunFling: the scroller's positions are parameters. Whether a frame is still posted is an explicit flag that stands for postOnAnimation and removeCallbacks.

Where the code and the behaviour described for it differ, the model follows the code:

- onScaleEnd snaps back only from below MinScale, not from above MaxScale.
- The fling range is not clamped at 0.
- The touch-slop test looks at each scroll event's own distances, not a running total.
- A change of layout does not cancel a running fling.
- After a drawable is set, the zoom matrix is a copy of what the imageMatrix getter returns: the base matrix once the view has been laid out, not a zoom reset to the identity.
- Neither onTouchEvent (lines 141-152) nor onScale (lines 216-224) cancels a running zoom animation. Its frames can therefore interleave with a pinch or a pan, and the model allows an AnimationTick between any two gesture steps.
- onDrawableLoaded is invoked at once inside setImageDrawable (line 189), before resetZoom, not once the view has settled.
