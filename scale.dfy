/** The scale band and the rules that pick and gate scales: the clamp of
    setScaleAbsolute, the double-tap toggle, the pinch gate, the snap-back
    test at the end of a pinch, and the zoom animation's interpolated value. */
module Scale {
  import opened Transform

  const MinScale: real := 1.0
  const MidScale: real := 1.75
  const MaxScale: real := 3.0

  /** The target of setScaleAbsolute: the requested scale held into the band. */
  function Clamp(scale: real): (zoom: real)
    ensures MinScale <= zoom <= MaxScale
    ensures MinScale <= scale <= MaxScale ==> zoom == scale
  {
    if scale > MaxScale then MaxScale
    else if scale < MinScale then MinScale
    else scale
  }

  /** The clamped scale is the point of the band nearest to the request. */
  lemma ClampIsNearest(scale: real, y: real)
    requires MinScale <= y <= MaxScale
    ensures Abs(Clamp(scale) - scale) <= Abs(y - scale)
  {
  }

  /** The double-tap target: MidScale exactly when the current scale is
      MinScale, MinScale otherwise. Always a point of the band. */
  function DoubleTapTarget(currentScale: real): (target: real)
    ensures target == MidScale <==> currentScale == MinScale
    ensures target == MinScale <==> currentScale != MinScale
    ensures Clamp(target) == target
  {
    if currentScale != MinScale then MinScale else MidScale
  }

  /** Two double-taps from MinScale come back to MinScale, and from any scale
      the targets alternate between MidScale and MinScale after the first. */
  lemma DoubleTapToggles(currentScale: real)
    ensures DoubleTapTarget(DoubleTapTarget(MinScale)) == MinScale
    ensures DoubleTapTarget(DoubleTapTarget(DoubleTapTarget(currentScale))) == DoubleTapTarget(currentScale)
  {
  }

  /** The gate of onScale: a NaN or infinite factor is refused, and so is any
      zoom-in once the scale is above MaxScale. */
  predicate PinchAccepted(currentScale: real, factor: real, nonFinite: bool) {
    !nonFinite && !(currentScale > MaxScale && factor > 1.0)
  }

  /** A non-finite factor is always refused; above MaxScale a finite factor is
      accepted exactly when it does not zoom in, and at or below MaxScale every
      finite factor is accepted. */
  lemma PinchGate(currentScale: real, factor: real, nonFinite: bool)
    ensures nonFinite ==> !PinchAccepted(currentScale, factor, nonFinite)
    ensures currentScale > MaxScale ==> (PinchAccepted(currentScale, factor, false) <==> factor <= 1.0)
    ensures currentScale <= MaxScale ==> PinchAccepted(currentScale, factor, false)
  {
  }

  /** Above MaxScale an accepted pinch never makes the scale larger (scales
      are positive there). */
  lemma PinchAboveMaxNeverGrows(currentScale: real, factor: real)
    requires currentScale > MaxScale && PinchAccepted(currentScale, factor, false)
    ensures factor * currentScale <= currentScale
  {
  }

  /** onScaleEnd snaps back only from below the band. */
  predicate NeedsSnapBack(currentScale: real) {
    currentScale < MinScale
  }

  /** A ValueAnimator over [startZoom, endZoom] whose update listener scales
      about (pivotX, pivotY); Idle once cancelled (its listeners removed) or
      before any animation was started. */
  datatype ZoomAnimation = Idle | Running(startZoom: real, endZoom: real, pivotX: real, pivotY: real)

  /** The animated value at an interpolated fraction (FloatEvaluator). */
  function AnimatedValue(startZoom: real, endZoom: real, fraction: real): (v: real)
    ensures fraction == 0.0 ==> v == startZoom
    ensures fraction == 1.0 ==> v == endZoom
  {
    startZoom + fraction * (endZoom - startZoom)
  }

  /** For an interpolated fraction in [0, 1] the animated value lies between
      the two ends. */
  lemma AnimatedValueBetween(startZoom: real, endZoom: real, fraction: real)
    requires 0.0 <= fraction <= 1.0
    ensures Min(startZoom, endZoom) <= AnimatedValue(startZoom, endZoom, fraction) <= Max(startZoom, endZoom)
  {
    var span := endZoom - startZoom;
    var v := AnimatedValue(startZoom, endZoom, fraction);
    assert v == startZoom + fraction * span;
    if span >= 0.0 {
      FractionOfSpan(fraction, span);
      assert startZoom <= v <= endZoom;
    } else {
      FractionOfSpan(fraction, -span);
      assert fraction * span == -(fraction * (-span));
      assert endZoom <= v <= startZoom;
    }
  }

  /** A fraction in [0, 1] of a non-negative span lies in [0, span]. */
  lemma FractionOfSpan(fraction: real, span: real)
    requires 0.0 <= fraction <= 1.0 && 0.0 <= span
    ensures 0.0 <= fraction * span <= span
  {
    assert span - fraction * span == (1.0 - fraction) * span;
  }
}
