/** The bounds solver of setBounds: per axis, a corrective translation that
    centres a displayed extent no larger than the view and otherwise pulls
    a gap-leaving edge back to the view's edge. */
module Bounds {
  import opened Transform

  /** One axis of setBounds. lo and hi are the displayed rectangle's low and
      high edges on that axis, view the view's extent; the result is the
      translation to apply on that axis. */
  function AxisDelta(lo: real, hi: real, view: real): (d: real)
    ensures hi - lo <= view ==> lo + d == (view - (hi - lo)) / 2.0
    ensures hi - lo > view ==> lo + d <= 0.0 && hi + d >= view
    ensures hi - lo > view && lo > 0.0 ==> lo + d == 0.0
    ensures hi - lo > view && hi < view ==> hi + d == view
  {
    if hi - lo <= view then (view - (hi - lo)) / 2.0 - lo
    else if lo > 0.0 then -lo
    else if hi < view then view - hi
    else 0.0
  }

  /** An axis that needs no correction: centred when it fits, covering the
      view otherwise. */
  predicate AxisSettled(lo: real, hi: real, view: real) {
    if hi - lo <= view then lo == (view - (hi - lo)) / 2.0
    else lo <= 0.0 && hi >= view
  }

  /** The solver corrects exactly the unsettled axes. */
  lemma AxisDeltaZeroIffSettled(lo: real, hi: real, view: real)
    ensures AxisDelta(lo, hi, view) == 0.0 <==> AxisSettled(lo, hi, view)
  {
  }

  /** After its correction an axis is settled, so a second pass computes 0. */
  lemma AxisDeltaSettles(lo: real, hi: real, view: real)
    ensures AxisSettled(lo + AxisDelta(lo, hi, view), hi + AxisDelta(lo, hi, view), view)
    ensures AxisDelta(lo + AxisDelta(lo, hi, view), hi + AxisDelta(lo, hi, view), view) == 0.0
  {
    var d := AxisDelta(lo, hi, view);
    assert (hi + d) - (lo + d) == hi - lo;
    AxisDeltaZeroIffSettled(lo + d, hi + d, view);
  }

  /** The correction (deltaX, deltaY) for a displayed rectangle. */
  function BoundsDelta(r: Rect, viewWidth: int, viewHeight: int): (real, real) {
    (AxisDelta(r.left, r.right, viewWidth as real), AxisDelta(r.top, r.bottom, viewHeight as real))
  }

  predicate Settled(r: Rect, viewWidth: int, viewHeight: int) {
    AxisSettled(r.left, r.right, viewWidth as real) && AxisSettled(r.top, r.bottom, viewHeight as real)
  }

  /** The horizontal correction depends on horizontal rectangle data only,
      and the vertical one on vertical data only. */
  lemma BoundsDeltaAxesIndependent(r1: Rect, r2: Rect, viewWidth: int, viewHeight: int)
    ensures r1.left == r2.left && r1.right == r2.right ==>
      BoundsDelta(r1, viewWidth, viewHeight).0 == BoundsDelta(r2, viewWidth, viewHeight).0
    ensures r1.top == r2.top && r1.bottom == r2.bottom ==>
      BoundsDelta(r1, viewWidth, viewHeight).1 == BoundsDelta(r2, viewWidth, viewHeight).1
  {
  }

  /** setBounds on the zoom transform: no drawable leaves it alone; otherwise
      it is post-translated by the correction of the current displayed
      rectangle. Only the translation changes and the result is settled. */
  function Constrained(zoom: Affine, base: Affine, drawable: Option<Size>, viewWidth: int, viewHeight: int): (z: Affine)
    ensures z.s == zoom.s
    ensures drawable.None? ==> z == zoom
    ensures drawable.Some? ==> Settled(DisplayRect(base, z, drawable).value, viewWidth, viewHeight)
  {
    match DisplayRect(base, zoom, drawable)
    case None => zoom
    case Some(r) =>
      var delta := BoundsDelta(r, viewWidth, viewHeight);
      DisplayRectTranslate(base, zoom, drawable.value, delta.0, delta.1);
      AxisDeltaSettles(r.left, r.right, viewWidth as real);
      AxisDeltaSettles(r.top, r.bottom, viewHeight as real);
      PostTranslate(zoom, delta.0, delta.1)
  }

  /** What setBounds does to the displayed rectangle, axis by axis: its size is
      kept; an extent within the view ends centred; a larger one ends covering
      the view, flush with the low edge if that edge was inside the view, flush
      with the high edge if that edge was inside the view, and unmoved if
      neither was. */
  lemma ConstrainedRect(zoom: Affine, base: Affine, d: Size, viewWidth: int, viewHeight: int)
    ensures var r := DisplayRect(base, zoom, Some(d)).value;
      var r' := DisplayRect(base, Constrained(zoom, base, Some(d), viewWidth, viewHeight), Some(d)).value;
      var vw, vh := viewWidth as real, viewHeight as real;
      && r'.Width() == r.Width() && r'.Height() == r.Height()
      && (r.Width() <= vw ==> r'.left == (vw - r.Width()) / 2.0)
      && (r.Width() > vw ==> r'.left <= 0.0 && r'.right >= vw)
      && (r.Width() > vw && r.left > 0.0 ==> r'.left == 0.0)
      && (r.Width() > vw && r.right < vw ==> r'.right == vw)
      && (r.Width() > vw && r.left <= 0.0 && r.right >= vw ==> r'.left == r.left)
      && (r.Height() <= vh ==> r'.top == (vh - r.Height()) / 2.0)
      && (r.Height() > vh ==> r'.top <= 0.0 && r'.bottom >= vh)
      && (r.Height() > vh && r.top > 0.0 ==> r'.top == 0.0)
      && (r.Height() > vh && r.bottom < vh ==> r'.bottom == vh)
      && (r.Height() > vh && r.top <= 0.0 && r.bottom >= vh ==> r'.top == r.top)
  {
    var r := DisplayRect(base, zoom, Some(d)).value;
    var delta := BoundsDelta(r, viewWidth, viewHeight);
    DisplayRectTranslate(base, zoom, d, delta.0, delta.1);
  }

  /** setBounds is idempotent. */
  lemma ConstrainedIdempotent(zoom: Affine, base: Affine, drawable: Option<Size>, viewWidth: int, viewHeight: int)
    ensures var z := Constrained(zoom, base, drawable, viewWidth, viewHeight);
      Constrained(z, base, drawable, viewWidth, viewHeight) == z
  {
    var z := Constrained(zoom, base, drawable, viewWidth, viewHeight);
    if drawable.Some? {
      var r := DisplayRect(base, z, drawable).value;
      AxisDeltaZeroIffSettled(r.left, r.right, viewWidth as real);
      AxisDeltaZeroIffSettled(r.top, r.bottom, viewHeight as real);
    }
  }
}
