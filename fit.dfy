/** The base matrix: Matrix.setRectToRect(content, view, ScaleToFit.CENTER)
    for a content rectangle [0, 0, cw, ch] and a view rectangle [0, 0, vw, vh]. */
module Fit {
  import opened Transform
  import opened Bounds

  /** An empty source rectangle resets the matrix to identity; an empty
      destination gives the all-zero scale and translation. Otherwise the
      smaller of the two axis ratios is used for both axes, and half of the
      space left over on the other axis is added to its translation. */
  function FitCenter(cw: real, ch: real, vw: real, vh: real): (m: Affine)
    ensures !(0.0 < cw && 0.0 < ch) ==> m == Identity
    ensures 0.0 < cw && 0.0 < ch && !(0.0 < vw && 0.0 < vh) ==> m == Affine(0.0, 0.0, 0.0)
  {
    if !(0.0 < cw && 0.0 < ch) then Identity
    else if !(0.0 < vw && 0.0 < vh) then Affine(0.0, 0.0, 0.0)
    else
      var sx := vw / cw;
      var sy := vh / ch;
      if sx > sy then Affine(sy, (vw - cw * sy) / 2.0, 0.0)
      else Affine(sx, 0.0, (vh - ch * sx) / 2.0)
  }

  /** For a non-empty content and view: the fit scale is the smaller ratio, the
      scaled content fits the view on both axes and fills it on at least one,
      and it is centred on both. */
  lemma FitCenterCentres(cw: real, ch: real, vw: real, vh: real)
    requires 0.0 < cw && 0.0 < ch && 0.0 < vw && 0.0 < vh
    ensures var m := FitCenter(cw, ch, vw, vh);
      && m.s == Min(vw / cw, vh / ch) && m.s > 0.0
      && m.s * cw <= vw && m.s * ch <= vh
      && (m.s * cw == vw || m.s * ch == vh)
      && m.tx == (vw - m.s * cw) / 2.0
      && m.ty == (vh - m.s * ch) / 2.0
  {
    var sx := vw / cw;
    var sy := vh / ch;
    assert sx * cw == vw;
    assert sy * ch == vh;
    if sx > sy {
      assert sy * cw < sx * cw;
    } else {
      assert sx * ch <= sy * ch;
    }
  }

  /** The example of a 1000 x 2000 image in a 500 x 500 view: scale 0.25,
      displayed 250 x 500, offset 125 horizontally. */
  lemma FitCenterTallImage()
    ensures FitCenter(1000.0, 2000.0, 500.0, 500.0) == Affine(0.25, 125.0, 0.0)
  {
  }

  /** The fitted content rectangle: the content under the base matrix alone. */
  lemma FittedRect(d: Size, viewWidth: int, viewHeight: int)
    requires d.width > 0 && d.height > 0 && viewWidth > 0 && viewHeight > 0
    ensures var base := FitCenter(d.width as real, d.height as real, viewWidth as real, viewHeight as real);
      && DisplayRect(base, Identity, Some(d)).value
         == Rect(base.tx, base.ty, base.tx + base.s * d.width as real, base.ty + base.s * d.height as real)
      && base.s * d.width as real <= viewWidth as real
      && base.s * d.height as real <= viewHeight as real
      && base.tx == (viewWidth as real - base.s * d.width as real) / 2.0
      && base.ty == (viewHeight as real - base.s * d.height as real) / 2.0
  {
    var cw, ch, vw, vh := d.width as real, d.height as real, viewWidth as real, viewHeight as real;
    var base := FitCenter(cw, ch, vw, vh);
    FitCenterCentres(cw, ch, vw, vh);
    DisplayRectOfBase(base, d);
  }

  /** Any zoom transform of scale 1 over the fit-centre base, once setBounds
      has corrected it, shows exactly the fitted content rectangle, which is
      centred in the view, fits it and fills it on at least one axis. */
  lemma UnitZoomOverFitIsCentred(d: Size, viewWidth: int, viewHeight: int, zoom: Affine)
    requires d.width > 0 && d.height > 0 && viewWidth > 0 && viewHeight > 0 && zoom.s == 1.0
    ensures var base := FitCenter(d.width as real, d.height as real, viewWidth as real, viewHeight as real);
      var r := DisplayRect(base, Constrained(zoom, base, Some(d), viewWidth, viewHeight), Some(d)).value;
      && r == DisplayRect(base, Identity, Some(d)).value
      && r.left == (viewWidth as real - r.Width()) / 2.0
      && r.top == (viewHeight as real - r.Height()) / 2.0
      && r.Width() <= viewWidth as real && r.Height() <= viewHeight as real
      && (r.Width() == viewWidth as real || r.Height() == viewHeight as real)
  {
    var cw, ch, vw, vh := d.width as real, d.height as real, viewWidth as real, viewHeight as real;
    FittedRect(d, viewWidth, viewHeight);
    FitCenterCentres(cw, ch, vw, vh);
    UnitZoomOverCentredBase(d, viewWidth, viewHeight, zoom, FitCenter(cw, ch, vw, vh));
  }

  /** The same for any positive base scale whose content rectangle fits the
      view and is centred in it. */
  lemma UnitZoomOverCentredBase(d: Size, viewWidth: int, viewHeight: int, zoom: Affine, base: Affine)
    requires d.width > 0 && d.height > 0 && zoom.s == 1.0 && base.s > 0.0
    requires base.s * d.width as real <= viewWidth as real && base.s * d.height as real <= viewHeight as real
    requires base.tx == (viewWidth as real - base.s * d.width as real) / 2.0
    requires base.ty == (viewHeight as real - base.s * d.height as real) / 2.0
    ensures var r := DisplayRect(base, Constrained(zoom, base, Some(d), viewWidth, viewHeight), Some(d)).value;
      && r == Rect(base.tx, base.ty, base.tx + base.s * d.width as real, base.ty + base.s * d.height as real)
      && r.left == (viewWidth as real - r.Width()) / 2.0
      && r.top == (viewHeight as real - r.Height()) / 2.0
  {
    var fitted := Rect(base.tx, base.ty, base.tx + base.s * d.width as real, base.ty + base.s * d.height as real);
    DisplayRectOfBase(base, d);
    assert zoom == PostTranslate(Identity, zoom.tx, zoom.ty);
    DisplayRectTranslate(base, Identity, d, zoom.tx, zoom.ty);
    assert DisplayRect(base, zoom, Some(d)).value == Shift(fitted, zoom.tx, zoom.ty);
    ConstrainedRect(zoom, base, d, viewWidth, viewHeight);
  }
}
