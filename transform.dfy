/** The transform algebra of the view: a uniform scale followed by a
    translation (an android.graphics.Matrix with no rotation or skew), the
    Android "post" operations on it, and the rectangle a content of a given
    intrinsic size occupies on screen. */
module Transform {

  datatype Option<T> = None | Some(value: T)

  function Abs(x: real): real { if x < 0.0 then -x else x }
  function Min(a: real, b: real): real { if a <= b then a else b }
  function Max(a: real, b: real): real { if a <= b then b else a }

  /** Maps (x, y) to (s * x + tx, s * y + ty). */
  datatype Affine = Affine(s: real, tx: real, ty: real)

  const Identity := Affine(1.0, 0.0, 0.0)

  function MapX(m: Affine, x: real): real { m.s * x + m.tx }
  function MapY(m: Affine, y: real): real { m.s * y + m.ty }

  /** Matrix.postScale(k, k, px, py): first m, then a scaling by k about the
      pivot (px, py). */
  function PostScale(m: Affine, k: real, px: real, py: real): Affine {
    Affine(k * m.s, k * (m.tx - px) + px, k * (m.ty - py) + py)
  }

  /** Matrix.postTranslate(dx, dy): first m, then a shift by (dx, dy). */
  function PostTranslate(m: Affine, dx: real, dy: real): Affine {
    Affine(m.s, m.tx + dx, m.ty + dy)
  }

  /** Matrix.postConcat(other): first m, then other. */
  function PostConcat(m: Affine, other: Affine): Affine {
    Affine(other.s * m.s, other.s * m.tx + other.tx, other.s * m.ty + other.ty)
  }

  /** The draw matrix: the base (fit) transform followed by the zoom transform. */
  function DrawMatrix(base: Affine, zoom: Affine): Affine {
    PostConcat(base, zoom)
  }

  /** The post operations stay inside the scale-plus-translation shape and
      compose as "first m, then the operation": a point mapped by the result
      is the point mapped by m and then scaled about the pivot, shifted, or
      mapped by the other transform. */
  lemma PostScaleMapsPoints(m: Affine, k: real, px: real, py: real, x: real, y: real)
    ensures PostScale(m, k, px, py).s == k * m.s
    ensures MapX(PostScale(m, k, px, py), x) == k * (MapX(m, x) - px) + px
    ensures MapY(PostScale(m, k, px, py), y) == k * (MapY(m, y) - py) + py
  {
    assert k * (m.s * x + m.tx - px) == k * (m.s * x) + k * (m.tx - px);
    assert k * (m.s * y + m.ty - py) == k * (m.s * y) + k * (m.ty - py);
  }

  lemma PostTranslateMapsPoints(m: Affine, dx: real, dy: real, x: real, y: real)
    ensures PostTranslate(m, dx, dy).s == m.s
    ensures MapX(PostTranslate(m, dx, dy), x) == MapX(m, x) + dx
    ensures MapY(PostTranslate(m, dx, dy), y) == MapY(m, y) + dy
  {
  }

  lemma DrawMatrixMapsPoints(base: Affine, zoom: Affine, x: real, y: real)
    ensures DrawMatrix(base, zoom).s == zoom.s * base.s
    ensures MapX(DrawMatrix(base, zoom), x) == MapX(zoom, MapX(base, x))
    ensures MapY(DrawMatrix(base, zoom), y) == MapY(zoom, MapY(base, y))
  {
    assert zoom.s * (base.s * x + base.tx) == (zoom.s * base.s) * x + zoom.s * base.tx;
    assert zoom.s * (base.s * y + base.ty) == (zoom.s * base.s) * y + zoom.s * base.ty;
  }

  /** A RectF: left, top, right, bottom. */
  datatype Rect = Rect(left: real, top: real, right: real, bottom: real) {
    function Width(): real { right - left }
    function Height(): real { bottom - top }
  }

  function Shift(r: Rect, dx: real, dy: real): Rect {
    Rect(r.left + dx, r.top + dy, r.right + dx, r.bottom + dy)
  }

  /** Matrix.mapRect: the bounding box of the mapped corners (the result is
      sorted even when the scale is negative). */
  function MapRect(m: Affine, r: Rect): (res: Rect)
    ensures res.left <= res.right && res.top <= res.bottom
    ensures || (res.left == MapX(m, r.left) && res.right == MapX(m, r.right))
            || (res.left == MapX(m, r.right) && res.right == MapX(m, r.left))
    ensures || (res.top == MapY(m, r.top) && res.bottom == MapY(m, r.bottom))
            || (res.top == MapY(m, r.bottom) && res.bottom == MapY(m, r.top))
  {
    Rect(Min(MapX(m, r.left), MapX(m, r.right)), Min(MapY(m, r.top), MapY(m, r.bottom)),
         Max(MapX(m, r.left), MapX(m, r.right)), Max(MapY(m, r.top), MapY(m, r.bottom)))
  }

  /** The intrinsic size of a drawable (Drawable.intrinsicWidth/Height). */
  datatype Size = Size(width: int, height: int)

  function ContentRect(d: Size): Rect {
    Rect(0.0, 0.0, d.width as real, d.height as real)
  }

  /** The displayed rectangle: the content rectangle mapped through the draw
      matrix, or None when there is no drawable. */
  function DisplayRect(base: Affine, zoom: Affine, drawable: Option<Size>): (r: Option<Rect>)
    ensures r.Some? <==> drawable.Some?
  {
    match drawable
    case None => None
    case Some(d) => Some(MapRect(DrawMatrix(base, zoom), ContentRect(d)))
  }

  /** The displayed rectangle is the content scaled by the magnitude of the
      combined scale. */
  lemma DisplayRectSize(base: Affine, zoom: Affine, d: Size)
    ensures var r := DisplayRect(base, zoom, Some(d)).value;
      && r.Width() == Abs(zoom.s * base.s) * Abs(d.width as real)
      && r.Height() == Abs(zoom.s * base.s) * Abs(d.height as real)
  {
    var m := DrawMatrix(base, zoom);
    var w, h := d.width as real, d.height as real;
    assert MapX(m, 0.0) == m.tx && MapY(m, 0.0) == m.ty;
    MappedExtent(m.s, m.tx, w);
    MappedExtent(m.s, m.ty, h);
    assert m.s == zoom.s * base.s;
  }

  /** Under a non-negative base scale and no zoom, the displayed rectangle is
      the content rectangle scaled and placed at the base translation. */
  lemma DisplayRectOfBase(base: Affine, d: Size)
    requires base.s >= 0.0 && d.width >= 0 && d.height >= 0
    ensures DisplayRect(base, Identity, Some(d))
         == Some(Rect(base.tx, base.ty, base.tx + base.s * d.width as real, base.ty + base.s * d.height as real))
  {
    assert DrawMatrix(base, Identity) == base;
    assert 0.0 <= base.s * d.width as real && 0.0 <= base.s * d.height as real;
  }

  /** The extent of a segment [0, w] mapped by x -> s * x + t. */
  lemma MappedExtent(s: real, t: real, w: real)
    ensures Max(t, s * w + t) - Min(t, s * w + t) == Abs(s) * Abs(w)
  {
    if s < 0.0 && w < 0.0 {
      assert s * w == (-s) * (-w);
    } else if s < 0.0 {
      assert s * w == -((-s) * w);
    } else if w < 0.0 {
      assert s * w == -(s * (-w));
    }
  }

  /** Post-translating the zoom transform shifts the displayed rectangle by
      exactly the translation and leaves its size alone. */
  lemma DisplayRectTranslate(base: Affine, zoom: Affine, d: Size, dx: real, dy: real)
    ensures DisplayRect(base, PostTranslate(zoom, dx, dy), Some(d))
         == Some(Shift(DisplayRect(base, zoom, Some(d)).value, dx, dy))
  {
    var m := DrawMatrix(base, zoom);
    var moved := DrawMatrix(base, PostTranslate(zoom, dx, dy));
    assert moved.s == m.s && moved.tx == m.tx + dx && moved.ty == m.ty + dy;
    assert moved == PostTranslate(m, dx, dy);
    var c := ContentRect(d);
    assert MapX(PostTranslate(m, dx, dy), c.right) == MapX(m, c.right) + dx;
    assert MapY(PostTranslate(m, dx, dy), c.bottom) == MapY(m, c.bottom) + dy;
  }

  /** A scale step keeps the screen point at its pivot where it is: the content
      point displayed at the pivot before PostScale is displayed there after. */
  lemma PostScaleFixesPivot(base: Affine, zoom: Affine, k: real, px: real, py: real, cx: real, cy: real)
    requires MapX(DrawMatrix(base, zoom), cx) == px && MapY(DrawMatrix(base, zoom), cy) == py
    ensures MapX(DrawMatrix(base, PostScale(zoom, k, px, py)), cx) == px
    ensures MapY(DrawMatrix(base, PostScale(zoom, k, px, py)), cy) == py
  {
    DrawMatrixMapsPoints(base, zoom, cx, cy);
    DrawMatrixMapsPoints(base, PostScale(zoom, k, px, py), cx, cy);
    PostScaleMapsPoints(zoom, k, px, py, MapX(base, cx), MapY(base, cy));
  }
}
