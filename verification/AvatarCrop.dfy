/** The avatar cropper in exact arithmetic: what a square viewport shows of a bitmap. */
module AvatarCrops {
  const MIN_ZOOM: real := 1.0
  const MAX_ZOOM: real := 4.0

  /** `x` and `y` are how far the image centre sits from the viewport centre, in viewport pixels. */
  datatype Crop = Crop(zoom: real, x: real, y: real)

  datatype Size = Size(width: real, height: real)
  {
    predicate Valid() { width > 0.0 && height > 0.0 }
  }

  /** A square of source pixels. */
  datatype Square = Square(sx: real, sy: real, size: real)

  function Min(a: real, b: real): real { if a < b then a else b }

  function Max(a: real, b: real): real { if a < b then b else a }

  function Shorter(image: Size): real { Min(image.width, image.height) }

  function CoverScale(image: Size, box: real): real
    requires image.Valid()
  {
    box / Shorter(image)
  }

  function Scale(image: Size, box: real, zoom: real): real
    requires image.Valid()
  {
    CoverScale(image, box) * zoom
  }

  function ZoomWithin(zoom: real): (z: real)
    ensures MIN_ZOOM <= z <= MAX_ZOOM && (MIN_ZOOM <= zoom <= MAX_ZOOM ==> z == zoom)
  {
    Min(MAX_ZOOM, Max(MIN_ZOOM, zoom))
  }

  /** How far the image may be panned along an edge of this length before it uncovers the viewport. */
  function Margin(length: real, scale: real, box: real): (r: real)
    ensures r >= 0.0
  {
    Max(0.0, (length * scale - box) / 2.0)
  }

  function Clamped(value: real, max: real): (r: real)
    requires max >= 0.0
    ensures -max <= r <= max && (-max <= value <= max ==> r == value)
  {
    Min(max, Max(-max, value))
  }

  function ClampCrop(image: Size, box: real, crop: Crop): Crop
    requires image.Valid()
  {
    var zoom := ZoomWithin(crop.zoom);
    var scale := Scale(image, box, zoom);
    Crop(zoom, Clamped(crop.x, Margin(image.width, scale, box)), Clamped(crop.y, Margin(image.height, scale, box)))
  }

  function PanCrop(image: Size, box: real, crop: Crop, dx: real, dy: real): Crop
    requires image.Valid()
  {
    ClampCrop(image, box, crop.(x := crop.x + dx, y := crop.y + dy))
  }

  function ZoomCrop(image: Size, box: real, crop: Crop, zoom: real): Crop
    requires image.Valid() && crop.zoom > 0.0
  {
    ClampCrop(image, box, Zoomed(crop, ZoomWithin(zoom)))
  }

  /** Zoom about the viewport's centre: the pan grows with the zoom. */
  function Zoomed(crop: Crop, next: real): Crop
    requires crop.zoom > 0.0
  {
    Crop(next, Grown(crop.x, crop.zoom, next), Grown(crop.y, crop.zoom, next))
  }

  function Grown(pan: real, zoom: real, next: real): real
    requires zoom > 0.0
  {
    pan * (next / zoom)
  }

  /** The square's near edge along one axis, centred on the source point under the viewport's centre. */
  function Edge(length: real, scale: real, size: real, pan: real): real
    requires scale > 0.0
  {
    length / 2.0 - pan / scale - size / 2.0
  }

  /** The square before the last clamps. */
  function Centred(image: Size, box: real, crop: Crop): Square
    requires image.Valid() && box > 0.0 && crop.zoom > 0.0
  {
    ScalePositive(image, box, crop.zoom);
    var scale := Scale(image, box, crop.zoom);
    Square(Edge(image.width, scale, box / scale, crop.x), Edge(image.height, scale, box / scale, crop.y), box / scale)
  }

  function SourceRect(image: Size, box: real, crop: Crop): Square
    requires image.Valid() && box > 0.0
  {
    var safe := ClampCrop(image, box, crop);
    ScalePositive(image, box, safe.zoom);
    var scale := Scale(image, box, safe.zoom);
    var size := Min(Min(box / scale, image.width), image.height);
    Square(Min(image.width - size, Max(0.0, Edge(image.width, scale, size, safe.x))),
           Min(image.height - size, Max(0.0, Edge(image.height, scale, size, safe.y))), size)
  }

  // ---- arithmetic ----

  lemma ScalePositive(image: Size, box: real, zoom: real)
    requires image.Valid() && box > 0.0 && zoom > 0.0
    ensures CoverScale(image, box) > 0.0 && Scale(image, box, zoom) > 0.0
  {
    QuotientPositive(box, Shorter(image));
  }

  lemma QuotientPositive(a: real, b: real)
    requires a > 0.0 && b > 0.0
    ensures a / b > 0.0
  {
    assert a / b * b == a;
  }

  lemma DivideAway(a: real, b: real, c: real)
    requires b != 0.0 && a == c * b
    ensures a / b == c
  {
    assert a / b * b == a;
    assert (a / b - c) * b == 0.0;
  }

  lemma QuotientMonotone(a: real, b: real, c: real)
    requires a <= b && c > 0.0
    ensures a / c <= b / c
  {
    assert (b / c - a / c) * c == b - a;
  }

  lemma QuotientAntitone(a: real, b: real, c: real)
    requires a > 0.0 && 0.0 < b <= c
    ensures 0.0 < a / c <= a / b
  {
    QuotientPositive(a, c);
    assert a / b * b == a && a / c * c == a;
    assert a / c * (c - b) >= 0.0;
    assert (a / b - a / c) * b >= 0.0;
  }

  /** The viewport's edge in source pixels. */
  lemma SizeIs(image: Size, box: real, zoom: real)
    requires image.Valid() && box > 0.0 && zoom > 0.0
    ensures Scale(image, box, zoom) > 0.0 && box / Scale(image, box, zoom) == Shorter(image) / zoom
  {
    ScalePositive(image, box, zoom);
    var m, s := Shorter(image), CoverScale(image, box);
    assert s * m == box;
    assert m / zoom * zoom == m;
    assert m / zoom * (s * zoom) == box by {
      assert m / zoom * (s * zoom) == (m / zoom * zoom) * s;
    }
    DivideAway(box, s * zoom, m / zoom);
  }

  /** At a zoom of one or more the viewport is no longer than any edge, and the margin is what sticks out of it. */
  lemma MarginIs(image: Size, box: real, zoom: real, length: real)
    requires image.Valid() && box > 0.0 && zoom >= MIN_ZOOM && length >= Shorter(image)
    ensures var scale := Scale(image, box, zoom);
            && scale > 0.0 && 0.0 < box / scale <= length
            && Margin(length, scale, box) == (length * scale - box) / 2.0
            && Margin(length, scale, box) / scale == (length - box / scale) / 2.0
  {
    ScalePositive(image, box, zoom);
    var m, s := Shorter(image), CoverScale(image, box);
    var scale := Scale(image, box, zoom);
    assert s * m == box;
    assert (length - m) * scale >= 0.0;
    assert m * scale == box * zoom;
    assert box * (zoom - 1.0) >= 0.0;
    var margin := (length * scale - box) / 2.0;
    assert margin >= 0.0;
    assert box / scale * scale == box;
    QuotientPositive(box, scale);
    QuotientMonotone(box, length * scale, scale);
    DivideAway(length * scale, scale, length);
    assert (length - box / scale) / 2.0 * scale == margin;
    DivideAway(margin, scale, (length - box / scale) / 2.0);
  }

  // ---- one axis ----

  /** A pan within its margin leaves the square inside the image. */
  lemma AxisInside(image: Size, box: real, zoom: real, length: real, value: real)
    requires image.Valid() && box > 0.0 && zoom >= MIN_ZOOM && length >= Shorter(image)
    ensures var scale := Scale(image, box, zoom);
            && scale > 0.0 && 0.0 < box / scale <= length
            && 0.0 <= Edge(length, scale, box / scale, Clamped(value, Margin(length, scale, box))) <= length - box / scale
  {
    MarginIs(image, box, zoom, length);
    var scale := Scale(image, box, zoom);
    var margin := Margin(length, scale, box);
    var pan := Clamped(value, margin);
    QuotientMonotone(pan, margin, scale);
    QuotientMonotone(-margin, pan, scale);
    assert (-margin) / scale == -(margin / scale);
  }

  /** Moving the pan moves the edge the other way, until the square meets the border. */
  lemma PannedEdge(image: Size, box: real, zoom: real, length: real, pan: real, d: real)
    requires image.Valid() && box > 0.0 && zoom >= MIN_ZOOM && length >= Shorter(image)
    ensures var scale := Scale(image, box, zoom);
            && scale > 0.0
            && Edge(length, scale, box / scale, Clamped(pan + d, Margin(length, scale, box))) ==
               Min(length - box / scale, Max(0.0, Edge(length, scale, box / scale, pan) - d / scale))
  {
    MarginIs(image, box, zoom, length);
    var scale := Scale(image, box, zoom);
    var margin := Margin(length, scale, box);
    assert (pan + d) / scale == pan / scale + d / scale;
    assert (-margin) / scale == -(margin / scale);
    if pan + d <= -margin {
      QuotientMonotone(pan + d, -margin, scale);
    } else if pan + d >= margin {
      QuotientMonotone(margin, pan + d, scale);
    } else {
      QuotientMonotone(-margin, pan + d, scale);
      QuotientMonotone(pan + d, margin, scale);
    }
  }

  lemma ScaledPan(pan: real, scale: real, ratio: real)
    requires scale > 0.0 && ratio > 0.0
    ensures scale * ratio > 0.0 && (pan * ratio) / (scale * ratio) == pan / scale
  {
    assert pan / scale * scale == pan;
    assert pan * ratio == pan / scale * (scale * ratio);
    DivideAway(pan * ratio, scale * ratio, pan / scale);
  }

  lemma ScaledMargin(length: real, scale: real, box: real, ratio: real, pan: real)
    requires box > 0.0 && ratio >= 1.0 && length * scale >= box
    requires -Margin(length, scale, box) <= pan <= Margin(length, scale, box)
    ensures -Margin(length, scale * ratio, box) <= pan * ratio <= Margin(length, scale * ratio, box)
  {
    var margin := Margin(length, scale, box);
    MarginStretches(length, scale, box, ratio);
    ProductMonotone(pan, margin, ratio);
    ProductMonotone(-margin, pan, ratio);
    NegatedProduct(margin, ratio);
  }

  lemma NegatedProduct(a: real, b: real)
    ensures (-a) * b == -(a * b)
  {
  }

  /** The stretched margin still fits the margin at the larger scale. */
  lemma MarginStretches(length: real, scale: real, box: real, ratio: real)
    requires box > 0.0 && ratio >= 1.0 && length * scale >= box
    ensures Margin(length, scale, box) * ratio <= Margin(length, scale * ratio, box)
  {
    var sticks := length * scale;
    StretchedHalf(sticks, box, ratio);
    assert length * (scale * ratio) == sticks * ratio;
  }

  lemma StretchedHalf(sticks: real, box: real, ratio: real)
    requires box > 0.0 && ratio >= 1.0
    ensures (sticks - box) / 2.0 * ratio <= (sticks * ratio - box) / 2.0
  {
    assert (sticks - box) * ratio == sticks * ratio - box * ratio;
    ProductMonotone(1.0, ratio, box);
  }

  lemma ProductMonotone(a: real, b: real, c: real)
    requires a <= b && c >= 0.0
    ensures a * c <= b * c
  {
    assert (b - a) * c >= 0.0;
  }

  // ---- the crop ----

  /**
    * After the clamp the viewport shows a square of the shorter edge over the zoom, wholly inside the bitmap, so
    * the last clamps of the source rectangle change nothing.
    */
  lemma ClampedCropIsInside(image: Size, box: real, crop: Crop)
    requires image.Valid() && box > 0.0
    ensures var safe := ClampCrop(image, box, crop);
            && MIN_ZOOM <= safe.zoom <= MAX_ZOOM
            && var r := SourceRect(image, box, crop);
               && r == Centred(image, box, safe) && r.size == Shorter(image) / safe.zoom
               && 0.0 < r.size && 0.0 <= r.sx && r.sx + r.size <= image.width && 0.0 <= r.sy && r.sy + r.size <= image.height
  {
    var zoom := ZoomWithin(crop.zoom);
    SizeIs(image, box, zoom);
    AxisInside(image, box, zoom, image.width, crop.x);
    AxisInside(image, box, zoom, image.height, crop.y);
  }

  lemma ClampIsIdempotent(image: Size, box: real, crop: Crop)
    requires image.Valid()
    ensures ClampCrop(image, box, ClampCrop(image, box, crop)) == ClampCrop(image, box, crop)
  {
  }

  /** A pan along an edge of this length that keeps the viewport covered. */
  predicate Legal(image: Size, box: real, zoom: real, length: real, pan: real)
    requires image.Valid()
  {
    -Margin(length, Scale(image, box, zoom), box) <= pan <= Margin(length, Scale(image, box, zoom), box)
  }

  lemma AxisZoomsIn(image: Size, box: real, zoom: real, next: real, length: real, pan: real)
    requires image.Valid() && box > 0.0 && MIN_ZOOM <= zoom <= next && length >= Shorter(image)
    requires Legal(image, box, zoom, length, pan)
    ensures Legal(image, box, next, length, Grown(pan, zoom, next))
    ensures Scale(image, box, zoom) > 0.0 && Scale(image, box, next) > 0.0
    ensures Grown(pan, zoom, next) / Scale(image, box, next) == pan / Scale(image, box, zoom)
  {
    ScaleGrows(image, box, zoom, next);
    LongEnough(image, box, zoom, length);
    AxisStretches(length, Scale(image, box, zoom), Scale(image, box, next), box, next / zoom, pan, Grown(pan, zoom, next));
  }

  lemma LongEnough(image: Size, box: real, zoom: real, length: real)
    requires image.Valid() && box > 0.0 && MIN_ZOOM <= zoom && length >= Shorter(image)
    ensures length * Scale(image, box, zoom) >= box
  {
    MarginIs(image, box, zoom, length);
    var scale := Scale(image, box, zoom);
    assert box / scale * scale == box;
    ProductMonotone(box / scale, length, scale);
  }

  lemma AxisStretches(length: real, scale: real, scale': real, box: real, ratio: real, pan: real, pan': real)
    requires box > 0.0 && scale > 0.0 && ratio >= 1.0 && length * scale >= box && scale' == scale * ratio && pan' == pan * ratio
    requires -Margin(length, scale, box) <= pan <= Margin(length, scale, box)
    ensures -Margin(length, scale', box) <= pan' <= Margin(length, scale', box)
    ensures scale' > 0.0 && pan' / scale' == pan / scale
  {
    ScaledMargin(length, scale, box, ratio, pan);
    ScaledPan(pan, scale, ratio);
  }

  lemma ScaleGrows(image: Size, box: real, zoom: real, next: real)
    requires image.Valid() && box > 0.0 && 0.0 < zoom <= next
    ensures next / zoom >= 1.0 && Scale(image, box, zoom) > 0.0
    ensures Scale(image, box, next) == Scale(image, box, zoom) * (next / zoom)
  {
    var ratio := next / zoom;
    assert zoom * ratio == next;
    QuotientMonotone(zoom, next, zoom);
    DivideAway(zoom, zoom, 1.0);
    ScalePositive(image, box, zoom);
    assert CoverScale(image, box) * (zoom * ratio) == CoverScale(image, box) * zoom * ratio;
  }

  lemma FittingIsUnclamped(image: Size, box: real, c: Crop)
    requires image.Valid()
    ensures ClampCrop(image, box, c) == c <==>
            MIN_ZOOM <= c.zoom <= MAX_ZOOM && Legal(image, box, c.zoom, image.width, c.x) && Legal(image, box, c.zoom, image.height, c.y)
  {
  }

  /** Zooming in from a clamped crop never hits the pan clamp. */
  lemma ZoomInIsUnclamped(image: Size, box: real, crop: Crop, zoom: real)
    requires image.Valid() && box > 0.0 && ClampCrop(image, box, crop) == crop && crop.zoom <= zoom <= MAX_ZOOM
    ensures ZoomCrop(image, box, crop, zoom) == Zoomed(crop, zoom)
  {
    FittingIsUnclamped(image, box, crop);
    AxisZoomsIn(image, box, crop.zoom, zoom, image.width, crop.x);
    AxisZoomsIn(image, box, crop.zoom, zoom, image.height, crop.y);
    FittingIsUnclamped(image, box, Zoomed(crop, zoom));
    assert ZoomWithin(zoom) == zoom;
  }

  lemma EdgeKeepsCentre(length: real, scale: real, scale': real, pan: real, pan': real, size: real, size': real)
    requires scale > 0.0 && scale' > 0.0 && pan' / scale' == pan / scale && 0.0 < size' <= size
    ensures var e, e' := Edge(length, scale, size, pan), Edge(length, scale', size', pan');
            e' + size' / 2.0 == e + size / 2.0 && e <= e' && e' + size' <= e + size
  {
  }

  lemma ZoomedIsNested(image: Size, box: real, crop: Crop, zoom: real)
    requires image.Valid() && box > 0.0 && MIN_ZOOM <= crop.zoom <= zoom
    requires Legal(image, box, crop.zoom, image.width, crop.x) && Legal(image, box, crop.zoom, image.height, crop.y)
    ensures var r, r' := Centred(image, box, crop), Centred(image, box, Zoomed(crop, zoom));
            && r'.sx + r'.size / 2.0 == r.sx + r.size / 2.0 && r'.sy + r'.size / 2.0 == r.sy + r.size / 2.0
            && r.sx <= r'.sx && r'.sx + r'.size <= r.sx + r.size && r.sy <= r'.sy && r'.sy + r'.size <= r.sy + r.size
  {
    var next := Zoomed(crop, zoom);
    var scale, scale' := Scale(image, box, crop.zoom), Scale(image, box, zoom);
    AxisZoomsIn(image, box, crop.zoom, zoom, image.width, crop.x);
    AxisZoomsIn(image, box, crop.zoom, zoom, image.height, crop.y);
    SizeIs(image, box, crop.zoom);
    SizeIs(image, box, zoom);
    QuotientAntitone(Shorter(image), crop.zoom, zoom);
    EdgeKeepsCentre(image.width, scale, scale', crop.x, next.x, box / scale, box / scale');
    EdgeKeepsCentre(image.height, scale, scale', crop.y, next.y, box / scale, box / scale');
  }

  /** What was in the middle stays in the middle, and the new square lies inside the old one. */
  lemma ZoomInIsNested(image: Size, box: real, crop: Crop, zoom: real)
    requires image.Valid() && box > 0.0 && ClampCrop(image, box, crop) == crop && crop.zoom <= zoom <= MAX_ZOOM
    ensures var r, r' := SourceRect(image, box, crop), SourceRect(image, box, ZoomCrop(image, box, crop, zoom));
            && r'.sx + r'.size / 2.0 == r.sx + r.size / 2.0 && r'.sy + r'.size / 2.0 == r.sy + r.size / 2.0
            && r.sx <= r'.sx && r'.sx + r'.size <= r.sx + r.size && r.sy <= r'.sy && r'.sy + r'.size <= r.sy + r.size
  {
    FittingIsUnclamped(image, box, crop);
    ZoomInIsUnclamped(image, box, crop, zoom);
    ClampIsIdempotent(image, box, Zoomed(crop, ZoomWithin(zoom)));
    ClampedCropIsInside(image, box, crop);
    ClampedCropIsInside(image, box, ZoomCrop(image, box, crop, zoom));
    ZoomedIsNested(image, box, crop, zoom);
  }

  /** Dragging slides the square against the drag, at the image's scale, and stops it at the bitmap's border. */
  lemma PanSlidesTheSquare(image: Size, box: real, crop: Crop, dx: real, dy: real)
    requires image.Valid() && box > 0.0 && ClampCrop(image, box, crop) == crop
    ensures var scale := Scale(image, box, crop.zoom);
            var r, r' := SourceRect(image, box, crop), SourceRect(image, box, PanCrop(image, box, crop, dx, dy));
            && scale > 0.0 && r'.size == r.size
            && r'.sx == Min(image.width - r.size, Max(0.0, r.sx - dx / scale))
            && r'.sy == Min(image.height - r.size, Max(0.0, r.sy - dy / scale))
  {
    var panned := PanCrop(image, box, crop, dx, dy);
    ClampIsIdempotent(image, box, crop.(x := crop.x + dx, y := crop.y + dy));
    ClampedCropIsInside(image, box, crop);
    ClampedCropIsInside(image, box, panned);
    PannedEdge(image, box, crop.zoom, image.width, crop.x, dx);
    PannedEdge(image, box, crop.zoom, image.height, crop.y, dy);
  }
}
