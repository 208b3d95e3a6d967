/** The geometry of `openAnimation`: a white centre line that grows from the middle, then the
    two halves of the frame growing up and down from the box's vertical centre, fading in, with
    a white flash near the end. Only the numbers are modelled; the drawing calls are not. */
module OpenAnimation {
  import opened Config
  import opened Wrappers
  import opened JsRuntime

  /** Inset of the flash rectangle from the frame's left and right edges. */
  const L_MARGIN_PADDING: real := 4.0
  /** Inset of the flash rectangle from the frame's top and bottom borders. */
  const FRAME_BORDER_WIDTH: real := 5.0
  /** The source's own unexplained correction to the flash rectangle's height. */
  const FLASH_HEIGHT_CORRECTION: real := 6.0

  datatype Rect = Rect(x: real, y: real, w: real, h: real)

  /** Pixel size of the frameTop image (frameBottom is drawn with the same size). */
  datatype ImageSize = ImageSize(width: real, height: real)

  /** What one call of `openAnimation` draws: the centre line's half-length `sideLength`,
      endpoints and visibility; the panel height `h`; where the two frame halves go; the tint
      alpha they are drawn with; and the flash rectangle, when there is one. */
  datatype Geometry = Geometry(
    sigma: real,
    sideLength: real,
    lineShown: bool,
    lineFromX: real,
    lineToX: real,
    yCenter: real,
    h: real,
    top: Rect,
    bottom: Rect,
    tintAlpha: real,
    flash: Option<Rect>)

  /** `Y_CENTER`: the vertical centre of the dialog box. */
  function YCenter(canvasHeight: real): real
  {
    canvasHeight - HEIGHT / 2.0 - BOTTOM_MARGIN
  }

  /** `σ`: the centre line's half-length as a percentage of the inner frame width. */
  function Sigma(s: real): real
  {
    MapRange(s, 0.01, 30.0, 0.0, 50.0, true)
  }

  /** `sideLength`: σ percent of the width between the two margins. */
  function SideLength(s: real, canvasWidth: real): real
  {
    (Sigma(s) / 100.0) * (canvasWidth - 2.0 * LEFT_MARGIN)
  }

  /** `h`: the height of each frame half, `slider30to100` percent of the image height. */
  function PanelHeight(s: real, imageHeight: real): real
  {
    imageHeight * MapRange(s, 30.0, 100.0, 0.01, 100.0, true) / 100.0
  }

  /** `openAnimation(slider0to100)` on a canvas of the given size. */
  function OpenGeometry(s: real, canvasWidth: real, canvasHeight: real, frameTop: ImageSize): (g: Geometry)
    ensures g.yCenter == canvasHeight - HEIGHT / 2.0 - BOTTOM_MARGIN
    ensures g.top.y + g.top.h == g.yCenter == g.bottom.y
    ensures g.top.h == g.bottom.h == g.h
    ensures g.top.x == g.bottom.x == LEFT_MARGIN && g.top.w == g.bottom.w == frameTop.width
    ensures g.lineFromX + g.lineToX == canvasWidth && g.lineToX - g.lineFromX == 2.0 * g.sideLength
    ensures g.lineShown <==> 0.1 < s < 32.0
    ensures g.flash.Some? <==> 80.0 <= s <= 99.0
    ensures 5.0 <= g.tintAlpha <= 100.0
  {
    var yc := YCenter(canvasHeight);
    var sideLength := SideLength(s, canvasWidth);
    var h := PanelHeight(s, frameTop.height);
    var w := frameTop.width;
    var transparency := Constrain(s, 5.0, 30.0);
    var flash :=
      if s >= 80.0 && s <= 99.0 then
        Some(Rect(LEFT_MARGIN + L_MARGIN_PADDING, yc - h + FRAME_BORDER_WIDTH,
                  w - L_MARGIN_PADDING * 2.0,
                  (h - FLASH_HEIGHT_CORRECTION) * 2.0 - 2.0 * FRAME_BORDER_WIDTH))
      else None;
    Geometry(
      Sigma(s), sideLength, s > 0.1 && s < 32.0,
      canvasWidth / 2.0 - sideLength, canvasWidth / 2.0 + sideLength, yc,
      h, Rect(LEFT_MARGIN, yc - h, w, h), Rect(LEFT_MARGIN, yc, w, h),
      if s >= 80.0 then 100.0 else transparency,
      flash)
  }

  /** Scaling a percentage `p` in [lo, hi] of a non-negative `base` keeps the order. */
  lemma {:induction false} PercentBounds(base: real, p: real, lo: real, hi: real)
    requires base >= 0.0 && lo <= p <= hi
    ensures base * lo / 100.0 <= base * p / 100.0 <= base * hi / 100.0
  {
    assert base * lo <= base * p;
    assert base * p <= base * hi;
  }

  /** σ is in [0, 50], 0 up to s = 0.01 and 50 from s = 30 on, and never decreases. */
  lemma SigmaFacts(s: real, t: real)
    ensures 0.0 <= Sigma(s) <= 50.0
    ensures s <= 0.01 ==> Sigma(s) == 0.0
    ensures s >= 30.0 ==> Sigma(s) == 50.0
    ensures s <= t ==> Sigma(s) <= Sigma(t)
  {
    MapRangeClamped(s, 0.01, 30.0, 0.0, 50.0);
    if s <= t { MapRangeMonotone(s, t, 0.01, 30.0, 0.0, 50.0); }
  }

  /** The line's half-length is between 0 and half the inner frame width. */
  lemma {:induction false} SideLengthBounds(s: real, canvasWidth: real)
    requires canvasWidth >= 2.0 * LEFT_MARGIN
    ensures 0.0 <= SideLength(s, canvasWidth) <= (canvasWidth - 2.0 * LEFT_MARGIN) / 2.0
  {
    SigmaFacts(s, s);
    var inner := canvasWidth - 2.0 * LEFT_MARGIN;
    PercentBounds(inner, Sigma(s), 0.0, 50.0);
    assert SideLength(s, canvasWidth) == inner * Sigma(s) / 100.0;
    assert inner * Sigma(s) / 100.0 <= inner * 50.0 / 100.0;
    assert inner * 50.0 / 100.0 == inner / 2.0;
  }

  /** The line's half-length never decreases as the slider grows. */
  lemma {:induction false} SideLengthMonotone(s: real, t: real, canvasWidth: real)
    requires canvasWidth >= 2.0 * LEFT_MARGIN && s <= t
    ensures SideLength(s, canvasWidth) <= SideLength(t, canvasWidth)
  {
    SigmaFacts(s, t);
    var inner := canvasWidth - 2.0 * LEFT_MARGIN;
    PercentBounds(inner, Sigma(s), Sigma(s), Sigma(t));
    assert SideLength(s, canvasWidth) == inner * Sigma(s) / 100.0;
    assert SideLength(t, canvasWidth) == inner * Sigma(t) / 100.0;
  }

  /** The panel height is between 0.01 % and 100 % of the image height, the minimum up to
      s = 30 and the full height from s = 100 on. */
  lemma {:induction false} PanelHeightBounds(s: real, imageHeight: real)
    requires imageHeight >= 0.0
    ensures imageHeight * 0.01 / 100.0 <= PanelHeight(s, imageHeight) <= imageHeight
    ensures s >= 100.0 ==> PanelHeight(s, imageHeight) == imageHeight
    ensures s <= 30.0 ==> PanelHeight(s, imageHeight) == imageHeight * 0.01 / 100.0
  {
    var p := MapRange(s, 30.0, 100.0, 0.01, 100.0, true);
    MapRangeClamped(s, 30.0, 100.0, 0.01, 100.0);
    PercentBounds(imageHeight, p, 0.01, 100.0);
    assert PanelHeight(s, imageHeight) == imageHeight * p / 100.0;
    assert imageHeight * p / 100.0 <= imageHeight * 100.0 / 100.0;
    assert imageHeight * 100.0 / 100.0 == imageHeight;
  }

  /** The panel height never decreases as the slider grows. */
  lemma {:induction false} PanelHeightMonotone(s: real, t: real, imageHeight: real)
    requires imageHeight >= 0.0 && s <= t
    ensures PanelHeight(s, imageHeight) <= PanelHeight(t, imageHeight)
  {
    var p := MapRange(s, 30.0, 100.0, 0.01, 100.0, true);
    var q := MapRange(t, 30.0, 100.0, 0.01, 100.0, true);
    MapRangeMonotone(s, t, 30.0, 100.0, 0.01, 100.0);
    PercentBounds(imageHeight, p, p, q);
  }

  /** For any slider value: σ is in [0, 50] and the line at most half the inner frame width,
      centred on the canvas; the panel height is between 0.01 % and 100 % of the image height;
      the top half ends and the bottom half starts at the box's vertical centre, both `h` tall;
      the tint alpha is in [5, 100]. */
  lemma GeometryBounds(s: real, canvasWidth: real, canvasHeight: real, frameTop: ImageSize)
    requires frameTop.height >= 0.0 && canvasWidth >= 2.0 * LEFT_MARGIN
    ensures var g := OpenGeometry(s, canvasWidth, canvasHeight, frameTop);
      && 0.0 <= g.sigma <= 50.0
      && 0.0 <= g.sideLength <= (canvasWidth - 2.0 * LEFT_MARGIN) / 2.0
      && g.lineFromX + g.lineToX == canvasWidth
      && frameTop.height * 0.01 / 100.0 <= g.h <= frameTop.height
      && g.top.y + g.top.h == g.yCenter == g.bottom.y
      && g.top.h == g.bottom.h == g.h
      && 5.0 <= g.tintAlpha <= 100.0
  {
    SigmaFacts(s, s);
    SideLengthBounds(s, canvasWidth);
    PanelHeightBounds(s, frameTop.height);
  }

  /** The centre line shows exactly for 0.1 < s < 32; σ is 0 up to s = 0.01, so the line has
      zero length there, and 50 from s = 30 on. */
  lemma CentreLine(s: real, canvasWidth: real, canvasHeight: real, frameTop: ImageSize)
    ensures var g := OpenGeometry(s, canvasWidth, canvasHeight, frameTop);
      && (g.lineShown <==> 0.1 < s < 32.0)
      && (s <= 0.01 ==> g.sigma == 0.0 && g.sideLength == 0.0 && g.lineFromX == g.lineToX)
      && (s >= 30.0 ==> g.sigma == 50.0)
  {
    SigmaFacts(s, s);
  }

  /** The flash shows exactly for 80 <= s <= 99, so not at the fully open s = 100; the tint is
      opaque from 80 on and follows `constrain(s, 5, 30)` below. */
  lemma FlashAndTint(s: real, canvasWidth: real, canvasHeight: real, frameTop: ImageSize)
    ensures var g := OpenGeometry(s, canvasWidth, canvasHeight, frameTop);
      && (g.flash.Some? <==> 80.0 <= s <= 99.0)
      && (s >= 80.0 ==> g.tintAlpha == 100.0)
      && (s < 80.0 ==> g.tintAlpha == Constrain(s, 5.0, 30.0))
      && (g.flash.Some? ==>
            g.flash.value.y == g.yCenter - g.h + FRAME_BORDER_WIDTH
            && g.flash.value.h == (g.h - FLASH_HEIGHT_CORRECTION) * 2.0 - 2.0 * FRAME_BORDER_WIDTH)
  {
  }

  /** At s = 100 the frame is at full height, opaque, with no flash and no centre line; at
      s = 0.01 the line has zero length and the panels their minimum height. */
  lemma Endpoints(canvasWidth: real, canvasHeight: real, frameTop: ImageSize)
    requires frameTop.height >= 0.0
    ensures var g := OpenGeometry(100.0, canvasWidth, canvasHeight, frameTop);
      g.h == frameTop.height && g.tintAlpha == 100.0 && g.flash.None? && !g.lineShown
    ensures var g := OpenGeometry(0.01, canvasWidth, canvasHeight, frameTop);
      g.sideLength == 0.0 && !g.lineShown && g.h == frameTop.height * 0.01 / 100.0
  {
    PanelHeightBounds(100.0, frameTop.height);
    PanelHeightBounds(0.01, frameTop.height);
    SigmaFacts(0.01, 0.01);
  }

  /** Opening further never shrinks the line or the panels. */
  lemma Opening(s: real, t: real, canvasWidth: real, canvasHeight: real, frameTop: ImageSize)
    requires s <= t && frameTop.height >= 0.0 && canvasWidth >= 2.0 * LEFT_MARGIN
    ensures OpenGeometry(s, canvasWidth, canvasHeight, frameTop).sideLength
            <= OpenGeometry(t, canvasWidth, canvasHeight, frameTop).sideLength
    ensures OpenGeometry(s, canvasWidth, canvasHeight, frameTop).h
            <= OpenGeometry(t, canvasWidth, canvasHeight, frameTop).h
  {
    SideLengthMonotone(s, t, canvasWidth);
    PanelHeightMonotone(s, t, frameTop.height);
  }
}
