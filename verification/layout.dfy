/** Geometry of the timestamp overlay: a background box anchored to the
    bottom-right corner of the image and the end-anchored timestamp text
    inside it. Coordinates are SVG user units with the origin at the
    top-left corner of the image and y growing downwards. Arithmetic is
    exact (`real`); the floating-point rounding of script.js is not
    modelled. */
module Layout {

  /** Distance between the overlay and the image's right and bottom edges. */
  const Padding: real := 20.0
  /** Inset of the text inside the background box. */
  const BgPadding: real := 7.0
  const MinFontSize: real := 16.0
  const MaxFontSize: real := 48.0
  /** The unclamped font size is the image width divided by this. */
  const WidthPerFontUnit: real := 30.0
  /** Estimated glyph advance, as a fraction of the font size. */
  const CharWidthFactor: real := 0.52

  datatype Rect = Rect(x: real, y: real, width: real, height: real)

  datatype Point = Point(x: real, y: real)

  /** The SVG layer composited onto the image: a canvas of the image's
      size, the background box, and the text with its font size, its
      estimated width and its anchor (the end of its baseline). */
  datatype Overlay = Overlay(
    canvasWidth: nat,
    canvasHeight: nat,
    fontSize: real,
    textWidth: real,
    background: Rect,
    textAnchor: Point,
    text: string)

  function Max(a: real, b: real): real { if a < b then b else a }

  function Min(a: real, b: real): real { if a < b then a else b }

  /** Font size that scales with the image width, clamped to
      [MinFontSize, MaxFontSize]. */
  function FontSize(imageWidth: nat): (fs: real)
    ensures MinFontSize <= fs <= MaxFontSize
    ensures fs == imageWidth as real / WidthPerFontUnit <==> 480 <= imageWidth <= 1440
    ensures imageWidth < 480 ==> fs == MinFontSize
    ensures imageWidth > 1440 ==> fs == MaxFontSize
  {
    Max(MinFontSize, Min(imageWidth as real / WidthPerFontUnit, MaxFontSize))
  }

  /** Heuristic width of `length` characters at the given font size. */
  function EstimatedTextWidth(length: nat, fontSize: real): (w: real)
    requires fontSize > 0.0
    ensures w >= 0.0
    ensures w == 0.0 <==> length == 0
  {
    length as real * fontSize * CharWidthFactor
  }

  /** The width heuristic charges every character the same advance: the
      estimate is additive in the length, and one character costs
      CharWidthFactor times the font size. */
  lemma EstimatedTextWidthPerCharacter(a: nat, b: nat, fontSize: real)
    requires fontSize > 0.0
    ensures EstimatedTextWidth(a + b, fontSize) == EstimatedTextWidth(a, fontSize) + EstimatedTextWidth(b, fontSize)
    ensures EstimatedTextWidth(1, fontSize) == CharWidthFactor * fontSize
  {
  }

  /** The estimate grows in proportion to the font size. */
  lemma EstimatedTextWidthScales(length: nat, fontSize: real, k: real)
    requires fontSize > 0.0 && k > 0.0
    ensures EstimatedTextWidth(length, k * fontSize) == k * EstimatedTextWidth(length, fontSize)
  {
  }

  /** The overlay drawn for an image of the given size stamped with
      `timeString`. */
  function ComputeOverlay(imageWidth: nat, imageHeight: nat, timeString: string): (o: Overlay)
    // the layer covers exactly the image
    ensures o.canvasWidth == imageWidth && o.canvasHeight == imageHeight
    ensures o.text == timeString
    // the font size scales with the width, and the text width is the length heuristic
    ensures o.fontSize == FontSize(imageWidth)
    ensures MinFontSize <= o.fontSize <= MaxFontSize
    ensures o.textWidth == EstimatedTextWidth(|timeString|, o.fontSize)
    // the box leaves BgPadding around the estimated text on each side
    ensures o.background.width == o.textWidth + 2.0 * BgPadding
    ensures o.background.height == o.fontSize + 2.0 * BgPadding
    // right-anchored: the box ends Padding before the right edge, whatever the text
    ensures o.background.x + o.background.width == imageWidth as real - Padding
    ensures o.textAnchor.x == o.background.x + o.background.width - BgPadding
    ensures o.textAnchor.x - o.textWidth == o.background.x + BgPadding
    // the box's bottom edge lies Padding - BgPadding above the bottom of the image
    ensures o.background.y + o.background.height == imageHeight as real - Padding + BgPadding
    // the baseline sits half a box padding above the outer padding
    ensures o.textAnchor.y == imageHeight as real - Padding - BgPadding / 2.0
    // the baseline lies strictly inside the box, and so does the estimated glyph band above it
    ensures o.background.y < o.textAnchor.y - o.fontSize
    ensures o.textAnchor.y < o.background.y + o.background.height
  {
    var fontSize := FontSize(imageWidth);
    var textWidth := EstimatedTextWidth(|timeString|, fontSize);
    var textHeight := fontSize;
    var w := imageWidth as real;
    var h := imageHeight as real;
    Overlay(
      imageWidth,
      imageHeight,
      fontSize,
      textWidth,
      Rect(w - Padding - textWidth - BgPadding * 2.0,
           h - Padding - textHeight - BgPadding,
           textWidth + BgPadding * 2.0,
           textHeight + BgPadding * 2.0),
      Point(w - Padding - BgPadding, h - Padding - BgPadding / 2.0),
      timeString)
  }

  /** The background box lies within the image canvas. */
  predicate BoxInsideCanvas(o: Overlay) {
    && 0.0 <= o.background.x
    && 0.0 <= o.background.y
    && o.background.x + o.background.width <= o.canvasWidth as real
    && o.background.y + o.background.height <= o.canvasHeight as real
  }

  /** The box fits in the image exactly when the image is wide enough for
      the estimated text plus the paddings, and tall enough for one line of
      text plus the paddings. */
  lemma BoxInsideCanvasIff(imageWidth: nat, imageHeight: nat, timeString: string)
    ensures var o := ComputeOverlay(imageWidth, imageHeight, timeString);
      BoxInsideCanvas(o) <==>
        && imageWidth as real >= Padding + o.textWidth + 2.0 * BgPadding
        && imageHeight as real >= Padding + o.fontSize + BgPadding
  {
  }

  /** With the tool's fixed 20-character timestamp ("MM/DD/YYYY, HH:MM:SS")
      the box fits horizontally exactly when the image is at least 201
      units wide. */
  lemma TimestampBoxFitsHorizontallyIff(imageWidth: nat, imageHeight: nat, timeString: string)
    requires |timeString| == 20
    ensures ComputeOverlay(imageWidth, imageHeight, timeString).background.x >= 0.0
        <==> imageWidth >= 201
  {
  }

  /** The layout depends on the text only through its length. */
  lemma GeometryDependsOnlyOnLength(w: nat, h: nat, s: string, t: string)
    requires |s| == |t|
    ensures ComputeOverlay(w, h, s).background == ComputeOverlay(w, h, t).background
    ensures ComputeOverlay(w, h, s).textAnchor == ComputeOverlay(w, h, t).textAnchor
  {
  }

  /** Worked example: an 800 x 600 image stamped "03/15/2024, 14:30:05". */
  lemma Example800x600()
    ensures var o := ComputeOverlay(800, 600, "03/15/2024, 14:30:05");
      && o.fontSize == 80.0 / 3.0
      && o.background == Rect(766.0 - 832.0 / 3.0, 573.0 - 80.0 / 3.0, 832.0 / 3.0 + 14.0, 80.0 / 3.0 + 14.0)
      && o.textAnchor == Point(773.0, 576.5)
  {
  }

  lemma FontSizeExamples()
    ensures FontSize(900) == 30.0
    ensures FontSize(100) == 16.0
    ensures FontSize(3000) == 48.0
  {
  }
}
