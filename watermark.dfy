/** The watermark operation: white text drawn at one of seven anchors. The
    anchor arithmetic is Go integer arithmetic, whose division truncates
    toward zero. */
module WatermarkOp {
  import opened Common
  import opened Entity
  import opened Imaging
  import opened ResizeOp

  /** Default font size in points. */
  const DefaultFontSize := 24

  /** Margin between the text and the image edge, in pixels. */
  const Margin := 10

  /** `Validate`: a present opacity must be a float64 (an int is refused)
      within [0, 1]; a present position must be a string naming one of the
      seven positions. */
  function Validate(params: Params): (r: Option<Error>)
    ensures r.None? <==>
      (ParamOpacity in params ==>
         params[ParamOpacity].Float64? && 0.0 <= params[ParamOpacity].f <= 1.0)
      && (ParamPosition in params ==>
            params[ParamPosition].Str? && params[ParamPosition].s in Positions)
    ensures params == map[] ==> r.None?
  {
    if ParamOpacity in params && !params[ParamOpacity].Float64? then
      Some(Leaf("opacity must be a number"))
    else if ParamOpacity in params && (params[ParamOpacity].f < 0.0 || params[ParamOpacity].f > 1.0) then
      Some(Leaf("opacity must be between 0 and 1"))
    else if ParamPosition in params && !params[ParamPosition].Str? then
      Some(Leaf("position must be a string"))
    else if ParamPosition in params && params[ParamPosition].s !in Positions then
      Some(Leaf("invalid position: " + params[ParamPosition].s))
    else None
  }

  /** The estimated text box: half the font size per byte of text, and the
      font size high. */
  function TextWidth(text: string, fontSize: int): int
  {
    Quot(Utf8Length(text) * fontSize, 2)
  }

  /** The baseline point for a position, given the image bounds `w` by `h`
      and the text box `tw` by `th`. An unrecognised position is treated as
      bottom-right. */
  function Anchor(position: string, w: int, h: int, tw: int, th: int): Point
  {
    if position == TopLeft then Point(Margin, Margin + th)
    else if position == TopRight then Point(w - tw - Margin, Margin + th)
    else if position == TopCenter then Point(Quot(w - tw, 2), Margin + th)
    else if position == BottomLeft then Point(Margin, h - Margin)
    else if position == BottomRight then Point(w - tw - Margin, h - Margin)
    else if position == BottomCenter then Point(Quot(w - tw, 2), h - Margin)
    else if position == Center then Point(Quot(w - tw, 2), Quot(h + th, 2))
    else Point(w - tw - Margin, h - Margin)
  }

  /** `addTextWatermark`: fails when the font did not load, otherwise draws
      the text at the anchor of the position with the given opacity. */
  function AddTextWatermark(lib: Library, fontLoaded: bool, img: Raster, text: string,
                            position: string, opacity: real, fontSize: int): Result<Raster>
  {
    if !fontLoaded then Failure(Leaf("font not available"))
    else
      var pt := Anchor(position, img.width, img.height, TextWidth(text, fontSize), fontSize);
      match lib.drawText(img, text, pt, opacity, fontSize)
      case Failure(e) => Failure(Wrap("failed to draw text", Some(e)))
      case Success(out) => Success(out)
  }

  /** `Execute`: text, opacity, position and font size default to the
      default text, the default opacity, bottom-right and 24. */
  function Execute(lib: Library, fontLoaded: bool, d: Defaults, data: Bytes, params: Params): Result<Bytes>
  {
    match DecodeImage(lib, data)
    case Failure(e) => Failure(Wrap("failed to decode image", Some(e)))
    case Success((img, format)) =>
      var text := GetStringParam(params, ParamText, d.watermarkText);
      var opacity := GetFloat64Param(params, ParamOpacity, d.watermarkOpacity);
      var position := GetStringParam(params, ParamPosition, BottomRight);
      var fontSize := GetIntParam(params, ParamFontSize, DefaultFontSize);
      match AddTextWatermark(lib, fontLoaded, img, text, position, opacity, fontSize)
      case Failure(e) => Failure(Wrap("failed to add watermark", Some(e)))
      case Success(marked) =>
        EncodeImage(lib, marked, format, GetIntParam(params, ParamQuality, d.jpegQuality), d.jpegQuality)
  }

  /** With no parameters the default text is drawn bottom-right at 24 points
      with the default opacity. */
  lemma ExecuteDefaults(lib: Library, d: Defaults, data: Bytes, img: Raster, format: string)
    requires DecodeImage(lib, data) == Success((img, format))
    requires lib.drawText(img, d.watermarkText,
                          Point(img.width - TextWidth(d.watermarkText, 24) - 10, img.height - 10),
                          d.watermarkOpacity, 24).Success?
    ensures Execute(lib, true, d, data, map[])
      == EncodeImage(lib, lib.drawText(img, d.watermarkText,
                                       Point(img.width - TextWidth(d.watermarkText, 24) - 10, img.height - 10),
                                       d.watermarkOpacity, 24).value,
                     format, d.jpegQuality, d.jpegQuality)
  {
  }

  /** Without a font every watermark fails, whatever the image and the
      parameters. */
  lemma MissingFontFails(lib: Library, d: Defaults, data: Bytes, params: Params)
    requires DecodeImage(lib, data).Success?
    ensures Execute(lib, false, d, data, params)
      == Failure(Wrap("failed to add watermark", Some(Leaf("font not available"))))
  {
  }

  /** An unrecognised position draws where bottom-right does. */
  lemma UnknownPositionIsBottomRight(position: string, w: int, h: int, tw: int, th: int)
    requires position !in Positions
    ensures Anchor(position, w, h, tw, th) == Anchor(BottomRight, w, h, tw, th)
  {
  }

  /** The geometry of the anchors: left positions sit one margin in, right
      positions end the text one margin before the right edge, top
      positions put the baseline one text height below the top margin,
      bottom positions one margin above the bottom edge. */
  lemma AnchorMargins(position: string, w: int, h: int, tw: int, th: int)
    requires position in Positions
    ensures var p := Anchor(position, w, h, tw, th);
      (position in {TopLeft, BottomLeft} ==> p.x == Margin)
      && (position in {TopRight, BottomRight} ==> p.x + tw == w - Margin)
      && (position in {TopLeft, TopRight, TopCenter} ==> p.y - th == Margin)
      && (position in {BottomLeft, BottomRight, BottomCenter} ==> p.y == h - Margin)
  {
  }

  /** Centred text whose box fits leaves left and right margins that differ
      by at most one pixel; the centre position does the same vertically,
      the text box spanning from `y - th` to `y`. */
  lemma CentredMargins(position: string, w: int, h: int, tw: int, th: int)
    requires position in {TopCenter, BottomCenter, Center}
    requires tw <= w
    ensures var p := Anchor(position, w, h, tw, th);
      0 <= (w - (p.x + tw)) - p.x <= 1
    ensures position == Center && -th <= h ==>
      var p := Anchor(position, w, h, tw, th);
      0 <= (h - p.y) - (p.y - th) <= 1
  {
  }

  /** Where the text is wider than the image Go's truncating division
      rounds toward zero, not down: a 12-pixel box on a 9-pixel image is
      centred at x = -1, not at -2. */
  lemma WideTextCentresTowardZero()
    ensures Anchor(TopCenter, 9, 50, 12, 24).x == -1
    ensures (9 - 12) / 2 == -2
  {
  }

  /** The text box width counts bytes: one per ASCII character, more for
      other characters, so it is at least the character count times half
      the font size and at most four times that. */
  lemma TextWidthBounds(text: string, fontSize: nat)
    ensures Quot(|text| * fontSize, 2) <= TextWidth(text, fontSize) <= Quot(4 * |text| * fontSize, 2)
    ensures (forall i :: 0 <= i < |text| ==> text[i] < 128 as char) ==>
      TextWidth(text, fontSize) == Quot(|text| * fontSize, 2)
  {
    var n := Utf8Length(text);
    assert |text| * fontSize <= n * fontSize <= 4 * |text| * fontSize by {
      MulMonotone(|text|, n, fontSize);
      MulMonotone(n, 4 * |text|, fontSize);
    }
    if forall i :: 0 <= i < |text| ==> text[i] < 128 as char {
      AsciiLength(text);
    }
  }

  lemma MulMonotone(a: nat, b: nat, c: nat)
    requires a <= b
    ensures a * c <= b * c
  {
  }

  /** An ASCII string is as many bytes long as it has characters. */
  lemma {:induction false} AsciiLength(text: string)
    requires forall i :: 0 <= i < |text| ==> text[i] < 128 as char
    ensures Utf8Length(text) == |text|
  {
    if text != [] {
      assert forall i :: 0 <= i < |text[1..]| ==> text[1..][i] == text[i + 1];
      AsciiLength(text[1..]);
    }
  }
}
