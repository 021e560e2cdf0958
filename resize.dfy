/** The resize operation and the helpers every operation shares: typed
    parameter extraction with defaults, decoding with format detection, and
    encoding with the output-format dispatch and the JPEG quality clamp. */
module ResizeOp {
  import opened Common
  import opened Entity
  import opened Imaging

  // ---------------------------------------------------------------------
  // Parameter extraction (`getIntParam` and friends)
  // ---------------------------------------------------------------------

  /** An int is taken as is, a float64 is truncated, an int64 is taken as
      is; anything else, or a missing key, gives the default. */
  function GetIntParam(params: Params, key: string, default: int): int
  {
    if key !in params then default
    else
      match params[key]
      case Int(i) => i
      case Float64(f) => Trunc(f)
      case Int64(i) => i
      case _ => default
  }

  function GetBoolParam(params: Params, key: string, default: bool): bool
  {
    if key in params && params[key].Bool? then params[key].b else default
  }

  function GetStringParam(params: Params, key: string, default: string): string
  {
    if key in params && params[key].Str? then params[key].s else default
  }

  /** A float64 or float32 is taken as is and an int is converted; an int64,
      unlike in `GetIntParam`, falls back to the default. */
  function GetFloat64Param(params: Params, key: string, default: real): real
  {
    if key !in params then default
    else
      match params[key]
      case Float64(f) => f
      case Float32(f) => f
      case Int(i) => i as real
      case _ => default
  }

  /** Which dynamic types each helper reads, and the default it falls back
      to otherwise. */
  lemma ParamHelperTypes(params: Params, key: string, n: int, b: bool, s: string, x: real)
    ensures GetIntParam(params, key, n) != n ==>
      key in params && (params[key].Int? || params[key].Int64? || params[key].Float64?)
    ensures GetFloat64Param(params, key, x) != x ==>
      key in params && (params[key].Float64? || params[key].Float32? || params[key].Int?)
    ensures GetBoolParam(params, key, b) != b ==> key in params && params[key].Bool?
    ensures GetStringParam(params, key, s) != s ==> key in params && params[key].Str?
    ensures key in params && params[key].Int64? ==>
      GetIntParam(params, key, n) == params[key].i && GetFloat64Param(params, key, x) == x
    ensures key in params && params[key].Float64? ==>
      GetIntParam(params, key, n) == Trunc(params[key].f) && GetFloat64Param(params, key, x) == params[key].f
  {
  }

  // ---------------------------------------------------------------------
  // Decoding and encoding
  // ---------------------------------------------------------------------

  /** The format a decoder name maps to; names without a constant of their
      own pass through unchanged. */
  function FormatFromName(name: string): string
  {
    if name == "jpeg" then FormatJPEG
    else if name == "png" then FormatPNG
    else if name == "gif" then FormatGIF
    else if name == "webp" then FormatWebP
    else name
  }

  /** `DecodeImage`: the config is read first for the format name, then the
      pixels. Rewinding the in-memory reader cannot fail and is not modelled. */
  function DecodeImage(lib: Library, data: Bytes): (r: Result<(Raster, string)>)
    ensures r.Success? <==> lib.decodeConfig(data).Success? && lib.decode(data).Success?
    ensures r.Success? ==>
      r.value == (lib.decode(data).value, FormatFromName(lib.decodeConfig(data).value))
  {
    match lib.decodeConfig(data)
    case Failure(e) => Failure(Wrap("failed to decode image config", Some(e)))
    case Success(name) =>
      match lib.decode(data)
      case Failure(e) => Failure(Wrap("failed to decode image", Some(e)))
      case Success(img) => Success((img, FormatFromName(name)))
  }

  /** Every decoder name comes out as the format of the same name. */
  lemma FormatNamesPassThrough(name: string)
    ensures FormatFromName(name) == name
  {
  }

  /** The encoder for an output format; JPEG and JPG replace a quality
      outside 1..100 by the default quality. */
  function SelectEncoder(format: string, quality: int, defaultQuality: int): Option<Encoder>
  {
    if format == FormatJPEG || format == FormatJPG then
      Some(JpegEncoder(if quality <= 0 || quality > 100 then defaultQuality else quality))
    else if format == FormatPNG then Some(PngEncoder)
    else if format == FormatGIF then Some(GifEncoder)
    else None
  }

  function EncodeImage(lib: Library, img: Raster, format: string, quality: int, defaultQuality: int): Result<Bytes>
  {
    match SelectEncoder(format, quality, defaultQuality)
    case None => Failure(Leaf("unsupported output format: " + format))
    case Some(enc) =>
      match lib.encode(img, enc)
      case Success(out) => Success(out)
      case Failure(e) =>
        Failure(Wrap(match enc
                     case JpegEncoder(_) => "failed to encode JPEG"
                     case PngEncoder => "failed to encode PNG"
                     case GifEncoder => "failed to encode GIF", Some(e)))
  }

  /** Only jpeg, jpg, png and gif can be written; every other format, webp
      included, is an "unsupported output format" error that never reaches
      an encoder. */
  lemma EncodeFormats(lib: Library, img: Raster, format: string, quality: int, defaultQuality: int)
    ensures SelectEncoder(format, quality, defaultQuality).Some? <==>
      format in {FormatJPEG, FormatJPG, FormatPNG, FormatGIF}
    ensures format !in {FormatJPEG, FormatJPG, FormatPNG, FormatGIF} ==>
      EncodeImage(lib, img, format, quality, defaultQuality)
        == Failure(Leaf("unsupported output format: " + format))
    ensures format in {FormatJPEG, FormatJPG, FormatPNG, FormatGIF} ==>
      var enc := SelectEncoder(format, quality, defaultQuality).value;
      (EncodeImage(lib, img, format, quality, defaultQuality).Success? <==> lib.encode(img, enc).Success?)
  {
  }

  /** The JPEG quality handed to the encoder is the requested one when that
      lies in 1..100, and the default otherwise; so it lies in 1..100
      whenever the default does. */
  lemma JpegQualityClamp(format: string, quality: int, defaultQuality: int)
    requires format == FormatJPEG || format == FormatJPG
    ensures SelectEncoder(format, quality, defaultQuality).Some?
    ensures SelectEncoder(format, quality, defaultQuality).value.JpegEncoder?
    ensures 1 <= quality <= 100 ==>
      SelectEncoder(format, quality, defaultQuality).value.quality == quality
    ensures !(1 <= quality <= 100) ==>
      SelectEncoder(format, quality, defaultQuality).value.quality == defaultQuality
    ensures 1 <= defaultQuality <= 100 ==>
      1 <= SelectEncoder(format, quality, defaultQuality).value.quality <= 100
  {
  }

  // ---------------------------------------------------------------------
  // Validate and Execute
  // ---------------------------------------------------------------------

  /** The number check of the operation validators: a float64 as is, an int
      converted, any other type is not a number. */
  function ValidatorNumber(v: Value): Option<real>
  {
    match v
    case Float64(f) => Some(f)
    case Int(i) => Some(i as real)
    case _ => None
  }

  predicate PositiveNumber(v: Value)
  {
    ValidatorNumber(v).Some? && ValidatorNumber(v).value > 0.0
  }

  function ValidateDimension(params: Params, key: string): Option<Error>
  {
    if key !in params then None
    else
      match ValidatorNumber(params[key])
      case None => Some(Leaf(key + " must be a number"))
      case Some(x) => if x <= 0.0 then Some(Leaf(key + " must be positive")) else None
  }

  /** `Validate`: width or height must be present, and each present one
      must be a float64 or int above zero; there is no upper bound. */
  function Validate(params: Params): (r: Option<Error>)
    ensures r.None? <==>
      (ParamWidth in params || ParamHeight in params)
      && (ParamWidth in params ==> PositiveNumber(params[ParamWidth]))
      && (ParamHeight in params ==> PositiveNumber(params[ParamHeight]))
    ensures ParamWidth !in params && ParamHeight !in params ==>
      r == Some(Leaf("width or height parameter is required"))
  {
    if ParamWidth !in params && ParamHeight !in params then
      Some(Leaf("width or height parameter is required"))
    else if ValidateDimension(params, ParamWidth).Some? then ValidateDimension(params, ParamWidth)
    else ValidateDimension(params, ParamHeight)
  }

  /** The geometric call `Execute` makes for the extracted width and height;
      None when both are zero. */
  function ResizeMode(width: int, height: int, keepAspect: bool, src: Raster): Option<Transform>
  {
    if width == 0 && height == 0 then None
    else if keepAspect then
      if width > 0 && height > 0 then Some(Fit(width, height))
      else if width > 0 then Some(Resize(width, 0))
      else Some(Resize(0, height))
    else
      Some(Resize(if width == 0 then src.width else width, if height == 0 then src.height else height))
  }

  /** With keepAspect, positive width and height fit the image into the
      box, a positive width alone scales to that width, and otherwise the
      height is scaled to. Without keepAspect the image is stretched, a zero
      dimension replaced by the source's own. */
  lemma ResizeModes(width: int, height: int, keepAspect: bool, src: Raster)
    ensures ResizeMode(width, height, keepAspect, src).None? <==> width == 0 && height == 0
    ensures keepAspect && width > 0 && height > 0 ==>
      ResizeMode(width, height, keepAspect, src) == Some(Fit(width, height))
    ensures keepAspect && width > 0 && height <= 0 ==>
      ResizeMode(width, height, keepAspect, src) == Some(Resize(width, 0))
    ensures keepAspect && width <= 0 && !(width == 0 && height == 0) ==>
      ResizeMode(width, height, keepAspect, src) == Some(Resize(0, height))
    ensures !keepAspect && !(width == 0 && height == 0) ==>
      var t := ResizeMode(width, height, keepAspect, src).value;
      t.Resize? && t.w == (if width == 0 then src.width else width)
      && t.h == (if height == 0 then src.height else height)
  {
  }

  /** `Execute`: decode, extract width and height (default 0) and
      keepAspect (default true), transform, and encode in the source format
      with the requested quality (default `jpegQuality`). */
  function Execute(lib: Library, d: Defaults, data: Bytes, params: Params): Result<Bytes>
  {
    match DecodeImage(lib, data)
    case Failure(e) => Failure(Wrap("failed to decode image", Some(e)))
    case Success((img, format)) =>
      var width := GetIntParam(params, ParamWidth, 0);
      var height := GetIntParam(params, ParamHeight, 0);
      var keepAspect := GetBoolParam(params, ParamKeepAspect, true);
      match ResizeMode(width, height, keepAspect, img)
      case None => Failure(Leaf("width or height must be specified"))
      case Some(t) =>
        EncodeImage(lib, lib.transform(img, t), format,
                    GetIntParam(params, ParamQuality, d.jpegQuality), d.jpegQuality)
  }

  /** A positive width below one passes `Validate`, but truncates to zero in
      `Execute`, which then refuses a decodable image. */
  lemma FractionalWidthPassesValidateFailsExecute(lib: Library, d: Defaults, data: Bytes, w: real)
    requires 0.0 < w < 1.0
    requires DecodeImage(lib, data).Success?
    ensures Validate(map[ParamWidth := Float64(w)]).None?
    ensures Execute(lib, d, data, map[ParamWidth := Float64(w)])
      == Failure(Leaf("width or height must be specified"))
  {
    var params := map[ParamWidth := Float64(w)];
    assert Trunc(w) == 0;
    assert GetIntParam(params, ParamHeight, 0) == 0;
  }

  /** Parameters that pass `Validate` with whole values always select a
      transform, so `Execute` then fails only in decoding or encoding. */
  lemma ValidWholeDimensionsSelectTransform(params: Params, keepAspect: bool, src: Raster)
    requires Validate(params).None?
    requires ParamWidth in params ==> params[ParamWidth].Int?
    requires ParamHeight in params ==> params[ParamHeight].Int?
    ensures ResizeMode(GetIntParam(params, ParamWidth, 0), GetIntParam(params, ParamHeight, 0),
                       keepAspect, src).Some?
  {
    if ParamWidth in params {
      assert GetIntParam(params, ParamWidth, 0) > 0;
    } else {
      assert GetIntParam(params, ParamHeight, 0) > 0;
    }
  }

  /** The output of a successful `Execute` is what the encoder made of the
      transformed source image, in the source format. */
  lemma ExecuteOutput(lib: Library, d: Defaults, data: Bytes, params: Params)
    requires Execute(lib, d, data, params).Success?
    ensures DecodeImage(lib, data).Success?
    ensures
      var (img, format) := DecodeImage(lib, data).value;
      var t := ResizeMode(GetIntParam(params, ParamWidth, 0), GetIntParam(params, ParamHeight, 0),
                          GetBoolParam(params, ParamKeepAspect, true), img);
      t.Some? && format in {FormatJPEG, FormatJPG, FormatPNG, FormatGIF}
      && var enc := SelectEncoder(format, GetIntParam(params, ParamQuality, d.jpegQuality), d.jpegQuality).value;
         lib.encode(lib.transform(img, t.value), enc) == Execute(lib, d, data, params)
  {
  }
}
