/** The thumbnail operation: a square fit or a centred square crop. */
module ThumbnailOp {
  import opened Common
  import opened Entity
  import opened Imaging
  import opened ResizeOp

  /** `Validate`: a missing size is accepted; a present one must be a
      float64 or int with 0 < size <= 1000. */
  function Validate(params: Params): (r: Option<Error>)
    ensures r.None? <==>
      (ParamSize in params ==>
         ValidatorNumber(params[ParamSize]).Some?
         && 0.0 < ValidatorNumber(params[ParamSize]).value <= 1000.0)
    ensures ParamSize !in params ==> r.None?
  {
    if ParamSize !in params then None
    else
      match ValidatorNumber(params[ParamSize])
      case None => Some(Leaf("size must be a number"))
      case Some(s) =>
        if s <= 0.0 then Some(Leaf("size must be positive"))
        else if s > 1000.0 then Some(Leaf("size must not exceed 1000 pixels"))
        else None
  }

  /** The transform: the size defaults to `thumbnailSize` and cropToFit to
      false; cropping fills the square around the centre, otherwise the
      image is fitted into it. */
  function Shape(d: Defaults, params: Params): Transform
  {
    var size := GetIntParam(params, ParamSize, d.thumbnailSize);
    if GetBoolParam(params, ParamCropToFit, false) then FillCenter(size, size) else Fit(size, size)
  }

  function Execute(lib: Library, d: Defaults, data: Bytes, params: Params): Result<Bytes>
  {
    match DecodeImage(lib, data)
    case Failure(e) => Failure(Wrap("failed to decode image", Some(e)))
    case Success((img, format)) =>
      EncodeImage(lib, lib.transform(img, Shape(d, params)), format,
                  GetIntParam(params, ParamQuality, d.jpegQuality), d.jpegQuality)
  }

  /** Without parameters a thumbnail is the source fitted into a square of
      the default size; a square crop happens only when asked for. */
  lemma ShapeDefaults(d: Defaults, params: Params)
    ensures ParamSize !in params && ParamCropToFit !in params ==>
      Shape(d, params) == Fit(d.thumbnailSize, d.thumbnailSize)
    ensures Shape(d, params).FillCenter? <==>
      ParamCropToFit in params && params[ParamCropToFit] == Bool(true)
    ensures Shape(d, params).w == Shape(d, params).h
  {
  }

  /** A successful thumbnail is the encoder's output for the shaped image,
      written in the source's own format with the requested or default
      quality. */
  lemma ExecuteOutput(lib: Library, d: Defaults, data: Bytes, params: Params)
    requires Execute(lib, d, data, params).Success?
    ensures DecodeImage(lib, data).Success?
    ensures
      var (img, format) := DecodeImage(lib, data).value;
      var enc := SelectEncoder(format, GetIntParam(params, ParamQuality, d.jpegQuality), d.jpegQuality);
      enc.Some? && lib.encode(lib.transform(img, Shape(d, params)), enc.value) == Execute(lib, d, data, params)
  {
  }
}
