/** The domain records the worker pipeline passes around, defined from the
    way the services use them, and the named constants they refer to. */
module Entity {
  import opened Common

  /** Operation kinds (`OperationType` values). */
  const OpResize := "resize"
  const OpThumbnail := "thumbnail"
  const OpWatermark := "watermark"
  const OpCrop := "crop"
  const OpRotate := "rotate"
  const OpFlip := "flip"
  const OpGrayscale := "grayscale"

  /** The seven kinds a client may name in a request. */
  const RequestKinds: set<string> :=
    {OpResize, OpThumbnail, OpWatermark, OpCrop, OpRotate, OpFlip, OpGrayscale}

  /** Parameter keys. */
  const ParamWidth := "width"
  const ParamHeight := "height"
  const ParamKeepAspect := "keep_aspect"
  const ParamSize := "size"
  const ParamCropToFit := "crop_to_fit"
  const ParamText := "text"
  const ParamOpacity := "opacity"
  const ParamPosition := "position"
  const ParamFontSize := "font_size"
  const ParamQuality := "quality"

  /** Watermark positions. */
  const TopLeft := "top-left"
  const TopRight := "top-right"
  const TopCenter := "top-center"
  const BottomLeft := "bottom-left"
  const BottomRight := "bottom-right"
  const BottomCenter := "bottom-center"
  const Center := "center"

  const Positions: set<string> :=
    {TopLeft, TopRight, TopCenter, BottomLeft, BottomRight, BottomCenter, Center}

  /** Image format names (`ImageFormat` values). */
  const FormatJPEG := "jpeg"
  const FormatJPG := "jpg"
  const FormatPNG := "png"
  const FormatGIF := "gif"
  const FormatWebP := "webp"

  /** The `Default*` constants of the entity package. Their values are not
      part of this model, so every operation takes them as a parameter. */
  datatype Defaults = Defaults(
    thumbnailSize: int,
    jpegQuality: int,
    watermarkText: string,
    watermarkOpacity: real,
    maxUploadSize: int)

  /** One requested operation: a kind and a possibly nil parameter map. */
  datatype OperationParams = OperationParams(kind: string, parameters: Option<Params>)

  /** The message the API publishes and the worker consumes. */
  datatype ProcessingTask = ProcessingTask(
    id: string,
    imageId: string,
    originalPath: string,
    bucket: string,
    operations: seq<OperationParams>,
    format: string)

  /** Status of an uploaded image. */
  datatype ImageStatus = Uploaded | Processing | Completed | Failed
  {
    function Name(): string
    {
      match this
      case Uploaded => "uploaded"
      case Processing => "processing"
      case Completed => "completed"
      case Failed => "failed"
    }
  }

  /** An uploaded original; timestamps are opaque integers. */
  datatype Image = Image(
    id: string,
    originalFilename: string,
    originalSize: int,
    mimeType: string,
    storagePath: string,
    bucket: string,
    status: ImageStatus,
    createdAt: int,
    updatedAt: int)

  /** One stored processing result, as the worker writes it. */
  datatype ProcessedImage = ProcessedImage(
    id: string,
    imageId: string,
    operation: string,
    parameters: string,
    path: string,
    size: int,
    mimeType: string,
    format: string,
    status: string)

  /** Aggregate counters; averages are kept as reals. */
  datatype ProcessingStatistics = ProcessingStatistics(
    id: string,
    totalImagesProcessed: int,
    totalImagesUploaded: int,
    averageProcessingTimeMs: real,
    totalDataProcessedBytes: int,
    failedProcessingAttempts: int,
    mostUsedOperationType: string,
    lastUpdated: int)

  /** Per-kind counters. */
  datatype OperationStat = OperationStat(
    operationType: string,
    totalCount: int,
    successCount: int,
    failureCount: int,
    averageProcessingTimeMs: real)
}
