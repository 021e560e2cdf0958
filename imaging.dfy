/** The image library the operations call, kept abstract: decoding,
    geometric transforms, text drawing and encoding are collaborator
    functions supplied from outside. Only the choices the operations make
    (which transform, which encoder, which anchor) are modelled. */
module Imaging {
  import opened Common

  /** A decoded image: its bounds and an opaque pixel payload. */
  datatype Raster = Raster(width: int, height: int, pixels: Bytes)

  /** The geometric calls of the imaging library. A zero dimension of
      `Resize` means "keep the aspect ratio". `FillCenter` crops around the
      centre. */
  datatype Transform =
    | Fit(w: int, h: int)
    | Resize(w: int, h: int)
    | FillCenter(w: int, h: int)

  /** The encoder chosen for an output format. */
  datatype Encoder = JpegEncoder(quality: int) | PngEncoder | GifEncoder

  /** A drawing position in pixels. */
  datatype Point = Point(x: int, y: int)

  /** The library's behaviour, as functions of their inputs. */
  datatype Library = Library(
    /** `image.DecodeConfig`: the registered format name, or an error. */
    decodeConfig: Bytes -> Result<string>,
    /** `webp.DecodeConfig`: nil or an error. */
    webpDecodeConfig: Bytes -> Option<Error>,
    /** `image.Decode`. */
    decode: Bytes -> Result<Raster>,
    /** `imaging.Fit`, `imaging.Resize` and `imaging.Fill`. */
    transform: (Raster, Transform) -> Raster,
    /** Draw `text` at a point with an opacity and a font size. */
    drawText: (Raster, string, Point, real, int) -> Result<Raster>,
    /** The jpeg, png and gif encoders. */
    encode: (Raster, Encoder) -> Result<Bytes>)
}
