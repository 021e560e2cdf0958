/** The response DTOs and the functions that build them from entities. */
module Response {
  import opened Common
  import opened Entity

  /** One processed version as the API shows it; `url` is left for the
      caller to fill. */
  datatype ProcessedImageInfo = ProcessedImageInfo(
    operation: string, url: string, path: string, size: int, status: string)

  /** An image as the API shows it. `versions` is nil (None) when the
      field is to be omitted. */
  datatype ImageResponse = ImageResponse(
    id: string, filename: string, originalUrl: string, status: string, size: int,
    mimeType: string, versions: Option<seq<ProcessedImageInfo>>, createdAt: int, updatedAt: int)

  datatype OperationStatistic = OperationStatistic(
    operationType: string, totalCount: int, successCount: int, failureCount: int,
    averageProcessingTimeMs: real)

  datatype StatisticsResponse = StatisticsResponse(
    totalImagesUploaded: int, totalImagesProcessed: int, totalImagesFailed: int,
    totalDataProcessedBytes: int, totalDataProcessedMB: real, averageProcessingTimeMs: real,
    operationStatistics: seq<OperationStatistic>, lastUpdated: int)

  const BytesPerMB: real := 1048576.0

  /** The view of one processed version. */
  function Info(v: ProcessedImage): ProcessedImageInfo
  {
    ProcessedImageInfo(v.operation, "", v.path, v.size, v.status)
  }

  /** An image without its versions. */
  function Summary(img: Image): ImageResponse
  {
    ImageResponse(img.id, img.originalFilename, "", img.status.Name(), img.originalSize,
                  img.mimeType, None, img.createdAt, img.updatedAt)
  }

  /** `FromProcessedImages`: one entry per processed image, in order. */
  method FromProcessedImages(images: seq<ProcessedImage>) returns (r: seq<ProcessedImageInfo>)
    ensures |r| == |images|
    ensures forall k :: 0 <= k < |images| ==>
      r[k].operation == images[k].operation && r[k].path == images[k].path
      && r[k].size == images[k].size && r[k].status == images[k].status && r[k].url == ""
  {
    r := [];
    for i := 0 to |images|
      invariant |r| == i
      invariant forall k :: 0 <= k < i ==> r[k] == Info(images[k])
    {
      var img := images[i];
      r := r + [ProcessedImageInfo(img.operation, "", img.path, img.size, img.status)];
    }
  }

  /** `FromImageEntity`: the image's own fields, no original URL, and the
      versions in order, or no versions field at all when there are none. */
  method FromImageEntity(img: Image, versions: seq<ProcessedImage>) returns (r: ImageResponse)
    ensures r.id == img.id && r.filename == img.originalFilename && r.originalUrl == ""
    ensures r.status == img.status.Name() && r.size == img.originalSize && r.mimeType == img.mimeType
    ensures r.createdAt == img.createdAt && r.updatedAt == img.updatedAt
    ensures |versions| == 0 <==> r.versions.None?
    ensures r.versions.Some? ==>
      |r.versions.value| == |versions|
      && forall k :: 0 <= k < |versions| ==> r.versions.value[k] == Info(versions[k])
  {
    r := ImageResponse(img.id, img.originalFilename, "", img.status.Name(), img.originalSize,
                       img.mimeType, None, img.createdAt, img.updatedAt);
    if |versions| > 0 {
      var vs: seq<ProcessedImageInfo> := [];
      for i := 0 to |versions|
        invariant |vs| == i
        invariant forall k :: 0 <= k < i ==> vs[k] == Info(versions[k])
      {
        var v := versions[i];
        vs := vs + [ProcessedImageInfo(v.operation, "", v.path, v.size, v.status)];
      }
      r := r.(versions := Some(vs));
    }
  }

  /** `FromStatisticsEntity`: the failed attempts become the failed-image
      count, the byte total is also given in mebibytes, and the other
      counters are copied. */
  function FromStatisticsEntity(stats: ProcessingStatistics, opStats: seq<OperationStatistic>)
    : (r: StatisticsResponse)
    ensures r.totalImagesFailed == stats.failedProcessingAttempts
    ensures r.totalImagesUploaded == stats.totalImagesUploaded
    ensures r.totalImagesProcessed == stats.totalImagesProcessed
    ensures r.totalDataProcessedBytes == stats.totalDataProcessedBytes
    ensures r.totalDataProcessedMB * BytesPerMB == stats.totalDataProcessedBytes as real
    ensures r.averageProcessingTimeMs == stats.averageProcessingTimeMs
    ensures r.operationStatistics == opStats && r.lastUpdated == stats.lastUpdated
  {
    StatisticsResponse(stats.totalImagesUploaded, stats.totalImagesProcessed, stats.failedProcessingAttempts,
                       stats.totalDataProcessedBytes, stats.totalDataProcessedBytes as real / BytesPerMB,
                       stats.averageProcessingTimeMs, opStats, stats.lastUpdated)
  }
}
