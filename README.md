# ImageProcessor in Dafny

This project models the back end of ImageProcessor, an image-processing service written in Go.

- The HTTP handler accepts an upload together with a list of operations: resize, thumbnail, watermark, crop, rotate, flip or grayscale.
- The request DTOs validate the upload and the operations.
- The original goes to S3 and a processing task goes to Kafka.
- A worker consumes each processing task. It downloads the original and runs the processing pipeline, one registered operation after the other.
- The worker then stores every output in S3 and in the database, marks the job and the image, and records statistics.
- The worker retries a failed task with a growing back-off.

The model covers the core logic of the whole path:

| Go code | Dafny module |
|---|---|
| pipeline (`image_processor.go`) | `Processor` |
| resize, thumbnail and watermark operations | `ResizeOp`, `ThumbnailOp`, `WatermarkOp` |
| request and response DTOs | `Request`, `Response` |
| statistics service | `Stats` |
| S3 client | `S3` |
| Kafka producer and consumer | `Producer`, `Consumer` |
| worker | `Worker` |
| handler | `Handler` |
| configuration loader | `Config` |

Shared modules:

- `Common` holds Go's error values and its dynamically typed parameter maps. It also holds truncating integer division and UTF-8 lengths.
- `Strconv` holds `strconv.Atoi` and `%d`.
- `Entity` holds the domain records.
- `Imaging` holds the image library.

How collaborators are modelled:

- A collaborator the code calls but does not implement is an oracle: a datatype of functions, such as `S3Env`, `ProducerEnv`, `HandlerEnv`, `Worker.Env` or `Imaging.Library`. These are the minio client, the Kafka reader and writer, the repositories, uuid, the clock and the image codecs.
- The n-th call to an oracle gets the n-th answer.
- Each Go object whose methods change state is a Dafny class. Its fields are the calls it made or the state it changed.
- Each method is proved equal to a pure function of the old state. The lemmas about that function state what the Go code promises.

Four behaviours of the code that are easy to misread, all modelled as written:

- Thumbnail validation accepts an int size as well as a float64 one.
- The resize operation accepts a fractional width in `Validate` and then refuses it in `Execute`.
- `getFloat64` reads a non-numeric value as 0.
- The consumer commits a message only after the handler succeeded. `ReadBatch`, by contrast, commits every message that decodes.

## Model

| member | source | states |
|---|---|---|
| Common.Quot | backend/internal/service/image_processor/operations/watermark.go:124-138 | Go's integer `/`: the quotient truncates toward zero and its remainder has the dividend's sign. |
| Common.Trunc | backend/internal/service/image_processor/operations/resize.go:114-117 | `int(f)` drops the fraction: the result lies within one of `f`, toward zero. |
| Common.Utf8Length | backend/internal/service/image_processor/operations/watermark.go:119 | `len` of a string counts UTF-8 bytes: one to four per character, at least the character count. |
| Strconv.Atoi | backend/internal/http-server/handler/handler.go:386-394 | `strconv.Atoi`: a number read from text lies in the 64-bit range, and the text is not empty and starts with a digit or a sign. |
| Strconv.IntToDecimalRoundTrip | backend/internal/service/worker/worker.go:248 | Reading back what `%d` wrote gives the same number. |
| Processor.StandardRegistryContents | backend/internal/service/image_processor/processor/image_processor.go:22-38 | After construction exactly resize, thumbnail and watermark are registered, each under its own kind. |
| Processor.ValidateImage | backend/internal/service/image_processor/processor/image_processor.go:117-149 | Empty data is refused. Otherwise the image passes exactly when the decoder reports jpeg, png, gif or webp. The WebP decoder is tried when the standard one fails. |
| Processor.ImageProcessor.constructor | backend/internal/service/image_processor/processor/image_processor.go:22-38 | The registry is the standard one: resize, thumbnail and watermark over the given library. |
| Processor.ImageProcessor.RegisterOperation | backend/internal/service/image_processor/processor/image_processor.go:41-44 | A registration replaces any earlier one of the same kind and changes no other kind. |
| Processor.ImageProcessor.ProcessImage | backend/internal/service/image_processor/processor/image_processor.go:47-114 | The stage loop returns the pipeline function's result and makes exactly its calls. |
| Processor.InvalidImageCallsNothing | backend/internal/service/image_processor/processor/image_processor.go:54-58 | An image that fails validation fails under "invalid image" before any operation is called. |
| Processor.EmptyDataFails | backend/internal/service/image_processor/processor/image_processor.go:118-120 | Empty data always fails. |
| Processor.NoStagesNoResults | backend/internal/service/image_processor/processor/image_processor.go:62-66 | A valid image with no operations gives an empty result map. |
| Processor.SuccessNeedsRegisteredKinds | backend/internal/service/image_processor/processor/image_processor.go:72-76 | A run succeeds only when every requested kind is registered. |
| Processor.UnregisteredKindFails | backend/internal/service/image_processor/processor/image_processor.go:72-76 | With the standard registry a request naming crop, rotate, flip, grayscale or any other unknown kind never succeeds. On a valid image where such a stage comes first, the error is "unknown operation type: kind" and no operation is called. |
| Processor.CallCount | backend/internal/service/image_processor/processor/image_processor.go:66-106 | A run makes at most two calls per stage, and exactly two per stage when it succeeds. |
| Processor.CallOrder | backend/internal/service/image_processor/processor/image_processor.go:79-95 | Call 2t validates stage t. Call 2t+1 exists only after that validation passed, and it executes stage t with the registered operation. |
| Processor.CallChain | backend/internal/service/image_processor/processor/image_processor.go:88-102 | The first execution receives the input and each later one the output of the previous one. |
| Processor.LastOutputAppend | backend/internal/service/image_processor/processor/image_processor.go:98-100 | The output stored for a kind is the last one: a later execution of the same kind overrides an earlier one. |
| Processor.ResultKeys | backend/internal/service/image_processor/processor/image_processor.go:98-113 | A successful run stores one entry per requested kind and no other. Each entry holds the output of the last stage of its kind. |
| Processor.KindsBound | backend/internal/service/image_processor/processor/image_processor.go:62-100 | There are at most as many distinct kinds as stages. |
| Processor.ProcessResult | backend/internal/service/image_processor/processor/image_processor.go:47-114 | On success the keys are exactly the requested kinds, at most one per stage, and each holds its last stage's output. |
| ResizeOp.ParamHelperTypes | backend/internal/service/image_processor/operations/resize.go:110-155 | The dynamic types each parameter helper reads. An int64 is an int here but the default in `getFloat64Param`. Anything else gives the default. |
| ResizeOp.DecodeImage | backend/internal/service/image_processor/operations/resize.go:158-194 | Decoding succeeds exactly when both the config read and the pixel decode succeed. The format is the decoder's name mapped through the format constants. |
| ResizeOp.FormatNamesPassThrough | backend/internal/service/image_processor/operations/resize.go:179-191 | Every decoder name maps to the format of the same name. |
| ResizeOp.EncodeFormats | backend/internal/service/image_processor/operations/resize.go:197-225 | Only jpeg, jpg, png and gif are written. Every other format, webp included, is "unsupported output format" and never reaches an encoder. |
| ResizeOp.JpegQualityClamp | backend/internal/service/image_processor/operations/resize.go:201-204 | The JPEG quality is the requested one within 1..100, and the default otherwise. |
| ResizeOp.Validate | backend/internal/service/image_processor/operations/resize.go:25-62 | Validation passes exactly when a width or a height is present and every present one is a positive float64 or int. |
| ResizeOp.ResizeModes | backend/internal/service/image_processor/operations/resize.go:78-103 | Both dimensions zero is an error. keepAspect chooses fit, width-only or height-only. Stretching replaces a zero dimension by the source's own. |
| ResizeOp.FractionalWidthPassesValidateFailsExecute | backend/internal/service/image_processor/operations/resize.go:25-80 | A width of 0.5 passes `Validate`, then truncates to 0 in `Execute`, which refuses it. |
| ResizeOp.ValidWholeDimensionsSelectTransform | backend/internal/service/image_processor/operations/resize.go:25-103 | Parameters that pass validation with whole values always select a transform. |
| ResizeOp.ExecuteOutput | backend/internal/service/image_processor/operations/resize.go:64-108 | A successful resize is the encoder's output for the transformed source, in the source format. |
| ThumbnailOp.Validate | backend/internal/service/image_processor/operations/thumbnail.go:21-40 | A missing size passes. A present size passes exactly when it is a float64 or int in (0, 1000]. |
| ThumbnailOp.ShapeDefaults | backend/internal/service/image_processor/operations/thumbnail.go:50-61 | By default the image is fitted into the default square. It is a centred square crop exactly when cropToFit is true. The box is always square. |
| ThumbnailOp.ExecuteOutput | backend/internal/service/image_processor/operations/thumbnail.go:42-66 | A successful thumbnail is the encoder's output for the shaped image, in the source format. |
| WatermarkOp.Validate | backend/internal/service/image_processor/operations/watermark.go:39-70 | Validation passes exactly when a present opacity is a float64 in [0, 1] and a present position is one of the seven position names. |
| WatermarkOp.ExecuteDefaults | backend/internal/service/image_processor/operations/watermark.go:72-94 | With no parameters the default text is drawn bottom-right at 24 points with the default opacity. |
| WatermarkOp.MissingFontFails | backend/internal/service/image_processor/operations/watermark.go:101-103 | Without a loaded font every watermark of a decodable image fails with "font not available". |
| WatermarkOp.UnknownPositionIsBottomRight | backend/internal/service/image_processor/operations/watermark.go:124-141 | An unknown position is placed as bottom-right. |
| WatermarkOp.AnchorMargins | backend/internal/service/image_processor/operations/watermark.go:124-141 | Left anchors sit one margin in and right anchors end one margin early. Top baselines sit one text height below the margin, bottom ones one margin above the edge. |
| WatermarkOp.CentredMargins | backend/internal/service/image_processor/operations/watermark.go:128-141 | Centred text that fits gets a left and a right margin that differ by at most one pixel, and the centre position likewise vertically. |
| WatermarkOp.WideTextCentresTowardZero | backend/internal/service/image_processor/operations/watermark.go:128 | Go's division truncates: a 12-pixel box on a 9-pixel image is centred at -1, where floor division gives -2. |
| WatermarkOp.TextWidthBounds | backend/internal/service/image_processor/operations/watermark.go:119-120 | The estimated text width lies between the character count and four times it, times half the font size. For ASCII text it equals the character count times half the font size. |
| WatermarkOp.AsciiLength | backend/internal/service/image_processor/operations/watermark.go:119 | An ASCII string has as many bytes as characters. |
| Request.CheckResize | backend/internal/http-server/handler/dto/request.go:107-134 | A nil map, no width and height, or a dimension outside (0, 4096] is refused, and exactly those. |
| Request.CheckThumbnail | backend/internal/http-server/handler/dto/request.go:136-153 | A nil or size-less map gets the default size. A present size must lie in (0, 1000] and is kept as it is. |
| Request.WithWatermarkDefaults | backend/internal/http-server/handler/dto/request.go:155-170 | The text and opacity defaults are added only when absent, and nothing present is replaced. |
| Request.CheckWatermark | backend/internal/http-server/handler/dto/request.go:155-198 | After the defaults, validation passes exactly when the opacity is in [0, 1] and a present position is one of the seven names. |
| Request.OperationKinds | backend/internal/http-server/handler/dto/request.go:74-105 | An empty or unknown kind fails and leaves the parameters alone. Crop, rotate, flip and grayscale pass without a parameter check. |
| Request.ValidationOnlyAdds | backend/internal/http-server/handler/dto/request.go:74-198 | Validation only adds parameters: every client value is kept, and resize, crop, rotate, flip and grayscale requests are unchanged. |
| Request.DefaultsPresent | backend/internal/http-server/handler/dto/request.go:136-170 | A validated thumbnail request carries a size, and a validated watermark request a text and an opacity. |
| Request.NonNumericRefused | backend/internal/http-server/handler/dto/request.go:233-246 | A non-numeric width or thumbnail size reads as 0 and is refused. |
| Request.ToLowerIdempotent | backend/internal/http-server/handler/dto/request.go:221-231 | Lower-casing twice is lower-casing once, so the extension check accepts a name exactly when it accepts its lower-cased form. |
| Request.ExtensionExamples | backend/internal/http-server/handler/dto/request.go:221-231 | "PHOTO.JPG" is accepted and "photo.bmp" is not. |
| Request.CheckOperationsFrame | backend/internal/http-server/handler/dto/request.go:62-68 | The operation loop keeps the number of entries and leaves earlier entries alone. |
| Request.CheckOperationsPass | backend/internal/http-server/handler/dto/request.go:62-68 | The loop passes exactly when every operation passes. |
| Request.CheckOperationsFailure | backend/internal/http-server/handler/dto/request.go:62-68 | A failing loop reports the first failing index with that operation's error. The entries after it are untouched. |
| Request.UploadOutcome | backend/internal/http-server/handler/dto/request.go:40-71 | An upload passes exactly when the file is present, within the maximum upload size, of an image content type and extension, and every operation passes. A failing file check leaves the operations unvalidated. |
| Request.UploadKeepsOperations | backend/internal/http-server/handler/dto/request.go:40-71 | Validation keeps the number of operations, and a failing file check leaves them as they were. |
| Request.OperationForm.Validate | backend/internal/http-server/handler/dto/request.go:74-105 | The kind switch leaves the parameters and the error that `CheckOperation` gives. |
| Request.OperationForm.ValidateResizeParams | backend/internal/http-server/handler/dto/request.go:107-134 | The check over the two keys returns the error `CheckResize` gives and leaves the map alone. |
| Request.OperationForm.ValidateThumbnailParams | backend/internal/http-server/handler/dto/request.go:136-153 | It inserts the default size as `CheckThumbnail` says and returns its error. |
| Request.OperationForm.ValidateWatermarkParams | backend/internal/http-server/handler/dto/request.go:155-198 | It inserts the defaults and returns the error `CheckWatermark` gives. |
| Request.IsValidImageExtension | backend/internal/http-server/handler/dto/request.go:221-231 | The loop over the five extensions returns true exactly when the lower-cased name ends in one of them. |
| Request.UploadImageRequest.Validate | backend/internal/http-server/handler/dto/request.go:40-71 | The checks and the operation loop give the error and the operations that `CheckUpload` gives. |
| Response.FromProcessedImages | backend/internal/http-server/handler/dto/response.go:138-149 | One view per processed image, in order, each with that image's fields. |
| Response.FromImageEntity | backend/internal/http-server/handler/dto/response.go:110-135 | The image's own fields and no original URL. The versions come in order, and the field is absent when there are none. |
| Response.FromStatisticsEntity | backend/internal/http-server/handler/dto/response.go:152-163 | Failed attempts become the failed-image count, bytes are also given in mebibytes, and the other counters are copied. |
| Stats.OperationUpdates | backend/internal/service/stats_service/stats_service.go:157-171 | One successful per-kind update per listed operation, in order, with the kind's time or 0. |
| Stats.UploadedCalls | backend/internal/service/stats_service/stats_service.go:75-88 | An upload makes one counter call, and its error comes back wrapped. |
| Stats.ProcessedCalls | backend/internal/service/stats_service/stats_service.go:91-118 | The general counter is called first, then the successful per-kind update, which is skipped when the first call failed. The result is nil exactly when every call succeeded. |
| Stats.FailedCalls | backend/internal/service/stats_service/stats_service.go:121-148 | The failure counter is called first, then the unsuccessful per-kind update, with the same short-circuit. |
| Stats.UpdateLoopCalls | backend/internal/service/stats_service/stats_service.go:157-171 | The update loop makes one call per kind whatever the calls answer. |
| Stats.OperationsCalls | backend/internal/service/stats_service/stats_service.go:151-187 | Every listed kind is updated in order, then exactly one counter call follows, and the result depends on that call alone. |
| Stats.StatisticsOutcome | backend/internal/service/stats_service/stats_service.go:26-47 | The read fails only when the statistics read fails. A failed most-used lookup gives "unknown", and the other fields are the repository's. |
| Stats.SuccessRateBounds | backend/internal/service/stats_service/stats_service.go:212-214 | The success rate is 0 with nothing processed, and between 0 and 100 when failures do not exceed processed images. |
| Stats.DetailedOutcome | backend/internal/service/stats_service/stats_service.go:190-217 | Both reads are needed and either error is passed on as it is. The operation list is not read after a failed general read. |
| Stats.StatsService.RecordImageUploaded | backend/internal/service/stats_service/stats_service.go:75-88 | The calls and the result are those of `RecordUploaded`. |
| Stats.StatsService.RecordImageProcessed | backend/internal/service/stats_service/stats_service.go:91-118 | The calls and the result are those of `RecordProcessed`. |
| Stats.StatsService.RecordImageFailed | backend/internal/service/stats_service/stats_service.go:121-148 | The calls and the result are those of `RecordFailed`. |
| Stats.StatsService.RecordOperationsProcessed | backend/internal/service/stats_service/stats_service.go:151-187 | The update loop and the counter call give the calls and the result of `RecordOperations`. |
| Stats.StatsService.GetStatistics | backend/internal/service/stats_service/stats_service.go:26-47 | The two reads give what `Statistics` gives. |
| Stats.StatsService.GetOperationStatistics | backend/internal/service/stats_service/stats_service.go:50-72 | The copy loop returns the repository's list, every entry with all five fields. |
| Stats.StatsService.GetDetailedStatistics | backend/internal/service/stats_service/stats_service.go:190-217 | The result is `Detailed` of the two reads. |
| S3.Download | backend/internal/repository/cloud/s3/s3client.go:111-132 | A download succeeds exactly when the get and the read succeed and the object is not empty. An empty object is "object is empty". |
| S3.Exists | backend/internal/repository/cloud/s3/s3client.go:187-197 | A file exists exactly when the stat succeeds. The result is an error exactly when the stat fails with a code other than NoSuchKey. |
| S3.UploadPuts | backend/internal/repository/cloud/s3/s3client.go:79-101 | The upload makes between one and five puts, all of the same object, and never rewinds a reader that cannot seek. |
| S3.UploadSleeps | backend/internal/repository/cloud/s3/s3client.go:83-92 | Before retry k the upload sleeps k² seconds, starting from 2² at the second attempt. |
| S3.UploadOutcome | backend/internal/repository/cloud/s3/s3client.go:79-104 | The upload succeeds exactly when its last put succeeded, all earlier ones having failed. A failure is either a failed rewind or the fifth failed put. |
| S3.UploadFileSchedule | backend/internal/repository/cloud/s3/s3client.go:72-108 | One to five puts, and the sleeps 4, 9, 16 and 25 seconds as far as the retries go. |
| S3.AllPutsFail | backend/internal/repository/cloud/s3/s3client.go:96-101 | Five failed puts give "failed to upload file to S3 after 5 attempts" with the last error, after all four sleeps. |
| S3.S3CloudStorage.UploadFile | backend/internal/repository/cloud/s3/s3client.go:72-108 | The retry loop makes the calls, sleeps and result of `Upload` from the first attempt. |
| S3.S3CloudStorage.DownloadFile | backend/internal/repository/cloud/s3/s3client.go:111-132 | The result is `Download` of the get and the read. |
| S3.S3CloudStorage.FileExists | backend/internal/repository/cloud/s3/s3client.go:187-197 | The result is `Exists` of the stat. |
| Producer.MessageShape | backend/internal/broker/kafka/producer.go:59-66 | A record's value is the JSON and its key the image id. Its two headers carry a task id, then an image id. |
| Producer.PublishOutcome | backend/internal/broker/kafka/producer.go:44-86 | A failed marshal writes nothing. Otherwise exactly one record is written, and the result is nil exactly when that write succeeds. |
| Producer.BatchMembership | backend/internal/broker/kafka/producer.go:98-115 | A message is in the batch exactly when it is the record of some task that serialises. |
| Producer.BatchMessagesAppend | backend/internal/broker/kafka/producer.go:98-115 | The batch of two task lists is the concatenation of their batches, so task order is kept. |
| Producer.BatchMessagesAll | backend/internal/broker/kafka/producer.go:98-115 | When every task serialises, the k-th message is the k-th task's record. |
| Producer.BatchMessagesNone | backend/internal/broker/kafka/producer.go:98-124 | When no task serialises the batch is empty, and one write with no messages is still made. |
| Producer.PublishAllOutcome | backend/internal/broker/kafka/producer.go:89-125 | An empty batch writes nothing and returns nil. Any other batch makes exactly one write of the collected messages and fails exactly when it fails. |
| Producer.KafkaProducer.WriteMessages | backend/internal/broker/kafka/producer.go:69 | The write is recorded and its answer returned. |
| Producer.KafkaProducer.PublishProcessingTask | backend/internal/broker/kafka/producer.go:44-86 | The writes and the result are those of `Publish`. |
| Producer.KafkaProducer.PublishBatch | backend/internal/broker/kafka/producer.go:89-125 | The collecting loop gives the writes and the result of `PublishAll`. |
| Consumer.Decodable | backend/internal/broker/kafka/consumer.go:158-163 | The fetched messages whose payload decodes, in fetch order. |
| Consumer.DecodedTasks | backend/internal/broker/kafka/consumer.go:158-165 | One decoded task per decodable message, in fetch order. |
| Consumer.IterationFacts | backend/internal/broker/kafka/consumer.go:52-97 | A done context returns its error before any fetch. A fetch error or an undecodable message calls no handler and commits nothing. Otherwise the handler runs once, and the message is committed exactly when the handler returned nil. |
| Consumer.IterationCommits | backend/internal/broker/kafka/consumer.go:79-96 | One iteration makes at most one handler call and commits exactly when that call returned nil. |
| Consumer.CommitIffHandled | backend/internal/broker/kafka/consumer.go:49-99 | Over any run, the commit calls are exactly the messages whose handler returned nil, in order. |
| Consumer.BatchFrame | backend/internal/broker/kafka/consumer.go:140-174 | `ReadBatch` makes at most maxMessages fetches and calls no handler. Its error is the last fetch's and never a timeout. |
| Consumer.BatchTasks | backend/internal/broker/kafka/consumer.go:158-165 | The returned tasks are the fetched messages that decode, in fetch order. |
| Consumer.BatchCommits | backend/internal/broker/kafka/consumer.go:158-170 | Exactly the decodable messages are committed, in fetch order. |
| Consumer.ReadBatchBound | backend/internal/broker/kafka/consumer.go:141-171 | For a non-negative bound: at most maxMessages tasks, none for a zero bound, and one commit per returned task. |
| Consumer.KafkaConsumer.ProcessOne | backend/internal/broker/kafka/consumer.go:102-137 | The calls and the result are those of `processMessage`. |
| Consumer.KafkaConsumer.StartStep | backend/internal/broker/kafka/consumer.go:53-96 | One loop iteration has the effect of `Iteration`. |
| Consumer.KafkaConsumer.Start | backend/internal/broker/kafka/consumer.go:49-99 | The loop, bounded by fuel, has the effect of `StartRun`. |
| Consumer.KafkaConsumer.ReadBatch | backend/internal/broker/kafka/consumer.go:140-174 | For a non-negative bound, the loop gives the calls, tasks and error of `Batch`. |
| Handler.Limit | backend/internal/http-server/handler/handler.go:386-389 | The page size is the query number when it is in 1..100, and 10 otherwise. |
| Handler.Offset | backend/internal/http-server/handler/handler.go:391-394 | The offset is the query number when it is non-negative, and 0 otherwise. |
| Handler.Expiry | backend/internal/http-server/handler/handler.go:344-348 | The expiry is the query number when it is positive, and 3600 otherwise. |
| Handler.EntityOperationsOutcome | backend/internal/http-server/handler/handler.go:110-121 | The loop succeeds exactly when every operation validates, and it then gives one entity per request, in order. |
| Handler.EntityOperationsFailure | backend/internal/http-server/handler/handler.go:110-121 | A failure names the first failing index and that operation's error. |
| Handler.InvalidOperationCallsNothing | backend/internal/http-server/handler/handler.go:110-121 | An invalid operation gives a 400 "invalid_operation" and calls no service. |
| Handler.DefaultOperationsPass | backend/internal/http-server/handler/handler.go:96-106 | An empty operations field means one 200-pixel thumbnail, which passes validation unchanged. |
| Handler.UploadSuccess | backend/internal/http-server/handler/handler.go:124-161 | A valid upload calls the image service with the operations and a non-empty MIME type, then records the upload. It replies 201 with the operation count and an estimate of 2 s per operation. |
| Handler.ListOutcome | backend/internal/http-server/handler/handler.go:379-431 | The list uses the normalised page and echoes limit and offset. It has one summary per image, in order, carrying the image's id, filename, status name, size, MIME type and both timestamps, with an empty original URL and no versions. |
| Handler.PresignOutcome | backend/internal/http-server/handler/handler.go:328-376 | A missing id is a 400. Otherwise the link is asked for with the normalised expiry, which the reply reports. |
| Handler.LimitExamples | backend/internal/http-server/handler/handler.go:386-389 | An absent limit, "0" and "500" give 10, and "25" gives 25. |
| Handler.OffsetExamples | backend/internal/http-server/handler/handler.go:391-394 | A negative or absent offset gives 0. |
| Handler.ExpiryExamples | backend/internal/http-server/handler/handler.go:344-348 | A non-numeric expiry gives an hour, and "60" gives 60. |
| Handler.Handler.ValidateOperations | backend/internal/http-server/handler/handler.go:110-121 | The loop gives what `EntityOperations` gives. |
| Handler.Handler.UploadImage | backend/internal/http-server/handler/handler.go:37-162 | The calls and the reply are those of `Upload`. |
| Handler.Handler.ListImages | backend/internal/http-server/handler/handler.go:379-431 | The calls and the reply are those of `List`. |
| Handler.Handler.GetImagePresignedURL | backend/internal/http-server/handler/handler.go:328-376 | The calls and the reply are those of `Presign`. |
| Config.LoadServiceConfig | backend/internal/config/config.go:13-45 | The loader gives the configuration and error of `Load`. |
| Config.Cut | backend/internal/config/config.go:47-55 | Cutting at the first separator splits the text around it. |
| Config.CutJoin | backend/internal/config/config.go:47-55 | Cutting a join at a separator the first part lacks gives the parts back. |
| Config.ParseJoined | backend/internal/config/config.go:47-55 | Text joined in the connection-string layout parses back into its six parts. |
| Config.DsnRoundTrip | backend/internal/config/config.go:47-55 | The connection string parses back into the driver, user, password, host, port and database, when the unescaped parts lack their separators. |
| Config.DsnOutcome | backend/internal/config/config.go:47-55 | The connection string fails exactly when the password variable is unset or empty, since `os.Getenv` reads an unset variable as the empty string. The error names the variable. |
| Config.CloudKeysOutcome | backend/internal/config/config.go:57-64 | The keys fail exactly when either variable is unset or empty (an unset one reads as the empty string), and are otherwise the two values. |
| Config.LoadFailure | backend/internal/config/config.go:17-37 | A read, decode, connection-string or key error is returned in that order of precedence, with an empty configuration. |
| Config.LoadSuccess | backend/internal/config/config.go:13-45 | Loading succeeds exactly when the file reads and decodes and the three variables are set. The result is the decoded configuration with the connection string and the keys filled in. |
| Worker.GetOperationParamsFirst | backend/internal/service/worker/worker.go:262-270 | The parameter text is that of the first operation of the kind. |
| Worker.GetOperationParamsMissing | backend/internal/service/worker/worker.go:262-270 | A kind that is not requested gives the empty string. |
| Worker.FailedEvents | backend/internal/service/worker/worker.go:68-70 | A failed task records one failure with time 0 per requested operation, in order. |
| Worker.FailTaskLosesCause | backend/internal/service/worker/worker.go:60-71 | As written, a failed task whose image-status update succeeds returns an error wrapping nil. The corrected branch wraps the cause, and both branches have the same side effects. |
| Worker.StoreStagesFrame | backend/internal/service/worker/worker.go:110-170 | The store loop makes one upload per stage and only appends puts and rows. The job, the image, the statistics, the downloads and the sleeps stay as they were. |
| Worker.StoreStagesTimes | backend/internal/service/worker/worker.go:125-164 | Times are recorded only for operations the loop iterated over, and exactly for those whose row was written. |
| Worker.StoreStagesStored | backend/internal/service/worker/worker.go:114-153 | Every row written belongs to the processed image and describes the output of its operation: size, requested parameters, `image/jpeg`, completed, the original's format. Its path is `processed/<image>/<operation>/<id>.jpg` for some id, and the output's bytes were uploaded to it. |
| Worker.TaskRunCounters | backend/internal/service/worker/worker.go:43-206 | Each task run downloads once and never sleeps. |
| Worker.DownloadFailure | backend/internal/service/worker/worker.go:53-72 | A failed download runs no pipeline and stores nothing. It marks the job failed with the download error and the image failed, each unless its repository call fails, and records one failure per operation. The returned error wraps the result of the image-status update, as the code reassigns `err`. |
| Worker.PipelineFailure | backend/internal/service/worker/worker.go:80-100 | A failed pipeline has the same effects after one pipeline run, with the pipeline's error as the job message. The returned error again wraps the image-status update's result. |
| Worker.IntendedRun | backend/internal/service/worker/worker.go:53-100 | The corrected task run has the same effects and fails in the same cases as the code as written. Its error wraps the download or pipeline error under the same context. |
| Worker.TaskRunFails | backend/internal/service/worker/worker.go:43-206 | A task fails exactly when the download or the pipeline fails, because store failures are skipped. |
| Worker.StoreResultsFrame | backend/internal/service/worker/worker.go:110-196 | Storing only appends puts, rows and statistics and changes neither downloads, pipeline runs nor sleeps. After the store loop, the job is set to completed unless the next repository call fails, and the image unless the one after it fails; otherwise they stay as they were. |
| Worker.StoreResultsFacts | backend/internal/service/worker/worker.go:110-196 | Every new row describes a stored output. The processed events are one per row, each for a different operation. |
| Worker.EventsMatchRows | backend/internal/service/worker/worker.go:162-196 | The processed events cover exactly the operations of the rows, one each. |
| Worker.EventOps | backend/internal/service/worker/worker.go:188-196 | The events' operations are those of the iteration order. |
| Worker.Completion | backend/internal/service/worker/worker.go:43-206 | A completed task downloaded the original and ran the pipeline with success, and its effects are those of storing the outputs. |
| Worker.Backoffs | backend/internal/service/worker/worker.go:231-238 | The back-off before retry k is 2k seconds. |
| Worker.TaskAttemptCounts | backend/internal/service/worker/worker.go:219 | Each attempt downloads once and does not sleep. |
| Worker.RetrySchedule | backend/internal/service/worker/worker.go:209-249 | The retry loop makes between one and maxRetries attempts, sleeping 2k seconds after each failed attempt k that is not the last. A failure uses every attempt. |
| Worker.RetryOutcome | backend/internal/service/worker/worker.go:209-249 | The loop ends with the state after its last attempt, which started from the state the earlier failed attempts and their sleeps left. It returns nil exactly when that attempt did. Otherwise that attempt was the last allowed and its error comes back under "task processing failed after N retries". Without attempts nothing changes and the starting error is wrapped. |
| Worker.NoAttempts | backend/internal/service/worker/worker.go:212-248 | With maxRetries below 1 nothing runs, and the error wraps nil. |
| Worker.WorkerService.ProcessTask | backend/internal/service/worker/worker.go:43-206 | The new backend state and the result are those of `TaskRun`, the code as written, including the error returned on failure. |
| Worker.WorkerService.StoreAll | backend/internal/service/worker/worker.go:108-196 | The new backend state is that of `StoreResults`. |
| Worker.WorkerService.ProcessTaskWithRetry | backend/internal/service/worker/worker.go:209-249 | The retry loop's state and result are those of `Retry` from attempt 1. |

## Left out

- I/O is outside the model: HTTP parsing, multipart size limits, JSON encoding of replies, logging and the request context timeout. The handler receives an already parsed form and query values.
- Concurrency is outside the model: the statistics service's mutex and the nested read lock in `GetDetailedStatistics`, goroutines and cancellation. Each call is taken as atomic.
- Floating point numbers are `real`. NaN, infinities and rounding are not modelled.
- GetFloat64: an int64 is read as its exact value, without the rounding of `float64(int64)`.
- Stats.RecordOperations: the mean time handed to the counter is an oracle value. Go would compute NaN for an empty map.
- Integers are unbounded. A 64-bit overflow in sizes and counters is not modelled; `strconv.Atoi` is the one place where the 64-bit range is checked.
- `uint8(opacity*255)` in the watermark colour is not modelled: the opacity is passed to the drawing library as it is.
- Pixel work is left to uninterpreted library functions: decoding, encoding, resizing, drawing text and WebP decoding. Their results are oracle answers.
- Time, uuids, sleeps and map iteration order are oracle values or recorded lists. A sleep is recorded, not waited for.
- Consumer.KafkaConsumer.Start: the endless loop is bounded by a fuel parameter, and a run that has not returned when the fuel runs out is reported as still running.
- Request.ToLower: lower-cases ASCII letters only. Unicode case mapping is not modelled.
- Request.CheckThumbnail: the inserted default size is an int value, as in the source, and the other defaults are uninterpreted configuration values.
- S3.Upload: the reader's ability to seek is a flag. The return after the loop at s3client.go:107 is unreachable; the model keeps it as the `attempt > MaxRetries` branch of `Upload` and the last return of `UploadFile`.
- ResizeOp.DecodeImage: the rewind of the in-memory reader between the config read and the decode always succeeds and is not modelled.
- Config.Load: viper's file reading and decoding are oracle results. The configuration sections besides the database and cloud keys are carried unchanged and not interpreted.
- Config.DSN: the connection string does not escape its parts, so the round trip holds only for parts free of their separators.
- Other S3 methods (delete, presign, list, bucket creation), EnsureTopicExists, the producer's and consumer's Close and the consumer's Stats are not part of this model.
- `GetImageInfo` in image_processor.go, the unused `addSimpleWatermark` in watermark.go, and the handlers `GetImage`, `GetImageStatus`, `DeleteImage`, `GetStatistics` and `HealthCheck` are not part of this model.
- The image service and the repositories are not part of this model except as oracles the handler and the worker call.
- The entity file that defines the operation kinds, parameter keys, watermark positions and format names is not part of this model. Their string values are taken from the way the handler, the DTOs and the operations use them, and the status values are those of job.go.
- Consumer.ReadBatchBound and Consumer.KafkaConsumer.ReadBatch require a non-negative bound, because `make` with a negative capacity panics. The panic itself is not modelled.

## Findings

| source | as written | input that shows it | evidently intended | confidence | as-written member | corrected member |
|---|---|---|---|---|---|---|
| backend/internal/service/worker/worker.go:60-71, 86-99 | `err` is reassigned by the job and image status updates, so the returned error wraps the last update's result instead of the download or pipeline error | a download failure with both status updates succeeding returns "failed to download original image: %!w(<nil>)" | wrap the download or pipeline error that caused the failure | not executed | Worker.TaskRun (Worker.DownloadFailure, Worker.FailTaskLosesCause) | Worker.TaskRunIntended (Worker.IntendedRun) |

The worker service and the retry loop keep the behaviour as written: `WorkerService.ProcessTask` returns the error that `TaskRun` gives. The correction changes only the returned error, not the effects and not whether a task fails, so every other property holds for both.
