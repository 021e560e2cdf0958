/** The HTTP handlers' own logic: query normalisation of `ListImages` and
    `GetImagePresignedURL`, and the default operations, validation loop and
    response counts of `UploadImage`. The image and statistics services are
    collaborators whose answers come from a `HandlerEnv`; the calls made to
    them are recorded in order. */
module Handler {
  import opened Common
  import opened Entity
  import opened Strconv
  import opened Request
  import opened Response

  const DefaultLimit := 10
  const MaxLimit := 100
  const DefaultExpiry := 3600
  const OctetStream := "application/octet-stream"

  /** The operations used when the form has none. */
  const DefaultOperations: seq<OperationRequest> :=
    [OperationRequest(OpThumbnail, Some(map[ParamSize := Int(200)]))]

  /** `c.DefaultQuery`: the query value when the key is present. */
  function QueryOr(q: Option<string>, default: string): string
  {
    if q.Some? then q.value else default
  }

  /** The page size: a number in 1..100, and 10 for anything else. */
  function Limit(q: Option<string>): (r: int)
    ensures 1 <= r <= MaxLimit
    ensures var v := Atoi(QueryOr(q, "10"));
      if v.Some? && 0 < v.value <= MaxLimit then r == v.value else r == DefaultLimit
  {
    var v := Atoi(QueryOr(q, "10"));
    if v.None? || v.value <= 0 || v.value > MaxLimit then DefaultLimit else v.value
  }

  /** The page offset: a non-negative number, and 0 for anything else. */
  function Offset(q: Option<string>): (r: int)
    ensures r >= 0
    ensures var v := Atoi(QueryOr(q, "0"));
      if v.Some? && v.value >= 0 then r == v.value else r == 0
  {
    var v := Atoi(QueryOr(q, "0"));
    if v.None? || v.value < 0 then 0 else v.value
  }

  /** The link lifetime in seconds: a positive number, and 3600 for
      anything else. */
  function Expiry(q: Option<string>): (r: int)
    ensures r > 0
    ensures var v := Atoi(QueryOr(q, "3600"));
      if v.Some? && v.value > 0 then r == v.value else r == DefaultExpiry
  {
    var v := Atoi(QueryOr(q, "3600"));
    if v.None? || v.value <= 0 then DefaultExpiry else v.value
  }

  /** The multipart form as far as the handler reads it. */
  datatype Form =
    | ParseFailed(e: Error)
    | FileMissing(e: Error)
    | ReadFailed(e: Error)
    | Uploaded(filename: string, contentType: string, data: Bytes, operationsJson: string)

  datatype UploadResponse = UploadResponse(
    id: string, status: string, originalUrl: string, filename: string, size: int,
    mimeType: string, createdAt: int, estimatedTime: int, operationsCount: int)

  datatype ListResponse = ListResponse(images: seq<ImageResponse>, limit: int, offset: int, count: int)

  datatype PresignResponse = PresignResponse(url: string, expiresIn: int)

  /** A JSON reply: a status with a body, or an error body. */
  datatype Reply<T> = Ok(status: int, body: T) | ErrorReply(status: int, error: string, message: string)

  /** The service calls the handlers make. */
  datatype ServiceCall =
    | UploadImageCall(data: Bytes, filename: string, mimeType: string, operations: seq<OperationParams>)
    | RecordImageUploadedCall(size: int)
    | ListImagesCall(limit: int, offset: int)
    | PresignCall(imageId: string, operation: string, expirySeconds: int)

  /** The services' answers to the n-th call, and the JSON decoder of the
      operations field. */
  datatype HandlerEnv = HandlerEnv(
    parseOperations: string -> Result<seq<OperationRequest>>,
    upload: nat -> Result<Image>,
    recordUploaded: nat -> Option<Error>,
    list: nat -> Result<seq<Image>>,
    presign: nat -> Result<string>)

  type Calls = seq<ServiceCall>

  /** The validation loop of `UploadImage` from index `i`: each operation is
      validated on its own copy, and the validated copy is what goes into
      the entity list. The failure carries the index. */
  function EntityOperations(d: Defaults, ops: seq<OperationRequest>, i: nat, acc: seq<OperationParams>)
    : Result<seq<OperationParams>>
    decreases |ops| - i
  {
    if i >= |ops| then Success(acc)
    else
      var (op, err) := CheckOperation(d, ops[i]);
      if err.Some? then
        Failure(Leaf("Invalid operation at index " + IntToDecimal(i) + ": " + Text(err.value)))
      else EntityOperations(d, ops, i + 1, acc + [op.ToEntity()])
  }

  /** The request operations: the defaults for an empty field, otherwise
      the decoded JSON. */
  function RequestOperations(env: HandlerEnv, json: string): Result<seq<OperationRequest>>
  {
    if json == "" then Success(DefaultOperations) else env.parseOperations(json)
  }

  /** `UploadImage`. A failed statistics call is only logged. */
  function Upload(env: HandlerEnv, d: Defaults, calls: Calls, form: Form): (Calls, Reply<UploadResponse>)
  {
    match form
    case ParseFailed(e) => (calls, ErrorReply(400, "invalid_request", "Failed to parse form: " + Text(e)))
    case FileMissing(e) => (calls, ErrorReply(400, "invalid_request", "Failed to get image file: " + Text(e)))
    case ReadFailed(e) => (calls, ErrorReply(500, "read_error", "Failed to read file: " + Text(e)))
    case Uploaded(filename, contentType, data, json) =>
      match RequestOperations(env, json)
      case Failure(e) => (calls, ErrorReply(400, "invalid_operations", "Failed to parse operations: " + Text(e)))
      case Success(ops) =>
        match EntityOperations(d, ops, 0, [])
        case Failure(e) => (calls, ErrorReply(400, "invalid_operation", Text(e)))
        case Success(entities) =>
          var mime := if contentType == "" then OctetStream else contentType;
          var c1 := calls + [UploadImageCall(data, filename, mime, entities)];
          match env.upload(|calls|)
          case Failure(e) => (c1, ErrorReply(500, "upload_failed", "Failed to upload image: " + Text(e)))
          case Success(image) =>
            var c2 := c1 + [RecordImageUploadedCall(image.originalSize)];
            (c2, Ok(201, UploadResponse(image.id, image.status.Name(), "", filename, image.originalSize,
                                        image.mimeType, image.createdAt, |entities| * 2, |entities|)))
  }

  /** `ListImages`. */
  function List(env: HandlerEnv, calls: Calls, limitQ: Option<string>, offsetQ: Option<string>)
    : (Calls, Reply<ListResponse>)
  {
    var limit := Limit(limitQ);
    var offset := Offset(offsetQ);
    var c1 := calls + [ListImagesCall(limit, offset)];
    match env.list(|calls|)
    case Failure(e) => (c1, ErrorReply(500, "list_failed", "Failed to list images: " + Text(e)))
    case Success(images) =>
      var views := seq(|images|, k requires 0 <= k < |images| => Summary(images[k]));
      (c1, Ok(200, ListResponse(views, limit, offset, |images|)))
  }

  /** `GetImagePresignedURL`. */
  function Presign(env: HandlerEnv, calls: Calls, id: string, operationQ: Option<string>, expiryQ: Option<string>)
    : (Calls, Reply<PresignResponse>)
  {
    if id == "" then (calls, ErrorReply(400, "missing_id", "Image ID is required"))
    else
      var expiry := Expiry(expiryQ);
      var c1 := calls + [PresignCall(id, QueryOr(operationQ, "original"), expiry)];
      match env.presign(|calls|)
      case Failure(e) => (c1, ErrorReply(500, "url_generation_failed", "Failed to generate presigned URL: " + Text(e)))
      case Success(url) => (c1, Ok(200, PresignResponse(url, expiry)))
  }

  // ---------------------------------------------------------------------
  // Properties
  // ---------------------------------------------------------------------

  /** The validation loop passes exactly when every operation passes, and
      then keeps the number and the order of the operations, each entity
      being the validated copy of its request. */
  lemma {:induction false} EntityOperationsOutcome(d: Defaults, ops: seq<OperationRequest>, i: nat, acc: seq<OperationParams>)
    requires i <= |ops|
    ensures var r := EntityOperations(d, ops, i, acc);
      (r.Success? <==> forall k :: i <= k < |ops| ==> CheckOperation(d, ops[k]).1.None?)
      && (r.Success? ==>
            |r.value| == |acc| + |ops| - i && r.value[..|acc|] == acc
            && forall k :: i <= k < |ops| ==> r.value[|acc| + k - i] == CheckOperation(d, ops[k]).0.ToEntity())
    decreases |ops| - i
  {
    if i < |ops| {
      var (op, err) := CheckOperation(d, ops[i]);
      if err.None? {
        var acc' := acc + [op.ToEntity()];
        EntityOperationsOutcome(d, ops, i + 1, acc');
        var r := EntityOperations(d, ops, i + 1, acc');
        if r.Success? {
          assert r.value[..|acc|] == r.value[..|acc'|][..|acc|];
          assert r.value[|acc|] == acc'[|acc|];
        }
      }
    }
  }

  /** A failing validation loop reports the first failing index `j`, with
      that operation's own error text. */
  lemma {:induction false} EntityOperationsFailure(d: Defaults, ops: seq<OperationRequest>, i: nat, acc: seq<OperationParams>)
    returns (j: nat)
    requires i <= |ops|
    requires EntityOperations(d, ops, i, acc).Failure?
    ensures i <= j < |ops| && CheckOperation(d, ops[j]).1.Some?
    ensures forall k :: i <= k < j ==> CheckOperation(d, ops[k]).1.None?
    ensures Text(EntityOperations(d, ops, i, acc).error)
      == "Invalid operation at index " + IntToDecimal(j) + ": " + Text(CheckOperation(d, ops[j]).1.value)
    decreases |ops| - i
  {
    var (op, err) := CheckOperation(d, ops[i]);
    if err.Some? {
      j := i;
    } else {
      j := EntityOperationsFailure(d, ops, i + 1, acc + [op.ToEntity()]);
    }
  }

  /** An invalid operation gets a 400 and the services are not called. */
  lemma InvalidOperationCallsNothing(env: HandlerEnv, d: Defaults, calls: Calls, form: Form)
    requires form.Uploaded? && RequestOperations(env, form.operationsJson).Success?
    requires var ops := RequestOperations(env, form.operationsJson).value;
      exists k :: 0 <= k < |ops| && CheckOperation(d, ops[k]).1.Some?
    ensures Upload(env, d, calls, form).0 == calls
    ensures Upload(env, d, calls, form).1 == ErrorReply(400, "invalid_operation",
                                                      Text(EntityOperations(d, RequestOperations(env, form.operationsJson).value, 0, []).error))
  {
    EntityOperationsOutcome(d, RequestOperations(env, form.operationsJson).value, 0, []);
  }

  /** A form without operations asks for one 200-pixel thumbnail, and that
      request passes validation unchanged. */
  lemma DefaultOperationsPass(d: Defaults)
    ensures EntityOperations(d, DefaultOperations, 0, [])
      == Success([OperationParams(OpThumbnail, Some(map[ParamSize := Int(200)]))])
  {
    var op := DefaultOperations[0];
    assert OpThumbnail in RequestKinds;
    assert GetFloat64(Int(200)) == 200.0;
    assert CheckOperation(d, op) == (op, None);
    var empty: seq<OperationParams> := [];
    assert empty + [op.ToEntity()] == [op.ToEntity()];
    assert EntityOperations(d, DefaultOperations, 0, empty) == EntityOperations(d, DefaultOperations, 1, [op.ToEntity()]);
    assert EntityOperations(d, DefaultOperations, 1, [op.ToEntity()]) == Success([op.ToEntity()]);
  }

  /** A valid upload calls the image service once with the validated
      operations in request order and a non-empty MIME type, then records
      the upload statistics; the reply reports as many operations as were
      requested and twice as many seconds, whatever the statistics call
      answered. */
  lemma UploadSuccess(env: HandlerEnv, d: Defaults, calls: Calls, form: Form)
    requires form.Uploaded? && RequestOperations(env, form.operationsJson).Success?
    requires var ops := RequestOperations(env, form.operationsJson).value;
      forall k :: 0 <= k < |ops| ==> CheckOperation(d, ops[k]).1.None?
    requires env.upload(|calls|).Success?
    ensures var ops := RequestOperations(env, form.operationsJson).value;
      var (c, reply) := Upload(env, d, calls, form);
      var image := env.upload(|calls|).value;
      |c| == |calls| + 2 && c[..|calls|] == calls
      && c[|calls|].UploadImageCall?
      && |c[|calls|].operations| == |ops|
      && (forall k :: 0 <= k < |ops| ==> c[|calls|].operations[k] == CheckOperation(d, ops[k]).0.ToEntity())
      && c[|calls|].mimeType != ""
      && (form.contentType == "" ==> c[|calls|].mimeType == OctetStream)
      && c[|calls| + 1] == RecordImageUploadedCall(image.originalSize)
      && reply.Ok? && reply.status == 201
      && reply.body.operationsCount == |ops| && reply.body.estimatedTime == 2 * |ops|
      && reply.body.id == image.id && reply.body.filename == form.filename
  {
    var ops := RequestOperations(env, form.operationsJson).value;
    EntityOperationsOutcome(d, ops, 0, []);
    var (c, reply) := Upload(env, d, calls, form);
    assert c[..|calls|] == calls;
  }

  /** The listing shows one summary per image, in the service's order:
      its id, filename, status name, size, MIME type and timestamps, with
      no original URL and no versions; it echoes the normalised page. */
  lemma ListOutcome(env: HandlerEnv, calls: Calls, limitQ: Option<string>, offsetQ: Option<string>)
    ensures var (c, reply) := List(env, calls, limitQ, offsetQ);
      c == calls + [ListImagesCall(Limit(limitQ), Offset(offsetQ))]
      && (reply.Ok? <==> env.list(|calls|).Success?)
      && (reply.Ok? ==>
            var images := env.list(|calls|).value;
            reply.body.count == |images| == |reply.body.images|
            && (forall k :: 0 <= k < |images| ==>
                  var v := reply.body.images[k];
                  v.id == images[k].id && v.filename == images[k].originalFilename
                  && v.originalUrl == "" && v.status == images[k].status.Name()
                  && v.size == images[k].originalSize && v.mimeType == images[k].mimeType
                  && v.versions.None?
                  && v.createdAt == images[k].createdAt && v.updatedAt == images[k].updatedAt)
            && reply.body.limit == Limit(limitQ) && reply.body.offset == Offset(offsetQ))
  {
  }

  /** A presigned link is asked for with the normalised expiry, which is
      also what the reply reports. */
  lemma PresignOutcome(env: HandlerEnv, calls: Calls, id: string, operationQ: Option<string>, expiryQ: Option<string>)
    ensures var (c, reply) := Presign(env, calls, id, operationQ, expiryQ);
      (id == "" ==> c == calls && reply == ErrorReply(400, "missing_id", "Image ID is required"))
      && (id != "" ==>
            c == calls + [PresignCall(id, QueryOr(operationQ, "original"), Expiry(expiryQ))]
            && (reply.Ok? <==> env.presign(|calls|).Success?)
            && (reply.Ok? ==> reply.body.expiresIn == Expiry(expiryQ) && reply.body.expiresIn > 0))
  {
  }

  /** An absent limit is 10, as are "0" and "500"; "25" is kept. */
  lemma LimitExamples()
    ensures Limit(None) == 10 && Limit(Some("0")) == 10 && Limit(Some("500")) == 10 && Limit(Some("25")) == 25
  {
    assert "25"[..1] == "2" && "500"[..2] == "50" && "50"[..1] == "5";
    assert DigitsValue("25") == 25;
    assert DigitsValue("500") == 500 by {
      assert DigitsValue("50") == 50;
    }
  }

  /** A negative offset falls back to 0. */
  lemma OffsetExamples()
    ensures Offset(Some("-3")) == 0 && Offset(None) == 0
  {
    assert "-3"[1..] == "3";
  }

  /** A non-numeric expiry falls back to an hour; "60" is kept. */
  lemma ExpiryExamples()
    ensures Expiry(Some("abc")) == DefaultExpiry && Expiry(Some("60")) == 60
  {
    assert "60"[..1] == "6";
    assert DigitsValue("60") == 60;
    assert !IsDigit("abc"[0]);
  }

  // ---------------------------------------------------------------------
  // The handler
  // ---------------------------------------------------------------------

  class Handler {
    const env: HandlerEnv
    const defaults: Defaults
    /** The service calls made, in order. */
    var calls: Calls

    constructor (env: HandlerEnv, defaults: Defaults)
      ensures this.env == env && this.defaults == defaults && calls == []
    {
      this.env := env;
      this.defaults := defaults;
      calls := [];
    }

    /** The validation loop: one copy per operation is validated and then
        converted. */
    method ValidateOperations(ops: seq<OperationRequest>) returns (r: Result<seq<OperationParams>>)
      ensures r == EntityOperations(defaults, ops, 0, [])
    {
      var entities: seq<OperationParams> := [];
      for i := 0 to |ops|
        invariant EntityOperations(defaults, ops, 0, []) == EntityOperations(defaults, ops, i, entities)
      {
        var op := new OperationForm(ops[i]);
        var err := op.Validate(defaults);
        if err.Some? {
          return Failure(Leaf("Invalid operation at index " + IntToDecimal(i) + ": " + Text(err.value)));
        }
        entities := entities + [op.Request().ToEntity()];
      }
      return Success(entities);
    }

    method UploadImage(form: Form) returns (reply: Reply<UploadResponse>)
      modifies this`calls
      ensures (calls, reply) == Upload(env, defaults, old(calls), form)
    {
      if form.ParseFailed? {
        return ErrorReply(400, "invalid_request", "Failed to parse form: " + Text(form.e));
      }
      if form.FileMissing? {
        return ErrorReply(400, "invalid_request", "Failed to get image file: " + Text(form.e));
      }
      if form.ReadFailed? {
        return ErrorReply(500, "read_error", "Failed to read file: " + Text(form.e));
      }
      var ops: seq<OperationRequest>;
      if form.operationsJson != "" {
        var parsed := env.parseOperations(form.operationsJson);
        if parsed.Failure? {
          return ErrorReply(400, "invalid_operations", "Failed to parse operations: " + Text(parsed.error));
        }
        ops := parsed.value;
      } else {
        ops := DefaultOperations;
      }
      var entities := ValidateOperations(ops);
      if entities.Failure? {
        return ErrorReply(400, "invalid_operation", Text(entities.error));
      }
      var mime := form.contentType;
      if mime == "" {
        mime := OctetStream;
      }
      var image := env.upload(|calls|);
      calls := calls + [UploadImageCall(form.data, form.filename, mime, entities.value)];
      if image.Failure? {
        return ErrorReply(500, "upload_failed", "Failed to upload image: " + Text(image.error));
      }
      var _ := env.recordUploaded(|calls|);
      calls := calls + [RecordImageUploadedCall(image.value.originalSize)];
      var n := |entities.value|;
      return Ok(201, UploadResponse(image.value.id, image.value.status.Name(), "", form.filename,
                                    image.value.originalSize, image.value.mimeType, image.value.createdAt,
                                    n * 2, n));
    }

    method ListImages(limitQ: Option<string>, offsetQ: Option<string>) returns (reply: Reply<ListResponse>)
      modifies this`calls
      ensures (calls, reply) == List(env, old(calls), limitQ, offsetQ)
    {
      var limit := Limit(limitQ);
      var offset := Offset(offsetQ);
      var images := env.list(|calls|);
      calls := calls + [ListImagesCall(limit, offset)];
      if images.Failure? {
        return ErrorReply(500, "list_failed", "Failed to list images: " + Text(images.error));
      }
      var views: seq<ImageResponse> := [];
      for i := 0 to |images.value|
        invariant |views| == i
        invariant forall k :: 0 <= k < i ==> views[k] == Summary(images.value[k])
      {
        var img := images.value[i];
        views := views + [ImageResponse(img.id, img.originalFilename, "", img.status.Name(), img.originalSize,
                                        img.mimeType, None, img.createdAt, img.updatedAt)];
      }
      assert views == seq(|images.value|, k requires 0 <= k < |images.value| => Summary(images.value[k]));
      return Ok(200, ListResponse(views, limit, offset, |views|));
    }

    method GetImagePresignedURL(id: string, operationQ: Option<string>, expiryQ: Option<string>)
      returns (reply: Reply<PresignResponse>)
      modifies this`calls
      ensures (calls, reply) == Presign(env, old(calls), id, operationQ, expiryQ)
    {
      if id == "" {
        return ErrorReply(400, "missing_id", "Image ID is required");
      }
      var expiry := Expiry(expiryQ);
      var url := env.presign(|calls|);
      calls := calls + [PresignCall(id, QueryOr(operationQ, "original"), expiry)];
      if url.Failure? {
        return ErrorReply(500, "url_generation_failed", "Failed to generate presigned URL: " + Text(url.error));
      }
      return Ok(200, PresignResponse(url.value, expiry));
    }
  }
}
