/** Request validation of the HTTP API: `OperationRequest.Validate` with
    its three parameter validators, which insert defaults into the
    parameter map in place, and `UploadImageRequest.Validate`. */
module Request {
  import opened Common
  import opened Entity
  import opened Strconv

  /** An operation as a client sends it; a missing or `null` parameter
      object is a nil map (None). */
  datatype OperationRequest = OperationRequest(kind: string, parameters: Option<Params>)
  {
    /** `ToEntity`: the kind and the parameter map, unchanged. */
    function ToEntity(): OperationParams
    {
      OperationParams(kind, parameters)
    }
  }

  /** The uploaded file part: its name, size and declared content type. */
  datatype FileHeader = FileHeader(filename: string, size: int, contentType: string)

  const MaxDimension: real := 4096.0
  const MaxThumbnailSize: real := 1000.0

  /** `getFloat64`: the four numeric dynamic types read as their value,
      anything else as 0. */
  function GetFloat64(v: Value): real
  {
    match v
    case Float64(f) => f
    case Float32(f) => f
    case Int(i) => i as real
    case Int64(i) => i as real
    case _ => 0.0
  }

  /** A dimension the resize validator accepts. */
  predicate InDimensionRange(v: Value)
  {
    0.0 < GetFloat64(v) <= MaxDimension
  }

  /** `validateResizeParams`: the map must be non-nil, hold a width or a
      height, and every one present must read as a number in (0, 4096]. */
  function CheckResize(params: Option<Params>): (r: Option<Error>)
    ensures r.None? <==>
      params.Some?
      && (ParamWidth in params.value || ParamHeight in params.value)
      && (ParamWidth in params.value ==> InDimensionRange(params.value[ParamWidth]))
      && (ParamHeight in params.value ==> InDimensionRange(params.value[ParamHeight]))
  {
    if params.None? then Some(Leaf("resize parameters are required"))
    else
      var m := params.value;
      if ParamWidth !in m && ParamHeight !in m then
        Some(Leaf("at least one of width or height is required for resize"))
      else if ParamWidth in m && !InDimensionRange(m[ParamWidth]) then
        Some(Leaf("width must be between 1 and 4096"))
      else if ParamHeight in m && !InDimensionRange(m[ParamHeight]) then
        Some(Leaf("height must be between 1 and 4096"))
      else None
  }

  /** `validateThumbnailParams`: a nil map becomes a new map holding only
      the default size; a map without a size gets the default inserted; a
      present size must read as a number in (0, 1000] and is left as it
      is. The first component is the receiver's parameters afterwards. */
  function CheckThumbnail(d: Defaults, params: Option<Params>): (r: (Option<Params>, Option<Error>))
    ensures params.None? ==> r == (Some(map[ParamSize := Int(d.thumbnailSize)]), None)
    ensures params.Some? && ParamSize !in params.value ==>
      r == (Some(params.value[ParamSize := Int(d.thumbnailSize)]), None)
    ensures params.Some? && ParamSize in params.value ==>
      r.0 == params
      && (r.1.None? <==> 0.0 < GetFloat64(params.value[ParamSize]) <= MaxThumbnailSize)
  {
    if params.None? then (Some(map[ParamSize := Int(d.thumbnailSize)]), None)
    else
      var m := params.value;
      if ParamSize in m then
        var s := GetFloat64(m[ParamSize]);
        if s <= 0.0 || s > MaxThumbnailSize then (params, Some(Leaf("thumbnail size must be between 1 and 1000")))
        else (params, None)
      else (Some(m[ParamSize := Int(d.thumbnailSize)]), None)
  }

  /** The watermark map once its defaults are in: text and opacity are
      added when absent, and nothing already present is replaced. */
  function WithWatermarkDefaults(d: Defaults, m: Params): (n: Params)
    ensures n.Keys == m.Keys + {ParamText, ParamOpacity}
    ensures forall k :: k in m ==> n[k] == m[k]
    ensures ParamText !in m ==> n[ParamText] == Str(d.watermarkText)
    ensures ParamOpacity !in m ==> n[ParamOpacity] == Float64(d.watermarkOpacity)
  {
    var withText := if ParamText in m then m else m[ParamText := Str(d.watermarkText)];
    if ParamOpacity in withText then withText else withText[ParamOpacity := Float64(d.watermarkOpacity)]
  }

  /** `validateWatermarkParams`: after the defaults are inserted (into a
      new map when the receiver's is nil) the opacity must read as a number
      in [0, 1] and a present position must be a string naming one of the
      seven positions. */
  function CheckWatermark(d: Defaults, params: Option<Params>): (r: (Option<Params>, Option<Error>))
    ensures r.0 == Some(WithWatermarkDefaults(d, Entries(params)))
    ensures
      var n := r.0.value;
      r.1.None? <==>
        0.0 <= GetFloat64(n[ParamOpacity]) <= 1.0
        && (ParamPosition in n ==> n[ParamPosition].Str? && n[ParamPosition].s in Positions)
  {
    var n := WithWatermarkDefaults(d, Entries(params));
    var op := GetFloat64(n[ParamOpacity]);
    if op < 0.0 || op > 1.0 then (Some(n), Some(Leaf("watermark opacity must be between 0 and 1")))
    else if ParamPosition in n && !n[ParamPosition].Str? then
      (Some(n), Some(Leaf("watermark position must be a string")))
    else if ParamPosition in n && n[ParamPosition].s !in Positions then
      (Some(n), Some(Leaf("invalid watermark position: " + n[ParamPosition].s)))
    else (Some(n), None)
  }

  /** `OperationRequest.Validate`: the receiver afterwards and the error. */
  function CheckOperation(d: Defaults, op: OperationRequest): (OperationRequest, Option<Error>)
  {
    if op.kind == "" then (op, Some(Leaf("operation type is required")))
    else if op.kind !in RequestKinds then (op, Some(Leaf("invalid operation type: " + op.kind)))
    else if op.kind == OpResize then (op, CheckResize(op.parameters))
    else if op.kind == OpThumbnail then
      var (p, err) := CheckThumbnail(d, op.parameters);
      (op.(parameters := p), err)
    else if op.kind == OpWatermark then
      var (p, err) := CheckWatermark(d, op.parameters);
      (op.(parameters := p), err)
    else (op, None)
  }

  const ContentTypes: set<string> := {"image/jpeg", "image/jpg", "image/png", "image/gif", "image/webp"}
  const Extensions: seq<string> := [".jpg", ".jpeg", ".png", ".gif", ".webp"]

  /** `strings.ToLower` on ASCII letters; other characters are kept. */
  function ToLower(s: string): (r: string)
    ensures |r| == |s|
  {
    seq(|s|, i requires 0 <= i < |s| => LowerChar(s[i]))
  }

  function LowerChar(c: char): char
  {
    if 'A' <= c <= 'Z' then (c as int + 32) as char else c
  }

  predicate HasSuffix(s: string, suffix: string)
  {
    |suffix| <= |s| && s[|s| - |suffix|..] == suffix
  }

  /** `isValidImageExtension`: the lower-cased name ends in one of the five
      extensions. */
  predicate ValidExtension(filename: string)
  {
    exists i :: 0 <= i < |Extensions| && HasSuffix(ToLower(filename), Extensions[i])
  }

  /** `UploadImageRequest.Validate`: the checks in the order the code makes
      them; the first component is the request's operations afterwards. */
  function CheckUpload(d: Defaults, image: Option<FileHeader>, ops: seq<OperationRequest>)
    : (seq<OperationRequest>, Option<Error>)
  {
    if image.None? then (ops, Some(Leaf("image file is required")))
    else if image.value.size > d.maxUploadSize then
      (ops, Some(Leaf("file size exceeds maximum allowed size of " + IntToDecimal(d.maxUploadSize) + " bytes")))
    else if image.value.contentType !in ContentTypes then
      (ops, Some(Leaf("invalid content type: " + image.value.contentType
                      + ". Supported types: image/jpeg, image/png, image/gif, image/webp")))
    else if !ValidExtension(image.value.filename) then
      (ops, Some(Leaf("invalid file extension. Supported: .jpg, .jpeg, .png, .gif, .webp")))
    else CheckOperations(d, ops, 0)
  }

  /** The operation loop from index `i`. Each operation is validated on a
      copy of the request entry; the copy shares a non-nil map with the
      entry, so defaults inserted into it are visible afterwards, while a
      map created for a nil entry is lost with the copy. */
  function CheckOperations(d: Defaults, ops: seq<OperationRequest>, i: nat): (seq<OperationRequest>, Option<Error>)
    decreases |ops| - i
  {
    if i >= |ops| then (ops, None)
    else
      var (op, err) := CheckOperation(d, ops[i]);
      var ops' := if ops[i].parameters.Some? then ops[i := op] else ops;
      if err.Some? then (ops', Some(Wrap("invalid operation at index " + IntToDecimal(i), err)))
      else CheckOperations(d, ops', i + 1)
  }

  /** The entry a validated request leaves behind. */
  function AfterCheck(d: Defaults, op: OperationRequest): OperationRequest
  {
    if op.parameters.Some? then CheckOperation(d, op).0 else op
  }

  // ---------------------------------------------------------------------
  // Properties
  // ---------------------------------------------------------------------

  /** The kind check: an empty kind and a kind outside the seven fail
      without touching the parameters; crop, rotate, flip and grayscale
      pass with no parameter check at all. */
  lemma OperationKinds(d: Defaults, op: OperationRequest)
    ensures CheckOperation(d, op).0.kind == op.kind
    ensures op.kind == "" ==> CheckOperation(d, op) == (op, Some(Leaf("operation type is required")))
    ensures op.kind != "" && op.kind !in RequestKinds ==>
      CheckOperation(d, op) == (op, Some(Leaf("invalid operation type: " + op.kind)))
    ensures op.kind in {OpCrop, OpRotate, OpFlip, OpGrayscale} ==> CheckOperation(d, op) == (op, None)
    ensures CheckOperation(d, op).1.None? ==> op.kind in RequestKinds
  {
  }

  /** Validation only adds entries: every parameter the client sent is
      still there with the same value, and a validated resize, crop,
      rotate, flip or grayscale request is unchanged. */
  lemma ValidationOnlyAdds(d: Defaults, op: OperationRequest)
    ensures var after := CheckOperation(d, op).0;
      forall k :: k in Entries(op.parameters) ==>
        k in Entries(after.parameters) && Entries(after.parameters)[k] == Entries(op.parameters)[k]
    ensures op.kind !in {OpThumbnail, OpWatermark} ==> CheckOperation(d, op).0 == op
  {
  }

  /** A validated thumbnail request always carries a size, and a validated
      watermark request a text and an opacity. */
  lemma DefaultsPresent(d: Defaults, op: OperationRequest)
    requires CheckOperation(d, op).1.None?
    ensures op.kind == OpThumbnail ==>
      var p := CheckOperation(d, op).0.parameters; p.Some? && ParamSize in p.value
    ensures op.kind == OpWatermark ==>
      var p := CheckOperation(d, op).0.parameters;
      p.Some? && ParamText in p.value && ParamOpacity in p.value
  {
  }

  /** A non-numeric width reads as 0 and is refused, and so is a
      non-numeric thumbnail size. */
  lemma NonNumericRefused(d: Defaults, m: Params)
    requires ParamWidth in m && (m[ParamWidth].Bool? || m[ParamWidth].Str? || m[ParamWidth].Other?)
    requires ParamSize in m && (m[ParamSize].Bool? || m[ParamSize].Str? || m[ParamSize].Other?)
    ensures CheckResize(Some(m)).Some?
    ensures CheckThumbnail(d, Some(m)).1.Some?
  {
  }

  /** Lower-casing hits only ASCII capitals, so lower-casing twice is
      lower-casing once, and the extension check cannot tell a name from
      its lower-cased form. */
  lemma ToLowerIdempotent(s: string)
    ensures ToLower(ToLower(s)) == ToLower(s)
    ensures ValidExtension(ToLower(s)) == ValidExtension(s)
  {
  }

  /** Upper-case extensions are accepted: "PHOTO.JPG" passes, "photo.bmp"
      does not. */
  lemma ExtensionExamples()
    ensures ValidExtension("PHOTO.JPG")
    ensures !ValidExtension("photo.bmp")
  {
    assert ToLower("PHOTO.JPG") == "photo.jpg";
    assert HasSuffix(ToLower("PHOTO.JPG"), Extensions[0]);
    assert ToLower("photo.bmp") == "photo.bmp";
  }

  /** The operation loop keeps the number of entries and leaves the
      entries before `i` alone. */
  lemma {:induction false} CheckOperationsFrame(d: Defaults, ops: seq<OperationRequest>, i: nat)
    requires i <= |ops|
    ensures |CheckOperations(d, ops, i).0| == |ops|
    ensures CheckOperations(d, ops, i).0[..i] == ops[..i]
    decreases |ops| - i
  {
    if i < |ops| {
      var (op, err) := CheckOperation(d, ops[i]);
      var ops2 := if ops[i].parameters.Some? then ops[i := op] else ops;
      if err.None? {
        CheckOperationsFrame(d, ops2, i + 1);
        assert ops2[..i + 1][..i] == ops[..i];
      }
    }
  }

  /** The operation loop from `i` passes exactly when every entry from `i`
      on passes. */
  lemma {:induction false} CheckOperationsPass(d: Defaults, ops: seq<OperationRequest>, i: nat)
    requires i <= |ops|
    ensures CheckOperations(d, ops, i).1.None? <==>
      forall k :: i <= k < |ops| ==> CheckOperation(d, ops[k]).1.None?
    decreases |ops| - i
  {
    if i < |ops| {
      var (op, err) := CheckOperation(d, ops[i]);
      var ops2 := if ops[i].parameters.Some? then ops[i := op] else ops;
      if err.None? {
        CheckOperationsPass(d, ops2, i + 1);
        assert forall k :: i < k < |ops| ==> ops2[k] == ops[k];
      }
    }
  }

  /** A failing loop reports the first failing index `j` with that entry's
      own error; entry `j` keeps what its validation inserted into a shared
      map, and the entries after it are not touched. */
  lemma {:induction false} CheckOperationsFailure(d: Defaults, ops: seq<OperationRequest>, i: nat) returns (j: nat)
    requires i <= |ops|
    requires CheckOperations(d, ops, i).1.Some?
    ensures i <= j < |ops|
    ensures forall k :: i <= k < j ==> CheckOperation(d, ops[k]).1.None?
    ensures CheckOperations(d, ops, i).1
      == Some(Wrap("invalid operation at index " + IntToDecimal(j), CheckOperation(d, ops[j]).1))
    ensures |CheckOperations(d, ops, i).0| == |ops|
    ensures CheckOperations(d, ops, i).0[j] == AfterCheck(d, ops[j])
    ensures CheckOperations(d, ops, i).0[j + 1..] == ops[j + 1..]
    decreases |ops| - i
  {
    CheckOperationsFrame(d, ops, i);
    var (op, err) := CheckOperation(d, ops[i]);
    var ops2 := if ops[i].parameters.Some? then ops[i := op] else ops;
    if err.Some? {
      j := i;
      assert ops2[i + 1..] == ops[i + 1..];
    } else {
      j := CheckOperationsFailure(d, ops2, i + 1);
      assert forall k :: i < k < |ops| ==> ops2[k] == ops[k];
      assert ops2[j + 1..] == ops[j + 1..];
    }
  }

  /** Upload validation passes exactly when the file is present, within
      the size limit, of one of the five content types, with one of the
      five extensions, and every operation passes. The file checks come
      first: a failing one leaves the operations unvalidated. */
  lemma UploadOutcome(d: Defaults, image: Option<FileHeader>, ops: seq<OperationRequest>)
    ensures CheckUpload(d, image, ops).1.None? <==>
      image.Some? && image.value.size <= d.maxUploadSize
      && image.value.contentType in ContentTypes && ValidExtension(image.value.filename)
      && forall k :: 0 <= k < |ops| ==> CheckOperation(d, ops[k]).1.None?
    ensures image.None? ==> CheckUpload(d, image, ops) == (ops, Some(Leaf("image file is required")))
  {
    if image.Some? && image.value.size <= d.maxUploadSize
       && image.value.contentType in ContentTypes && ValidExtension(image.value.filename) {
      CheckOperationsPass(d, ops, 0);
    }
  }

  /** Validation keeps the number of operations, and a failing file check
      leaves them as they were. */
  lemma UploadKeepsOperations(d: Defaults, image: Option<FileHeader>, ops: seq<OperationRequest>)
    ensures |CheckUpload(d, image, ops).0| == |ops|
    ensures (image.None? || image.value.size > d.maxUploadSize
              || image.value.contentType !in ContentTypes || !ValidExtension(image.value.filename))
            ==> CheckUpload(d, image, ops).0 == ops
  {
    CheckOperationsFrame(d, ops, 0);
  }

  // ---------------------------------------------------------------------
  // The request objects
  // ---------------------------------------------------------------------

  /** An `OperationRequest` whose validators write into its parameters. */
  class OperationForm {
    const kind: string
    var parameters: Option<Params>

    constructor (op: OperationRequest)
      ensures Request() == op
    {
      kind := op.kind;
      parameters := op.parameters;
    }

    function Request(): OperationRequest
      reads this
    {
      OperationRequest(kind, parameters)
    }

    method Validate(d: Defaults) returns (err: Option<Error>)
      modifies this
      ensures (Request(), err) == CheckOperation(d, old(Request()))
    {
      if kind == "" {
        return Some(Leaf("operation type is required"));
      }
      if kind !in RequestKinds {
        return Some(Leaf("invalid operation type: " + kind));
      }
      if kind == OpResize {
        err := ValidateResizeParams();
      } else if kind == OpThumbnail {
        err := ValidateThumbnailParams(d);
      } else if kind == OpWatermark {
        err := ValidateWatermarkParams(d);
      } else {
        err := None;
      }
    }

    method ValidateResizeParams() returns (err: Option<Error>)
      ensures err == CheckResize(parameters)
    {
      if parameters.None? {
        return Some(Leaf("resize parameters are required"));
      }
      var m := parameters.value;
      var hasWidth := ParamWidth in m;
      var hasHeight := ParamHeight in m;
      if !hasWidth && !hasHeight {
        return Some(Leaf("at least one of width or height is required for resize"));
      }
      if hasWidth {
        var w := GetFloat64(m[ParamWidth]);
        if w <= 0.0 || w > MaxDimension {
          return Some(Leaf("width must be between 1 and 4096"));
        }
      }
      if hasHeight {
        var h := GetFloat64(m[ParamHeight]);
        if h <= 0.0 || h > MaxDimension {
          return Some(Leaf("height must be between 1 and 4096"));
        }
      }
      return None;
    }

    method ValidateThumbnailParams(d: Defaults) returns (err: Option<Error>)
      modifies this`parameters
      ensures (parameters, err) == CheckThumbnail(d, old(parameters))
    {
      if parameters.None? {
        parameters := Some(map[ParamSize := Int(d.thumbnailSize)]);
        return None;
      }
      if ParamSize in parameters.value {
        var s := GetFloat64(parameters.value[ParamSize]);
        if s <= 0.0 || s > MaxThumbnailSize {
          return Some(Leaf("thumbnail size must be between 1 and 1000"));
        }
      } else {
        parameters := Some(parameters.value[ParamSize := Int(d.thumbnailSize)]);
      }
      return None;
    }

    method ValidateWatermarkParams(d: Defaults) returns (err: Option<Error>)
      modifies this`parameters
      ensures (parameters, err) == CheckWatermark(d, old(parameters))
    {
      if parameters.None? {
        parameters := Some(map[]);
      }
      if ParamText !in parameters.value {
        parameters := Some(parameters.value[ParamText := Str(d.watermarkText)]);
      }
      if ParamOpacity !in parameters.value {
        parameters := Some(parameters.value[ParamOpacity := Float64(d.watermarkOpacity)]);
      }
      var m := parameters.value;
      var op := GetFloat64(m[ParamOpacity]);
      if op < 0.0 || op > 1.0 {
        return Some(Leaf("watermark opacity must be between 0 and 1"));
      }
      if ParamPosition in m {
        if !m[ParamPosition].Str? {
          return Some(Leaf("watermark position must be a string"));
        }
        if m[ParamPosition].s !in Positions {
          return Some(Leaf("invalid watermark position: " + m[ParamPosition].s));
        }
      }
      return None;
    }
  }

  /** `isValidImageExtension`, with its loop over the extensions. */
  method IsValidImageExtension(filename: string) returns (ok: bool)
    ensures ok == ValidExtension(filename)
  {
    var lower := ToLower(filename);
    for i := 0 to |Extensions|
      invariant forall k :: 0 <= k < i ==> !HasSuffix(lower, Extensions[k])
    {
      if HasSuffix(lower, Extensions[i]) {
        return true;
      }
    }
    return false;
  }

  /** An `UploadImageRequest`: the file part and the operations. */
  class UploadImageRequest {
    const image: Option<FileHeader>
    var operations: seq<OperationRequest>

    constructor (image: Option<FileHeader>, operations: seq<OperationRequest>)
      ensures this.image == image && this.operations == operations
    {
      this.image := image;
      this.operations := operations;
    }

    method Validate(d: Defaults) returns (err: Option<Error>)
      modifies this`operations
      ensures (operations, err) == CheckUpload(d, image, old(operations))
    {
      if image.None? {
        return Some(Leaf("image file is required"));
      }
      if image.value.size > d.maxUploadSize {
        return Some(Leaf("file size exceeds maximum allowed size of " + IntToDecimal(d.maxUploadSize) + " bytes"));
      }
      if image.value.contentType !in ContentTypes {
        return Some(Leaf("invalid content type: " + image.value.contentType
                         + ". Supported types: image/jpeg, image/png, image/gif, image/webp"));
      }
      var extOk := IsValidImageExtension(image.value.filename);
      if !extOk {
        return Some(Leaf("invalid file extension. Supported: .jpg, .jpeg, .png, .gif, .webp"));
      }
      var i := 0;
      while i < |operations|
        invariant 0 <= i <= |operations|
        invariant CheckUpload(d, image, old(operations)) == CheckOperations(d, operations, i)
        decreases |operations| - i
      {
        var form := new OperationForm(operations[i]);
        var e := form.Validate(d);
        if operations[i].parameters.Some? {
          operations := operations[i := form.Request()];
        }
        if e.Some? {
          return Some(Wrap("invalid operation at index " + IntToDecimal(i), e));
        }
        i := i + 1;
      }
      return None;
    }
  }
}
