/** The operation pipeline: a registry from kind to operation, image
    validation, and a run that validates and executes each requested
    operation in turn, feeding each output into the next stage. */
module Processor {
  import opened Common
  import opened Entity
  import opened Imaging
  import ResizeOp
  import ThumbnailOp
  import WatermarkOp

  /** An operation as the pipeline sees it: its kind, its parameter check
      and its transformation of encoded image data. */
  datatype Operation = Operation(
    kind: string,
    validate: Params -> Option<Error>,
    execute: (Bytes, Params) -> Result<Bytes>)

  function ResizeOperation(lib: Library, d: Defaults): Operation
  {
    Operation(OpResize, ResizeOp.Validate, (data, params) => ResizeOp.Execute(lib, d, data, params))
  }

  function ThumbnailOperation(lib: Library, d: Defaults): Operation
  {
    Operation(OpThumbnail, ThumbnailOp.Validate, (data, params) => ThumbnailOp.Execute(lib, d, data, params))
  }

  /** `fontLoaded` says whether the embedded font parsed when the operation
      was built. */
  function WatermarkOperation(lib: Library, d: Defaults, fontLoaded: bool): Operation
  {
    Operation(OpWatermark, WatermarkOp.Validate,
              (data, params) => WatermarkOp.Execute(lib, fontLoaded, d, data, params))
  }

  type Registry = map<string, Operation>

  /** What the registry holds after construction. */
  function StandardRegistry(lib: Library, d: Defaults, fontLoaded: bool): Registry
  {
    map[OpResize := ResizeOperation(lib, d), OpThumbnail := ThumbnailOperation(lib, d),
        OpWatermark := WatermarkOperation(lib, d, fontLoaded)]
  }

  /** Only resize, thumbnail and watermark are registered, each under its
      own kind and each behaving as its operation module says. */
  lemma StandardRegistryContents(lib: Library, d: Defaults, fontLoaded: bool)
    ensures var reg := StandardRegistry(lib, d, fontLoaded);
      reg.Keys == {OpResize, OpThumbnail, OpWatermark}
      && (forall k :: k in reg ==> reg[k].kind == k)
      && OpCrop !in reg && OpRotate !in reg && OpFlip !in reg && OpGrayscale !in reg
    ensures forall data, params ::
      var reg := StandardRegistry(lib, d, fontLoaded);
      reg[OpResize].validate(params) == ResizeOp.Validate(params)
      && reg[OpResize].execute(data, params) == ResizeOp.Execute(lib, d, data, params)
      && reg[OpThumbnail].validate(params) == ThumbnailOp.Validate(params)
      && reg[OpThumbnail].execute(data, params) == ThumbnailOp.Execute(lib, d, data, params)
      && reg[OpWatermark].validate(params) == WatermarkOp.Validate(params)
      && reg[OpWatermark].execute(data, params) == WatermarkOp.Execute(lib, fontLoaded, d, data, params)
  {
  }

  /** The formats `ValidateImage` accepts. */
  const InputFormats: set<string> := {FormatJPEG, FormatPNG, FormatGIF, FormatWebP}

  /** `ValidateImage`: empty data is refused; otherwise the format name the
      decoder reports must be jpeg, png, gif or webp. When the standard
      decoder fails, the WebP decoder is tried before giving up. */
  function ValidateImage(lib: Library, data: Bytes): (r: Result<string>)
    ensures r.Success? <==>
      |data| > 0
      && (if lib.decodeConfig(data).Success? then lib.decodeConfig(data).value in InputFormats
          else lib.webpDecodeConfig(data).None?)
    ensures r.Success? ==> r.value in InputFormats
    ensures |data| == 0 ==> r == Failure(Leaf("empty image data"))
    ensures r.Success? && lib.decodeConfig(data).Success? ==> r.value == lib.decodeConfig(data).value
  {
    if |data| == 0 then Failure(Leaf("empty image data"))
    else
      match lib.decodeConfig(data)
      case Failure(_) =>
        (match lib.webpDecodeConfig(data)
         case None => Success(FormatWebP)
         case Some(e) => Failure(Wrap("unsupported image format", Some(e))))
      case Success(name) =>
        if name == "jpeg" then Success(FormatJPEG)
        else if name == "png" then Success(FormatPNG)
        else if name == "gif" then Success(FormatGIF)
        else if name == "webp" then Success(FormatWebP)
        else Failure(Leaf("unsupported image format: " + name))
  }

  /** One call the pipeline makes of an operation: a validation with its
      verdict, or an execution with its input and outcome. */
  datatype Call =
    | ValidateCall(kind: string, params: Params, verdict: Option<Error>)
    | ExecuteCall(kind: string, input: Bytes, output: Result<Bytes>)

  /** The outcome of a run: its result and the calls it made. */
  datatype Run = Run(result: Result<map<string, Bytes>>, calls: seq<Call>)

  /** What one stage did: the data it produced or its error, and the calls
      it made. */
  datatype Step = Step(output: Result<Bytes>, calls: seq<Call>)

  /** One stage: the operation is looked up by kind, validated and, only if
      valid, executed on `current`. */
  function Stage(reg: Registry, current: Bytes, stage: OperationParams): Step
  {
    var kind := stage.kind;
    if kind !in reg then Step(Failure(Leaf("unknown operation type: " + kind)), [])
    else
      var params := Entries(stage.parameters);
      var verdict := reg[kind].validate(params);
      if verdict.Some? then
        Step(Failure(Wrap("invalid parameters for operation " + kind, verdict)),
             [ValidateCall(kind, params, verdict)])
      else
        var out := reg[kind].execute(current, params);
        var calls := [ValidateCall(kind, params, verdict), ExecuteCall(kind, current, out)];
        if out.Failure? then
          Step(Failure(Wrap("failed to execute operation " + kind, Some(out.error))), calls)
        else Step(out, calls)
  }

  /** The stages from `stages` on, with `current` the data the next stage
      receives and `results` what the earlier stages stored. The first
      failing stage ends the run and discards the results. */
  function Stages(reg: Registry, current: Bytes, stages: seq<OperationParams>,
                  results: map<string, Bytes>): Run
    decreases |stages|
  {
    if stages == [] then Run(Success(results), [])
    else
      var step := Stage(reg, current, stages[0]);
      if step.output.Failure? then Run(Failure(step.output.error), step.calls)
      else
        var rest := Stages(reg, step.output.value, stages[1..], results[stages[0].kind := step.output.value]);
        Run(rest.result, step.calls + rest.calls)
  }

  /** `ProcessImage` as a function of the registry, the library and the
      input: the image is validated first, then the stages run on it. */
  function Process(reg: Registry, lib: Library, data: Bytes, stages: seq<OperationParams>): Run
  {
    match ValidateImage(lib, data)
    case Failure(e) => Run(Failure(Wrap("invalid image", Some(e))), [])
    case Success(_) => Stages(reg, data, stages, map[])
  }

  class ImageProcessor {
    var operations: Registry
    const lib: Library

    /** `NewImageProcessor`: registers resize, thumbnail and watermark.
        `fontLoaded` says whether the watermark's font could be parsed. */
    constructor (lib: Library, d: Defaults, fontLoaded: bool)
      ensures operations == StandardRegistry(lib, d, fontLoaded)
      ensures this.lib == lib
    {
      this.lib := lib;
      operations := map[];
      new;
      RegisterOperation(ResizeOperation(lib, d));
      RegisterOperation(ThumbnailOperation(lib, d));
      RegisterOperation(WatermarkOperation(lib, d, fontLoaded));
    }

    /** `registerOperation`: a later registration of a kind replaces an
        earlier one. */
    method RegisterOperation(op: Operation)
      modifies this`operations
      ensures operations == old(operations)[op.kind := op]
    {
      operations := operations[op.kind := op];
    }

    /** `ProcessImage`. The ghost `calls` lists the operation calls made, in
        order. */
    method ProcessImage(data: Bytes, stages: seq<OperationParams>)
      returns (r: Result<map<string, Bytes>>, ghost calls: seq<Call>)
      ensures r == Process(operations, lib, data, stages).result
      ensures calls == Process(operations, lib, data, stages).calls
    {
      var format := ValidateImage(lib, data);
      if format.Failure? {
        return Failure(Wrap("invalid image", Some(format.error))), [];
      }
      var reg := operations;
      ghost var total := Stages(reg, data, stages, map[]);
      var results: map<string, Bytes> := map[];
      var current := data;
      calls := [];
      var i := 0;
      assert stages[0..] == stages;
      while i < |stages|
        invariant 0 <= i <= |stages|
        invariant total.result == Stages(reg, current, stages[i..], results).result
        invariant total.calls == calls + Stages(reg, current, stages[i..], results).calls
      {
        ghost var step := Stage(reg, current, stages[i]);
        ghost var before := calls;
        StagesCons(reg, current, stages[i..], results);
        assert stages[i..][0] == stages[i] && stages[i..][1..] == stages[i + 1..];
        var kind := stages[i].kind;
        if kind !in reg {
          return Failure(Leaf("unknown operation type: " + kind)), calls;
        }
        var operation := reg[kind];
        var params := Entries(stages[i].parameters);
        var verdict := operation.validate(params);
        calls := calls + [ValidateCall(kind, params, verdict)];
        if verdict.Some? {
          assert step.calls == [ValidateCall(kind, params, verdict)];
          return Failure(Wrap("invalid parameters for operation " + kind, verdict)), calls;
        }
        var processed := operation.execute(current, params);
        calls := calls + [ExecuteCall(kind, current, processed)];
        assert step.calls == [ValidateCall(kind, params, verdict), ExecuteCall(kind, current, processed)];
        Assoc(before, [ValidateCall(kind, params, verdict)], [ExecuteCall(kind, current, processed)]);
        assert calls == before + step.calls;
        if processed.Failure? {
          return Failure(Wrap("failed to execute operation " + kind, Some(processed.error))), calls;
        }
        Assoc(before, step.calls, Stages(reg, processed.value, stages[i + 1..], results[kind := processed.value]).calls);
        results := results[kind := processed.value];
        current := processed.value;
        i := i + 1;
      }
      return Success(results), calls;
    }
  }

  // ---------------------------------------------------------------------
  // Properties of a run
  // ---------------------------------------------------------------------

  /** Kinds of a list of stages. */
  function Kinds(stages: seq<OperationParams>): set<string>
  {
    set i | 0 <= i < |stages| :: stages[i].kind
  }

  lemma KindsCons(stages: seq<OperationParams>)
    requires stages != []
    ensures Kinds(stages) == {stages[0].kind} + Kinds(stages[1..])
  {
    forall k | k in Kinds(stages) ensures k in {stages[0].kind} + Kinds(stages[1..]) {
      var i :| 0 <= i < |stages| && stages[i].kind == k;
      if i > 0 { assert stages[1..][i - 1] == stages[i]; }
    }
    forall k | k in Kinds(stages[1..]) ensures k in Kinds(stages) {
      var i :| 0 <= i < |stages[1..]| && stages[1..][i].kind == k;
      assert stages[i + 1].kind == k;
    }
  }

  /** An image that fails validation stops the run before any operation is
      validated or executed. */
  lemma InvalidImageCallsNothing(reg: Registry, lib: Library, data: Bytes, stages: seq<OperationParams>)
    requires ValidateImage(lib, data).Failure?
    ensures Process(reg, lib, data, stages).result.Failure?
    ensures Process(reg, lib, data, stages).calls == []
  {
  }

  /** Empty data always fails, with the "invalid image" context. */
  lemma EmptyDataFails(reg: Registry, lib: Library, stages: seq<OperationParams>)
    ensures Process(reg, lib, [], stages)
      == Run(Failure(Wrap("invalid image", Some(Leaf("empty image data")))), [])
  {
  }

  /** A valid image with no operations gives an empty result map. */
  lemma NoStagesNoResults(reg: Registry, lib: Library, data: Bytes)
    requires ValidateImage(lib, data).Success?
    ensures Process(reg, lib, data, []) == Run(Success(map[]), [])
  {
  }

  /** The run succeeds only if every kind is registered. */
  lemma {:induction false} SuccessNeedsRegisteredKinds(reg: Registry, current: Bytes,
                                                       stages: seq<OperationParams>, results: map<string, Bytes>)
    requires Stages(reg, current, stages, results).result.Success?
    ensures forall i :: 0 <= i < |stages| ==> stages[i].kind in reg
    decreases |stages|
  {
    if stages != [] {
      var step := Stage(reg, current, stages[0]);
      SuccessNeedsRegisteredKinds(reg, step.output.value, stages[1..], results[stages[0].kind := step.output.value]);
      forall i | 0 <= i < |stages| ensures stages[i].kind in reg {
        if i > 0 { assert stages[i] == stages[1..][i - 1]; }
      }
    }
  }

  /** With the standard registry a request naming crop, rotate, flip,
      grayscale or any other unregistered kind never succeeds; when such a
      stage comes first on a valid image, the error names its kind and no
      operation is called. */
  lemma UnregisteredKindFails(lib: Library, d: Defaults, fontLoaded: bool, data: Bytes,
                              stages: seq<OperationParams>, j: nat)
    requires j < |stages| && stages[j].kind !in {OpResize, OpThumbnail, OpWatermark}
    ensures Process(StandardRegistry(lib, d, fontLoaded), lib, data, stages).result.Failure?
    ensures j == 0 && ValidateImage(lib, data).Success? ==>
      Process(StandardRegistry(lib, d, fontLoaded), lib, data, stages)
        == Run(Failure(Leaf("unknown operation type: " + stages[0].kind)), [])
  {
    var reg := StandardRegistry(lib, d, fontLoaded);
    if ValidateImage(lib, data).Success? && Process(reg, lib, data, stages).result.Success? {
      SuccessNeedsRegisteredKinds(reg, data, stages, map[]);
      assert false;
    }
  }

  /** Whether call `c` is the validation of `stage`. */
  predicate ValidatesStage(c: Call, stage: OperationParams)
  {
    c.ValidateCall? && c.kind == stage.kind && c.params == Entries(stage.parameters)
  }

  /** Whether call `c` is the execution of `stage` by the registered
      operation, after a validation that passed. */
  predicate ExecutesStage(reg: Registry, v: Call, c: Call, stage: OperationParams)
  {
    v.ValidateCall? && v.verdict.None?
    && c.ExecuteCall? && c.kind == stage.kind && stage.kind in reg
    && c.output == reg[stage.kind].execute(c.input, Entries(stage.parameters))
  }

  /** A run makes at most two calls per stage, and exactly two per stage
      when it succeeds. */
  lemma {:induction false} CallCount(reg: Registry, current: Bytes,
                                     stages: seq<OperationParams>, results: map<string, Bytes>)
    ensures |Stages(reg, current, stages, results).calls| <= 2 * |stages|
    ensures Stages(reg, current, stages, results).result.Success? ==>
      |Stages(reg, current, stages, results).calls| == 2 * |stages|
    decreases |stages|
  {
    if stages != [] {
      var step := Stage(reg, current, stages[0]);
      if step.output.Success? {
        CallCount(reg, step.output.value, stages[1..], results[stages[0].kind := step.output.value]);
      }
    }
  }

  /** What one stage calls: its validation first, then, only if that
      passed, its execution on `current`; a stage that succeeds made both
      calls, and its output is the execution's. */
  lemma StageFacts(reg: Registry, current: Bytes, stage: OperationParams)
    ensures var step := Stage(reg, current, stage);
      |step.calls| <= 2
      && (|step.calls| >= 1 ==> ValidatesStage(step.calls[0], stage))
      && (|step.calls| == 2 ==>
            ExecutesStage(reg, step.calls[0], step.calls[1], stage) && step.calls[1].input == current
            && step.calls[1].output.Success? == step.output.Success?)
      && (step.output.Success? ==> |step.calls| == 2 && step.calls[1].output == step.output)
  {
  }

  /** The run of a non-empty list of stages: its first stage, then, if
      that succeeded, the rest on the stage's output. */
  lemma StagesCons(reg: Registry, current: Bytes, stages: seq<OperationParams>, results: map<string, Bytes>)
    requires stages != []
    ensures var step := Stage(reg, current, stages[0]);
      var r := Stages(reg, current, stages, results);
      (step.output.Failure? ==> r == Run(Failure(step.output.error), step.calls))
      && (step.output.Success? ==>
            var rest := Stages(reg, step.output.value, stages[1..], results[stages[0].kind := step.output.value]);
            r == Run(rest.result, step.calls + rest.calls))
  {
  }

  /** Call 2t validates stage t and call 2t+1 executes it. */
  predicate Paired(reg: Registry, calls: seq<Call>, stages: seq<OperationParams>)
  {
    (forall t :: 0 <= t < |stages| && 2 * t < |calls| ==> ValidatesStage(calls[2 * t], stages[t]))
    && (forall t :: 0 <= t < |stages| && 2 * t + 1 < |calls| ==>
          ExecutesStage(reg, calls[2 * t], calls[2 * t + 1], stages[t]))
  }

  /** The calls of a failed first stage alone are paired. */
  lemma PairedFirst(reg: Registry, calls: seq<Call>, stages: seq<OperationParams>)
    requires stages != [] && |calls| <= 2
    requires |calls| >= 1 ==> ValidatesStage(calls[0], stages[0])
    requires |calls| == 2 ==> ExecutesStage(reg, calls[0], calls[1], stages[0])
    ensures Paired(reg, calls, stages)
  {
  }

  /** A pair for the first stage followed by paired calls for the rest. */
  lemma PairedCons(reg: Registry, first: seq<Call>, rest: seq<Call>, stages: seq<OperationParams>)
    requires stages != [] && |first| == 2
    requires ValidatesStage(first[0], stages[0]) && ExecutesStage(reg, first[0], first[1], stages[0])
    requires Paired(reg, rest, stages[1..])
    ensures Paired(reg, first + rest, stages)
  {
    var calls := first + rest;
    forall t | 0 < t < |stages| && 2 * t < |calls|
      ensures ValidatesStage(calls[2 * t], stages[t])
    {
      assert calls[2 * t] == rest[2 * (t - 1)];
      assert stages[t] == stages[1..][t - 1];
    }
    forall t | 0 < t < |stages| && 2 * t + 1 < |calls|
      ensures ExecutesStage(reg, calls[2 * t], calls[2 * t + 1], stages[t])
    {
      assert calls[2 * t] == rest[2 * (t - 1)];
      assert calls[2 * t + 1] == rest[2 * (t - 1) + 1];
      assert stages[t] == stages[1..][t - 1];
    }
  }

  /** The calls come in pairs: call 2t validates stage t, and call 2t+1,
      made only after that validation passed, executes it with the
      registered operation. */
  lemma {:induction false} CallOrder(reg: Registry, current: Bytes,
                                     stages: seq<OperationParams>, results: map<string, Bytes>)
    ensures Paired(reg, Stages(reg, current, stages, results).calls, stages)
    decreases |stages|
  {
    if stages != [] {
      var step := Stage(reg, current, stages[0]);
      StageFacts(reg, current, stages[0]);
      StagesCons(reg, current, stages, results);
      if step.output.Success? {
        var next := step.output.value;
        CallOrder(reg, next, stages[1..], results[stages[0].kind := next]);
        PairedCons(reg, step.calls, Stages(reg, next, stages[1..], results[stages[0].kind := next]).calls, stages);
      } else {
        PairedFirst(reg, step.calls, stages);
      }
    }
  }

  /** The executions are chained: the first receives the run's input, and
      each later one the output of the execution before it. */
  lemma {:induction false} CallChain(reg: Registry, current: Bytes,
                                     stages: seq<OperationParams>, results: map<string, Bytes>)
    ensures var calls := Stages(reg, current, stages, results).calls;
      (|calls| >= 2 ==> calls[1].ExecuteCall? && calls[1].input == current)
      && (forall t :: 0 < t && 2 * t + 1 < |calls| ==>
            calls[2 * t - 1].ExecuteCall? && calls[2 * t + 1].ExecuteCall?
            && calls[2 * t - 1].output == Success(calls[2 * t + 1].input))
    decreases |stages|
  {
    if stages != [] {
      var step := Stage(reg, current, stages[0]);
      StagesCons(reg, current, stages, results);
      StageFacts(reg, current, stages[0]);
      if step.output.Success? {
        var next := step.output.value;
        var rest := Stages(reg, next, stages[1..], results[stages[0].kind := next]).calls;
        CallChain(reg, next, stages[1..], results[stages[0].kind := next]);
        var calls := Stages(reg, current, stages, results).calls;
        assert calls == step.calls + rest && |step.calls| == 2;
        forall t | 0 < t && 2 * t + 1 < |calls|
          ensures calls[2 * t - 1].ExecuteCall? && calls[2 * t + 1].ExecuteCall?
          ensures calls[2 * t - 1].output == Success(calls[2 * t + 1].input)
        {
          assert calls[2 * t + 1] == rest[2 * (t - 1) + 1];
          if t == 1 {
            assert calls[1] == step.calls[1];
          } else {
            assert calls[2 * t - 1] == rest[2 * (t - 2) + 1];
          }
        }
      }
    }
  }

  /** The output of the last execution of kind `k` in `calls`, `dflt` when
      there is none. */
  function LastOutputOf(calls: seq<Call>, k: string, dflt: Bytes): Bytes
  {
    if calls == [] then dflt
    else
      var c := calls[|calls| - 1];
      if c.ExecuteCall? && c.kind == k && c.output.Success? then c.output.value
      else LastOutputOf(calls[..|calls| - 1], k, dflt)
  }

  /** Scanning a concatenation from the end: a match in the second part
      wins, otherwise the first part decides. */
  lemma {:induction false} LastOutputAppend(a: seq<Call>, b: seq<Call>, k: string, dflt: Bytes)
    ensures LastOutputOf(a + b, k, dflt) == LastOutputOf(b, k, LastOutputOf(a, k, dflt))
    decreases |b|
  {
    if b == [] {
      assert a + b == a;
    } else {
      assert (a + b)[..|a + b| - 1] == a + b[..|b| - 1];
      assert (a + b)[|a + b| - 1] == b[|b| - 1];
      LastOutputAppend(a, b[..|b| - 1], k, dflt);
    }
  }

  /** A successful run stores one entry per kind named in the request and
      no other, and a kind that occurs several times keeps the output of
      its last stage. */
  lemma {:induction false} ResultKeys(reg: Registry, current: Bytes,
                                      stages: seq<OperationParams>, results: map<string, Bytes>)
    requires Stages(reg, current, stages, results).result.Success?
    ensures var m := Stages(reg, current, stages, results).result.value;
      m.Keys == results.Keys + Kinds(stages)
      && forall k :: k in m ==>
           m[k] == LastOutputOf(Stages(reg, current, stages, results).calls, k,
                                if k in results then results[k] else [])
    decreases |stages|
  {
    if stages != [] {
      var kind := stages[0].kind;
      var step := Stage(reg, current, stages[0]);
      StagesCons(reg, current, stages, results);
      StageFacts(reg, current, stages[0]);
      var next := step.output.value;
      var results' := results[kind := next];
      var rest := Stages(reg, next, stages[1..], results');
      ResultKeys(reg, next, stages[1..], results');
      KindsCons(stages);
      forall k | k in rest.result.value
        ensures rest.result.value[k] == LastOutputOf(step.calls + rest.calls, k, if k in results then results[k] else [])
      {
        var dflt := if k in results then results[k] else [];
        LastOutputAppend(step.calls, rest.calls, k, dflt);
        LastOutputPair(step.calls, kind, next, k, dflt);
      }
    }
  }

  /** A validation followed by a successful execution of `kind`. */
  lemma LastOutputPair(calls: seq<Call>, kind: string, out: Bytes, k: string, dflt: Bytes)
    requires |calls| == 2 && calls[0].ValidateCall?
    requires calls[1].ExecuteCall? && calls[1].kind == kind && calls[1].output == Success(out)
    ensures LastOutputOf(calls, k, dflt) == if k == kind then out else dflt
  {
    assert calls[..1] == [calls[0]];
    assert calls[..1][..0] == [];
    assert LastOutputOf(calls[..1], k, dflt) == dflt;
  }

  /** The number of distinct kinds is at most the number of stages. */
  lemma {:induction false} KindsBound(stages: seq<OperationParams>)
    ensures |Kinds(stages)| <= |stages|
  {
    if stages != [] {
      KindsCons(stages);
      KindsBound(stages[1..]);
    }
  }

  /** `ProcessImage` on success: the result keys are exactly the requested
      kinds, at most one per stage, and each holds the output of the last
      stage of its kind. */
  lemma ProcessResult(reg: Registry, lib: Library, data: Bytes, stages: seq<OperationParams>)
    requires Process(reg, lib, data, stages).result.Success?
    ensures var run := Process(reg, lib, data, stages);
      run.result.value.Keys == Kinds(stages)
      && |run.result.value| <= |stages|
      && forall k :: k in run.result.value ==> run.result.value[k] == LastOutputOf(run.calls, k, [])
  {
    ResultKeys(reg, data, stages, map[]);
    KindsBound(stages);
    assert |Process(reg, lib, data, stages).result.value.Keys| <= |stages|;
  }
}
