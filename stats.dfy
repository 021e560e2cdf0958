/** The statistics service: ordered calls into the statistics repository,
    with the error wrapping and short-circuits of each `Record*` method and
    the fallbacks of the readers.

    The repository is a collaborator: every call is appended to a log of
    `RepoCall`s, and its answer is a function of the call and of how many
    calls came before. */
module Stats {
  import opened Common
  import opened Entity

  /** The time argument of `IncrementImageProcessed`. `RecordOperationsProcessed`
      passes the floating-point mean of a map of times, which this model
      records as the map itself rather than computing the float. */
  datatype Duration = Ms(ms: real) | MeanOf(times: map<string, real>)

  datatype RepoCall =
    | IncrementImageUploaded(size: int)
    | IncrementImageProcessed(time: Duration)
    | IncrementImageFailed
    | UpdateOperationStatistics(op: string, success: bool, timeMs: real)
    | ReadStatistics
    | ReadMostUsedOperation
    | ReadOperationStatistics

  /** The repository's answers to the n-th call. */
  datatype StatsEnv = StatsEnv(
    write: (nat, RepoCall) -> Option<Error>,
    statistics: nat -> Result<ProcessingStatistics>,
    mostUsed: nat -> Result<string>,
    operationStats: nat -> Result<seq<OperationStat>>)

  /** The general statistics with the per-kind list and the success rate. */
  datatype DetailedStatistics = DetailedStatistics(
    general: ProcessingStatistics,
    operations: seq<OperationStat>,
    successRate: real)

  type Calls = seq<RepoCall>

  /** One mutating repository call. */
  function Mutate(env: StatsEnv, calls: Calls, c: RepoCall): (Calls, Option<Error>)
  {
    (calls + [c], env.write(|calls|, c))
  }

  function WrapError(context: string, err: Option<Error>): Option<Error>
  {
    if err.Some? then Some(Wrap(context, err)) else None
  }

  /** `RecordImageUploaded`. */
  function RecordUploaded(env: StatsEnv, calls: Calls, size: int): (Calls, Option<Error>)
  {
    var (c1, err) := Mutate(env, calls, IncrementImageUploaded(size));
    (c1, WrapError("failed to record image uploaded", err))
  }

  /** `RecordImageProcessed`: the general counter first; the per-kind
      update only when that succeeded. */
  function RecordProcessed(env: StatsEnv, calls: Calls, op: string, t: real): (Calls, Option<Error>)
  {
    var (c1, err) := Mutate(env, calls, IncrementImageProcessed(Ms(t)));
    if err.Some? then (c1, Some(Wrap("failed to record image processed", err)))
    else
      var (c2, err2) := Mutate(env, c1, UpdateOperationStatistics(op, true, t));
      (c2, WrapError("failed to update operation statistics", err2))
  }

  /** `RecordImageFailed`: the failure counter first; the per-kind update
      only when that succeeded. */
  function RecordFailed(env: StatsEnv, calls: Calls, op: string, t: real): (Calls, Option<Error>)
  {
    var (c1, err) := Mutate(env, calls, IncrementImageFailed);
    if err.Some? then (c1, Some(Wrap("failed to record image failed", err)))
    else
      var (c2, err2) := Mutate(env, c1, UpdateOperationStatistics(op, false, t));
      (c2, WrapError("failed to update operation statistics", err2))
  }

  /** The time recorded for a kind: its entry in the map, or 0. */
  function TimeOf(times: map<string, real>, op: string): real
  {
    if op in times then times[op] else 0.0
  }

  /** The per-kind updates `RecordOperationsProcessed` makes for `ops`. */
  function OperationUpdates(ops: seq<string>, times: map<string, real>): (r: Calls)
    ensures |r| == |ops|
    ensures forall k :: 0 <= k < |ops| ==> r[k] == UpdateOperationStatistics(ops[k], true, TimeOf(times, ops[k]))
  {
    if ops == [] then []
    else [UpdateOperationStatistics(ops[0], true, TimeOf(times, ops[0]))] + OperationUpdates(ops[1..], times)
  }

  /** The update loop from index `i`; a failed update is only logged. */
  function UpdateLoop(env: StatsEnv, calls: Calls, ops: seq<string>, times: map<string, real>, i: nat): Calls
    decreases |ops| - i
  {
    if i >= |ops| then calls
    else UpdateLoop(env, Mutate(env, calls, UpdateOperationStatistics(ops[i], true, TimeOf(times, ops[i]))).0,
                    ops, times, i + 1)
  }

  /** `RecordOperationsProcessed`. */
  function RecordOperations(env: StatsEnv, calls: Calls, ops: seq<string>, times: map<string, real>)
    : (Calls, Option<Error>)
  {
    var c1 := UpdateLoop(env, calls, ops, times, 0);
    var (c2, err) := Mutate(env, c1, IncrementImageProcessed(MeanOf(times)));
    (c2, WrapError("failed to increment image processed", err))
  }

  /** `GetStatistics`: a failed read is an error; a failed most-used
      lookup is replaced by "unknown". */
  function Statistics(env: StatsEnv, calls: Calls): (Calls, Result<ProcessingStatistics>)
  {
    var stats := env.statistics(|calls|);
    var c1 := calls + [ReadStatistics];
    if stats.Failure? then (c1, Failure(Wrap("failed to get statistics", Some(stats.error))))
    else
      var most := env.mostUsed(|c1|);
      var c2 := c1 + [ReadMostUsedOperation];
      var name := if most.Success? then most.value else "unknown";
      (c2, Success(stats.value.(mostUsedOperationType := name)))
  }

  /** `GetOperationStatistics`: the repository's list, copied. */
  function OperationStatistics(env: StatsEnv, calls: Calls): (Calls, Result<seq<OperationStat>>)
  {
    var ops := env.operationStats(|calls|);
    var c1 := calls + [ReadOperationStatistics];
    if ops.Failure? then (c1, Failure(Wrap("failed to get operation statistics", Some(ops.error))))
    else (c1, Success(ops.value))
  }

  /** The success percentage, left at 0 when nothing was processed. */
  function SuccessRate(general: ProcessingStatistics): real
  {
    if general.totalImagesProcessed > 0 then
      (general.totalImagesProcessed - general.failedProcessingAttempts) as real
        / general.totalImagesProcessed as real * 100.0
    else 0.0
  }

  /** `GetDetailedStatistics`: both readers in turn, their errors passed on
      as they are. */
  function Detailed(env: StatsEnv, calls: Calls): (Calls, Result<DetailedStatistics>)
  {
    var (c1, general) := Statistics(env, calls);
    if general.Failure? then (c1, Failure(general.error))
    else
      var (c2, ops) := OperationStatistics(env, c1);
      if ops.Failure? then (c2, Failure(ops.error))
      else (c2, Success(DetailedStatistics(general.value, ops.value, SuccessRate(general.value))))
  }

  // ---------------------------------------------------------------------
  // Properties
  // ---------------------------------------------------------------------

  /** An upload is one counter call; its error comes back wrapped. */
  lemma UploadedCalls(env: StatsEnv, calls: Calls, size: int)
    ensures var (c, err) := RecordUploaded(env, calls, size);
      c == calls + [IncrementImageUploaded(size)]
      && (err.None? <==> env.write(|calls|, IncrementImageUploaded(size)).None?)
      && (err.Some? ==> err.value.context == "failed to record image uploaded")
  {
  }

  /** A processed image is recorded by the general counter and then the
      per-kind update with success; a failed counter call skips the update.
      The result is nil exactly when every call made succeeded. */
  lemma ProcessedCalls(env: StatsEnv, calls: Calls, op: string, t: real)
    ensures var (c, err) := RecordProcessed(env, calls, op, t);
      var first := env.write(|calls|, IncrementImageProcessed(Ms(t)));
      var second := env.write(|calls| + 1, UpdateOperationStatistics(op, true, t));
      (first.Some? ==>
         c == calls + [IncrementImageProcessed(Ms(t))]
         && err == Some(Wrap("failed to record image processed", first)))
      && (first.None? ==>
         c == calls + [IncrementImageProcessed(Ms(t)), UpdateOperationStatistics(op, true, t)]
         && (err.None? <==> second.None?))
  {
  }

  /** A failed image is recorded by the failure counter and then the
      per-kind update without success, with the same short-circuit. */
  lemma FailedCalls(env: StatsEnv, calls: Calls, op: string, t: real)
    ensures var (c, err) := RecordFailed(env, calls, op, t);
      var first := env.write(|calls|, IncrementImageFailed);
      var second := env.write(|calls| + 1, UpdateOperationStatistics(op, false, t));
      (first.Some? ==>
         c == calls + [IncrementImageFailed]
         && err == Some(Wrap("failed to record image failed", first)))
      && (first.None? ==>
         c == calls + [IncrementImageFailed, UpdateOperationStatistics(op, false, t)]
         && (err.None? <==> second.None?))
  {
  }

  /** The update loop makes one call per listed kind, in order, whatever
      each call answers. */
  lemma {:induction false} UpdateLoopCalls(env: StatsEnv, calls: Calls, ops: seq<string>, times: map<string, real>, i: nat)
    requires i <= |ops|
    ensures UpdateLoop(env, calls, ops, times, i) == calls + OperationUpdates(ops[i..], times)
    decreases |ops| - i
  {
    if i < |ops| {
      var c := UpdateOperationStatistics(ops[i], true, TimeOf(times, ops[i]));
      UpdateLoopCalls(env, calls + [c], ops, times, i + 1);
      assert OperationUpdates(ops[i..], times) == [c] + OperationUpdates(ops[i + 1..], times);
    } else {
      assert OperationUpdates(ops[i..], times) == [];
    }
  }

  /** `RecordOperationsProcessed` updates every listed kind in order with
      success, taking 0 for a kind without a time, then makes exactly one
      counter call; its result depends on that last call alone. */
  lemma OperationsCalls(env: StatsEnv, calls: Calls, ops: seq<string>, times: map<string, real>)
    ensures var (c, err) := RecordOperations(env, calls, ops, times);
      var last := IncrementImageProcessed(MeanOf(times));
      c == calls + OperationUpdates(ops, times) + [last]
      && (err.None? <==> env.write(|calls| + |ops|, last).None?)
  {
    UpdateLoopCalls(env, calls, ops, times, 0);
    assert ops[0..] == ops;
  }

  /** `GetStatistics` fails only when the statistics read fails; a failed
      most-used lookup gives "unknown", and every other field is the
      repository's. */
  lemma StatisticsOutcome(env: StatsEnv, calls: Calls)
    ensures var (c, r) := Statistics(env, calls);
      var read := env.statistics(|calls|);
      var most := env.mostUsed(|calls| + 1);
      (r.Failure? <==> read.Failure?)
      && (read.Failure? ==> c == calls + [ReadStatistics])
      && (read.Success? ==>
            c == calls + [ReadStatistics, ReadMostUsedOperation]
            && r.value == read.value.(mostUsedOperationType := if most.Success? then most.value else "unknown"))
  {
  }

  /** The success rate is 0 when nothing was processed, and a percentage
      whenever the failures do not exceed the processed images. */
  lemma SuccessRateBounds(general: ProcessingStatistics)
    ensures general.totalImagesProcessed <= 0 ==> SuccessRate(general) == 0.0
    ensures 0 <= general.failedProcessingAttempts <= general.totalImagesProcessed ==>
      0.0 <= SuccessRate(general) <= 100.0
    ensures 0 < general.totalImagesProcessed && general.failedProcessingAttempts == 0 ==>
      SuccessRate(general) == 100.0
  {
    if 0 <= general.failedProcessingAttempts <= general.totalImagesProcessed && general.totalImagesProcessed > 0 {
      var p := general.totalImagesProcessed as real;
      var ok := (general.totalImagesProcessed - general.failedProcessingAttempts) as real;
      assert 0.0 <= ok <= p;
      assert ok / p <= 1.0;
    }
  }

  /** The detailed statistics need both reads; either failure is returned
      as it is, and the operation list is not read after a failed general
      read. */
  lemma DetailedOutcome(env: StatsEnv, calls: Calls)
    ensures var (c, r) := Detailed(env, calls);
      var (c1, g) := Statistics(env, calls);
      var (c2, o) := OperationStatistics(env, c1);
      (g.Failure? ==> c == c1 && r == Failure(g.error))
      && (g.Success? && o.Failure? ==> c == c2 && r == Failure(o.error))
      && (g.Success? && o.Success? ==>
            c == c2 && r.Success? && r.value.general == g.value && r.value.operations == o.value
            && r.value.successRate == SuccessRate(g.value))
  {
  }

  // ---------------------------------------------------------------------
  // The service
  // ---------------------------------------------------------------------

  class StatsService {
    const env: StatsEnv
    /** The repository calls made, in order. */
    var calls: Calls

    constructor (env: StatsEnv)
      ensures this.env == env && calls == []
    {
      this.env := env;
      calls := [];
    }

    method Call(c: RepoCall) returns (err: Option<Error>)
      modifies this`calls
      ensures (calls, err) == Mutate(env, old(calls), c)
    {
      err := env.write(|calls|, c);
      calls := calls + [c];
    }

    method RecordImageUploaded(size: int) returns (err: Option<Error>)
      modifies this`calls
      ensures (calls, err) == RecordUploaded(env, old(calls), size)
    {
      err := Call(IncrementImageUploaded(size));
      if err.Some? {
        return Some(Wrap("failed to record image uploaded", err));
      }
    }

    method RecordImageProcessed(op: string, t: real) returns (err: Option<Error>)
      modifies this`calls
      ensures (calls, err) == RecordProcessed(env, old(calls), op, t)
    {
      err := Call(IncrementImageProcessed(Ms(t)));
      if err.Some? {
        return Some(Wrap("failed to record image processed", err));
      }
      err := Call(UpdateOperationStatistics(op, true, t));
      if err.Some? {
        return Some(Wrap("failed to update operation statistics", err));
      }
    }

    method RecordImageFailed(op: string, t: real) returns (err: Option<Error>)
      modifies this`calls
      ensures (calls, err) == RecordFailed(env, old(calls), op, t)
    {
      err := Call(IncrementImageFailed);
      if err.Some? {
        return Some(Wrap("failed to record image failed", err));
      }
      err := Call(UpdateOperationStatistics(op, false, t));
      if err.Some? {
        return Some(Wrap("failed to update operation statistics", err));
      }
    }

    method RecordOperationsProcessed(ops: seq<string>, times: map<string, real>) returns (err: Option<Error>)
      modifies this`calls
      ensures (calls, err) == RecordOperations(env, old(calls), ops, times)
    {
      for i := 0 to |ops|
        invariant UpdateLoop(env, old(calls), ops, times, 0) == UpdateLoop(env, calls, ops, times, i)
      {
        var t := if ops[i] in times then times[ops[i]] else 0.0;
        var _ := Call(UpdateOperationStatistics(ops[i], true, t));
      }
      err := Call(IncrementImageProcessed(MeanOf(times)));
      if err.Some? {
        return Some(Wrap("failed to increment image processed", err));
      }
    }

    method GetStatistics() returns (r: Result<ProcessingStatistics>)
      modifies this`calls
      ensures (calls, r) == Statistics(env, old(calls))
    {
      var stats := env.statistics(|calls|);
      calls := calls + [ReadStatistics];
      if stats.Failure? {
        return Failure(Wrap("failed to get statistics", Some(stats.error)));
      }
      var most := env.mostUsed(|calls|);
      calls := calls + [ReadMostUsedOperation];
      var name := "unknown";
      if most.Success? {
        name := most.value;
      }
      return Success(stats.value.(mostUsedOperationType := name));
    }

    /** The copy loop rebuilds each of the five fields of every entry. */
    method GetOperationStatistics() returns (r: Result<seq<OperationStat>>)
      modifies this`calls
      ensures (calls, r) == OperationStatistics(env, old(calls))
    {
      var ops := env.operationStats(|calls|);
      calls := calls + [ReadOperationStatistics];
      if ops.Failure? {
        return Failure(Wrap("failed to get operation statistics", Some(ops.error)));
      }
      var result: seq<OperationStat> := [];
      for i := 0 to |ops.value|
        invariant result == ops.value[..i]
      {
        var stat := ops.value[i];
        result := result + [OperationStat(stat.operationType, stat.totalCount, stat.successCount,
                                          stat.failureCount, stat.averageProcessingTimeMs)];
      }
      assert ops.value[..|ops.value|] == ops.value;
      return Success(result);
    }

    method GetDetailedStatistics() returns (r: Result<DetailedStatistics>)
      modifies this`calls
      ensures (calls, r) == Detailed(env, old(calls))
    {
      var general := GetStatistics();
      if general.Failure? {
        return Failure(general.error);
      }
      var ops := GetOperationStatistics();
      if ops.Failure? {
        return Failure(ops.error);
      }
      var rate := 0.0;
      if general.value.totalImagesProcessed > 0 {
        rate := (general.value.totalImagesProcessed - general.value.failedProcessingAttempts) as real
                  / general.value.totalImagesProcessed as real * 100.0;
      }
      return Success(DetailedStatistics(general.value, ops.value, rate));
    }
  }
}
