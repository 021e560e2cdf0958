/** The worker's task orchestration: download the original, run the pipeline,
    upload and record each stage, then update the job, the image and the
    statistics; and a bounded retry loop around it with linear backoff.

    The object store, the repositories, the statistics service, the uuid
    generator, the clock and Go's map iteration order are collaborators.
    Their answers come from an `Env` of functions indexed by how many
    calls of that kind came before; their effects are recorded in a
    `Backend` value. */
module Worker {
  import opened Common
  import opened Entity
  import opened Strconv
  import Processor
  import Imaging

  /** A successful object-store put. */
  datatype Put = Put(path: string, data: Bytes, contentType: string)

  /** A call of the statistics service. */
  datatype StatCall = ImageFailed(op: string, ms: int) | ImageProcessed(op: string, ms: int)

  datatype JobStatus = JobStatus(status: string, message: string)

  /** What the collaborators answer. `order(n, keys)` is the order the n-th
      map iteration visits `keys` in. */
  datatype Env = Env(
    download: (nat, string) -> Result<Bytes>,
    upload: (nat, Put) -> Option<Error>,
    repo: nat -> Option<Error>,
    uuid: nat -> string,
    elapsedMs: nat -> int,
    order: (nat, set<string>) -> seq<string>,
    showParams: Option<Params> -> string)

  /** Map iteration visits every key exactly once. */
  ghost predicate ValidEnv(env: Env)
  {
    forall n: nat, keys: set<string> {:trigger env.order(n, keys)} :: IsEnumeration(env.order(n, keys), keys)
  }

  /** The recorded world: call counters (which answer comes next), the
      repositories' job and image status, the puts that succeeded, the
      processed-image rows, the statistics calls and the sleeps. */
  datatype Backend = Backend(
    downloads: nat,
    pipelineRuns: nat,
    uploads: nat,
    repoCalls: nat,
    uuids: nat,
    iterations: nat,
    timings: nat,
    jobs: map<string, JobStatus>,
    images: map<string, ImageStatus>,
    puts: seq<Put>,
    rows: seq<ProcessedImage>,
    stats: seq<StatCall>,
    sleeps: seq<int>)

  // ---------------------------------------------------------------------
  // One collaborator call each
  // ---------------------------------------------------------------------

  function Download(env: Env, b: Backend, path: string): (Backend, Result<Bytes>)
  {
    (b.(downloads := b.downloads + 1), env.download(b.downloads, path))
  }

  function Upload(env: Env, b: Backend, p: Put): (Backend, Option<Error>)
  {
    var e := env.upload(b.uploads, p);
    (b.(uploads := b.uploads + 1, puts := if e.None? then b.puts + [p] else b.puts), e)
  }

  function UpdateJob(env: Env, b: Backend, id: string, status: string, msg: string): (Backend, Option<Error>)
  {
    var e := env.repo(b.repoCalls);
    (b.(repoCalls := b.repoCalls + 1,
        jobs := if e.None? then b.jobs[id := JobStatus(status, msg)] else b.jobs), e)
  }

  function UpdateImage(env: Env, b: Backend, id: string, status: ImageStatus): (Backend, Option<Error>)
  {
    var e := env.repo(b.repoCalls);
    (b.(repoCalls := b.repoCalls + 1,
        images := if e.None? then b.images[id := status] else b.images), e)
  }

  function CreateRow(env: Env, b: Backend, row: ProcessedImage): (Backend, Option<Error>)
  {
    var e := env.repo(b.repoCalls);
    (b.(repoCalls := b.repoCalls + 1, rows := if e.None? then b.rows + [row] else b.rows), e)
  }

  function NewUuid(env: Env, b: Backend): (Backend, string)
  {
    (b.(uuids := b.uuids + 1), env.uuid(b.uuids))
  }

  function Elapsed(env: Env, b: Backend): (Backend, int)
  {
    (b.(timings := b.timings + 1), env.elapsedMs(b.timings))
  }

  function IterationOrder(env: Env, b: Backend, keys: set<string>): (Backend, seq<string>)
  {
    (b.(iterations := b.iterations + 1), env.order(b.iterations, keys))
  }

  // ---------------------------------------------------------------------
  // ProcessTask as functions
  // ---------------------------------------------------------------------

  /** `getOperationParams`: the parameters of the first operation of the
      kind, formatted with `%v`, or "" when there is none. */
  function GetOperationParams(env: Env, ops: seq<OperationParams>, kind: string): string
  {
    if ops == [] then ""
    else if ops[0].kind == kind then env.showParams(ops[0].parameters)
    else GetOperationParams(env, ops[1..], kind)
  }

  /** The search returns the parameters of the first operation of the
      kind. */
  lemma {:induction false} GetOperationParamsFirst(env: Env, ops: seq<OperationParams>, kind: string, j: nat)
    requires j < |ops| && ops[j].kind == kind
    requires forall i :: 0 <= i < j ==> ops[i].kind != kind
    ensures GetOperationParams(env, ops, kind) == env.showParams(ops[j].parameters)
    decreases j
  {
    if j > 0 {
      assert ops[0].kind != kind;
      assert ops[1..][j - 1] == ops[j];
      forall i | 0 <= i < j - 1
        ensures ops[1..][i].kind != kind
      {
        assert ops[1..][i] == ops[i + 1];
      }
      GetOperationParamsFirst(env, ops[1..], kind, j - 1);
    }
  }

  /** Without an operation of the kind the search gives "". */
  lemma {:induction false} GetOperationParamsMissing(env: Env, ops: seq<OperationParams>, kind: string)
    requires forall i :: 0 <= i < |ops| ==> ops[i].kind != kind
    ensures GetOperationParams(env, ops, kind) == ""
  {
    if ops != [] {
      assert ops[0].kind != kind;
      forall i | 0 <= i < |ops[1..]|
        ensures ops[1..][i].kind != kind
      {
        assert ops[1..][i] == ops[i + 1];
      }
      GetOperationParamsMissing(env, ops[1..], kind);
    }
  }

  /** Where a stage's output is stored. */
  function StagePath(imageId: string, op: string, id: string): string
  {
    "processed/" + imageId + "/" + op + "/" + id + ".jpg"
  }

  /** The statistics calls made for a failed task: `RecordImageFailed` with
      time 0 for each requested operation, in order. */
  function FailedEvents(ops: seq<OperationParams>): (r: seq<StatCall>)
    ensures |r| == |ops|
    ensures forall i :: 0 <= i < |ops| ==> r[i] == ImageFailed(ops[i].kind, 0)
  {
    if ops == [] then [] else FailedEvents(ops[..|ops| - 1]) + [ImageFailed(ops[|ops| - 1].kind, 0)]
  }

  /** The failure side effects: the job is marked failed with the message,
      the image failed, and a failure with time 0 recorded per requested
      operation. Errors of these calls are only logged. */
  function FailEffects(env: Env, b: Backend, task: ProcessingTask, msg: string): Backend
  {
    var (b1, _) := UpdateJob(env, b, task.id, "failed", msg);
    var (b2, _) := UpdateImage(env, b1, task.imageId, Failed);
    b2.(stats := b2.stats + FailedEvents(task.operations))
  }

  /** A failed download or pipeline run: the side effects, and the cause
      wrapped under the context. */
  function FailTask(env: Env, b: Backend, task: ProcessingTask, cause: Error, context: string): (Backend, Option<Error>)
  {
    (FailEffects(env, b, task, Text(cause)), Some(Wrap(context, Some(cause))))
  }

  /** The failure branch as the source writes it: the error variable was
      reassigned by the status updates, so what gets wrapped is the result
      of the image-status update (the second repository call), not the
      cause. */
  function FailTaskAsWritten(env: Env, b: Backend, task: ProcessingTask, cause: Error, context: string): (Backend, Option<Error>)
  {
    (FailEffects(env, b, task, Text(cause)), Some(Wrap(context, env.repo(b.repoCalls + 1))))
  }

  /** When the image-status update succeeds, the error returned as written
      wraps nil: its text ends in `%!w(<nil>)` and the cause is lost, while
      the side effects are those of the corrected branch. */
  lemma FailTaskLosesCause(env: Env, b: Backend, task: ProcessingTask, cause: Error, context: string)
    requires env.repo(b.repoCalls + 1).None?
    ensures FailTaskAsWritten(env, b, task, cause, context).0 == FailTask(env, b, task, cause, context).0
    ensures Text(FailTaskAsWritten(env, b, task, cause, context).1.value) == context + ": %!w(<nil>)"
    ensures Text(FailTask(env, b, task, cause, context).1.value) == context + ": " + Text(cause)
  {
  }

  /** One stage of the store loop: upload under a fresh path, then write
      the row under a second fresh id. Either failure skips the stage, and
      only a stored stage has a processing time. */
  function StoreStage(env: Env, b: Backend, task: ProcessingTask, op: string, data: Bytes): (Backend, Option<int>)
  {
    var (b1, id) := NewUuid(env, b);
    var path := StagePath(task.imageId, op, id);
    var (b2, upErr) := Upload(env, b1, Put(path, data, "image/jpeg"));
    if upErr.Some? then (b2, None)
    else
      var (b3, rowId) := NewUuid(env, b2);
      var row := ProcessedImage(rowId, task.imageId, op, GetOperationParams(env, task.operations, op),
                                path, |data|, "image/jpeg", task.format, "completed");
      var (b4, rowErr) := CreateRow(env, b3, row);
      if rowErr.Some? then (b4, None)
      else
        var (b5, ms) := Elapsed(env, b4);
        (b5, Some(ms))
  }

  /** The store loop over the first stages of `order`; the map holds the
      processing time of every stage stored so far. */
  function StoreStages(env: Env, b: Backend, task: ProcessingTask, outputs: map<string, Bytes>,
                       order: seq<string>): (Backend, map<string, int>)
    requires forall i :: 0 <= i < |order| ==> order[i] in outputs
  {
    if order == [] then (b, map[])
    else
      var (b1, times) := StoreStages(env, b, task, outputs, order[..|order| - 1]);
      var op := order[|order| - 1];
      var (b2, ms) := StoreStage(env, b1, task, op, outputs[op]);
      (b2, if ms.Some? then times[op := ms.value] else times)
  }

  /** The statistics loop: `RecordImageProcessed` for each stored stage,
      in the iteration order of the times map. */
  function ProcessedEvents(order: seq<string>, times: map<string, int>): (r: seq<StatCall>)
    requires forall i :: 0 <= i < |order| ==> order[i] in times
    ensures |r| == |order|
    ensures forall i :: 0 <= i < |order| ==> r[i] == ImageProcessed(order[i], times[order[i]])
  {
    if order == [] then []
    else ProcessedEvents(order[..|order| - 1], times) + [ImageProcessed(order[|order| - 1], times[order[|order| - 1]])]
  }

  /** `ProcessTask`: the new backend and the returned error (None for nil). */
  function TaskRun(env: Env, reg: Processor.Registry, lib: Imaging.Library, b: Backend,
                   task: ProcessingTask): (Backend, Option<Error>)
    requires ValidEnv(env)
  {
    var (b1, downloaded) := Download(env, b, task.originalPath);
    if downloaded.Failure? then
      FailTaskAsWritten(env, b1, task, downloaded.error, "failed to download original image")
    else
      Finish(env, b1.(pipelineRuns := b1.pipelineRuns + 1), task,
             Processor.Process(reg, lib, downloaded.value, task.operations).result)
  }

  /** `ProcessTask` after the pipeline ran: a failure is recorded as such,
      otherwise the outputs are stored. */
  function Finish(env: Env, b: Backend, task: ProcessingTask, processed: Result<map<string, Bytes>>)
    : (Backend, Option<Error>)
    requires ValidEnv(env)
  {
    if processed.Failure? then FailTaskAsWritten(env, b, task, processed.error, "failed to process image")
    else (StoreResults(env, b, task, processed.value), None)
  }

  /** `ProcessTask` as evidently intended: each failure branch wraps the
      download or pipeline error rather than the status-update result. */
  function TaskRunIntended(env: Env, reg: Processor.Registry, lib: Imaging.Library, b: Backend,
                           task: ProcessingTask): (Backend, Option<Error>)
    requires ValidEnv(env)
  {
    var (b1, downloaded) := Download(env, b, task.originalPath);
    if downloaded.Failure? then
      FailTask(env, b1, task, downloaded.error, "failed to download original image")
    else
      FinishIntended(env, b1.(pipelineRuns := b1.pipelineRuns + 1), task,
                     Processor.Process(reg, lib, downloaded.value, task.operations).result)
  }

  /** `Finish` with the corrected failure branch. */
  function FinishIntended(env: Env, b: Backend, task: ProcessingTask, processed: Result<map<string, Bytes>>)
    : (Backend, Option<Error>)
    requires ValidEnv(env)
  {
    if processed.Failure? then FailTask(env, b, task, processed.error, "failed to process image")
    else (StoreResults(env, b, task, processed.value), None)
  }

  /** The success path of `ProcessTask` after the pipeline: store every
      output, mark the job and the image completed, and record the
      processing time of each stored stage. */
  function StoreResults(env: Env, b: Backend, task: ProcessingTask, outputs: map<string, Bytes>): Backend
    requires ValidEnv(env)
  {
    var stored := StoreOutputs(env, b, task, outputs);
    MarkCompleted(env, stored.0, task, stored.1)
  }

  /** The store loop over the outputs in map iteration order. */
  function StoreOutputs(env: Env, b: Backend, task: ProcessingTask, outputs: map<string, Bytes>)
    : (Backend, map<string, int>)
    requires ValidEnv(env)
  {
    var order := env.order(b.iterations, outputs.Keys);
    assert IsEnumeration(order, outputs.Keys);
    assert forall i :: 0 <= i < |order| ==> order[i] in Elements(order);
    StoreStages(env, b.(iterations := b.iterations + 1), task, outputs, order)
  }

  /** The end of a successful task: the job and the image are marked
      completed and one `RecordImageProcessed` call is made per timed stage,
      in map iteration order. */
  function MarkCompleted(env: Env, b2: Backend, task: ProcessingTask, times: map<string, int>): Backend
    requires ValidEnv(env)
  {
    var (b3, _) := UpdateJob(env, b2, task.id, "completed", "");
    var (b4, _) := UpdateImage(env, b3, task.imageId, Completed);
    var (b5, statOrder) := IterationOrder(env, b4, times.Keys);
    assert IsEnumeration(statOrder, times.Keys);
    assert forall i :: 0 <= i < |statOrder| ==> statOrder[i] in Elements(statOrder);
    b5.(stats := b5.stats + ProcessedEvents(statOrder, times))
  }

  /** One call of `ProcessTask` on a task, as a function of the backend. */
  type Attempt = Backend -> (Backend, Option<Error>)

  /** `ProcessTask` on a task, seen as an attempt. */
  function TaskAttempt(env: Env, reg: Processor.Registry, lib: Imaging.Library, task: ProcessingTask): Attempt
    requires ValidEnv(env)
  {
    b => TaskRun(env, reg, lib, b, task)
  }

  /** `ProcessTaskWithRetry` from attempt `attempt` on, `lastErr` the
      error of the attempt before and `run` one attempt. */
  function Retry(run: Attempt, b: Backend, maxRetries: int, attempt: int, lastErr: Option<Error>): (Backend, Option<Error>)
    decreases maxRetries - attempt + 1
  {
    if attempt > maxRetries then
      (b, Some(Wrap("task processing failed after " + IntToDecimal(maxRetries) + " retries", lastErr)))
    else
      var (b1, err) := run(b);
      if err.None? then (b1, None)
      else
        var b2 := if attempt < maxRetries then b1.(sleeps := b1.sleeps + [2 * attempt]) else b1;
        Retry(run, b2, maxRetries, attempt + 1, err)
  }

  // ---------------------------------------------------------------------
  // Properties of ProcessTask and ProcessTaskWithRetry
  // ---------------------------------------------------------------------

  /** The operations that rows were written for. */
  function RowOps(rows: seq<ProcessedImage>): set<string>
  {
    set r | r in rows :: r.operation
  }

  /** The operations that statistics calls were made for. */
  function StatOps(events: seq<StatCall>): set<string>
  {
    set e | e in events :: e.op
  }

  /** A row written by the store loop: it belongs to its task's image,
      describes the stored output of its operation with that operation's
      requested parameters, its path is the stage path of the image and the
      operation under some id, and the output was uploaded to it. */
  ghost predicate StoredRow(env: Env, task: ProcessingTask, outputs: map<string, Bytes>, puts: seq<Put>,
                      row: ProcessedImage)
  {
    row.imageId == task.imageId
    && row.operation in outputs
    && row.size == |outputs[row.operation]|
    && row.parameters == GetOperationParams(env, task.operations, row.operation)
    && row.mimeType == "image/jpeg" && row.status == "completed" && row.format == task.format
    && Put(row.path, outputs[row.operation], "image/jpeg") in puts
    && exists id :: row.path == StagePath(task.imageId, row.operation, id)
  }

  /** Only the store loop's own collaborators are touched: the job, the
      image, the statistics, the downloads and the sleeps are as before. */
  predicate StoreFrame(b: Backend, b': Backend)
  {
    b'.downloads == b.downloads && b'.pipelineRuns == b.pipelineRuns
    && b'.iterations == b.iterations
    && b'.jobs == b.jobs && b'.images == b.images
    && b'.stats == b.stats && b'.sleeps == b.sleeps
  }

  /** One store stage uploads once; it times the stage exactly when it
      writes a row, and that row describes the stage's output and is
      uploaded under the row's path. */
  lemma StoreStageFacts(env: Env, b: Backend, task: ProcessingTask, outputs: map<string, Bytes>, op: string)
    requires op in outputs
    ensures var (b', ms) := StoreStage(env, b, task, op, outputs[op]);
      StoreFrame(b, b')
      && b'.uploads == b.uploads + 1
      && |b.puts| <= |b'.puts| <= |b.puts| + 1 && b'.puts[..|b.puts|] == b.puts
      && (ms.None? ==> b'.rows == b.rows)
      && (ms.Some? ==>
            |b'.rows| == |b.rows| + 1 && b'.rows[..|b.rows|] == b.rows
            && b'.rows[|b.rows|].operation == op
            && StoredRow(env, task, outputs, b'.puts[|b.puts|..], b'.rows[|b.rows|]))
  {
    var (b', ms) := StoreStage(env, b, task, op, outputs[op]);
    if ms.Some? {
      assert b'.puts[|b.puts|..] == [b'.puts[|b.puts|]];
      assert b'.rows[|b.rows|].path == StagePath(task.imageId, op, env.uuid(b.uuids));
    }
  }

  /** A row stays stored when more puts follow. */
  lemma StoredRowExtend(env: Env, task: ProcessingTask, outputs: map<string, Bytes>,
                        a: seq<Put>, c: seq<Put>, k: nat, row: ProcessedImage)
    requires k <= |a| <= |c| && c[..|a|] == a
    requires StoredRow(env, task, outputs, a[k..], row)
    ensures StoredRow(env, task, outputs, c[k..], row)
  {
    var x := Put(row.path, outputs[row.operation], "image/jpeg");
    var j :| 0 <= j < |a[k..]| && a[k..][j] == x;
    assert c[k..][j] == c[..|a|][k + j];
  }

  /** A row stored by later puts is stored by a longer suffix. */
  lemma StoredRowWiden(env: Env, task: ProcessingTask, outputs: map<string, Bytes>,
                       c: seq<Put>, k: nat, j: nat, row: ProcessedImage)
    requires k <= j <= |c|
    requires StoredRow(env, task, outputs, c[j..], row)
    ensures StoredRow(env, task, outputs, c[k..], row)
  {
    var x := Put(row.path, outputs[row.operation], "image/jpeg");
    var t :| 0 <= t < |c[j..]| && c[j..][t] == x;
    assert c[k..][j - k + t] == x;
  }

  /** The store loop touches only its own collaborators, uploads every
      output once, and keeps earlier puts and rows. */
  lemma {:induction false} StoreStagesFrame(env: Env, b: Backend, task: ProcessingTask,
                                            outputs: map<string, Bytes>, order: seq<string>)
    requires forall i :: 0 <= i < |order| ==> order[i] in outputs
    ensures var b' := StoreStages(env, b, task, outputs, order).0;
      StoreFrame(b, b')
      && b'.uploads == b.uploads + |order|
      && |b.puts| <= |b'.puts| && b'.puts[..|b.puts|] == b.puts
      && |b.rows| <= |b'.rows| && b'.rows[..|b.rows|] == b.rows
    decreases |order|
  {
    if order != [] {
      var prefix := order[..|order| - 1];
      var op := order[|order| - 1];
      StoreStagesFrame(env, b, task, outputs, prefix);
      var b1 := StoreStages(env, b, task, outputs, prefix).0;
      StoreStageFacts(env, b1, task, outputs, op);
      var b2 := StoreStage(env, b1, task, op, outputs[op]).0;
      assert StoreStages(env, b, task, outputs, order).0 == b2;
      assert b2.puts[..|b.puts|] == b2.puts[..|b1.puts|][..|b.puts|];
      assert b2.rows[..|b.rows|] == b2.rows[..|b1.rows|][..|b.rows|];
    }
  }

  /** The store loop writes a row exactly for the stages it times. */
  lemma {:induction false} StoreStagesTimes(env: Env, b: Backend, task: ProcessingTask,
                                            outputs: map<string, Bytes>, order: seq<string>)
    requires forall i :: 0 <= i < |order| ==> order[i] in outputs
    ensures |b.rows| <= |StoreStages(env, b, task, outputs, order).0.rows|
    ensures var stored := StoreStages(env, b, task, outputs, order);
      stored.1.Keys <= Elements(order) && RowOps(stored.0.rows[|b.rows|..]) == stored.1.Keys
    decreases |order|
  {
    StoreStagesFrame(env, b, task, outputs, order);
    if order != [] {
      var prefix := order[..|order| - 1];
      var op := order[|order| - 1];
      StoreStagesTimes(env, b, task, outputs, prefix);
      StoreStagesFrame(env, b, task, outputs, prefix);
      var (b1, times1) := StoreStages(env, b, task, outputs, prefix);
      StoreStageFacts(env, b1, task, outputs, op);
      var (b2, ms) := StoreStage(env, b1, task, op, outputs[op]);
      var times := if ms.Some? then times1[op := ms.value] else times1;
      assert StoreStages(env, b, task, outputs, order) == (b2, times);
      PrefixElements(order);
      if ms.Some? {
        var row := b2.rows[|b1.rows|];
        assert b2.rows == b1.rows + [row];
        RowOpsAppend(b1.rows, b.rows, row);
      } else {
        assert b2.rows == b1.rows;
      }
    }
  }

  /** Dropping the last element keeps the others. */
  lemma PrefixElements<T>(s: seq<T>)
    requires s != []
    ensures Elements(s) == Elements(s[..|s| - 1]) + {s[|s| - 1]}
  {
    assert s == s[..|s| - 1] + [s[|s| - 1]];
  }

  /** Appending a row adds its operation. */
  lemma RowOpsAppend(rows: seq<ProcessedImage>, before: seq<ProcessedImage>, row: ProcessedImage)
    requires |before| <= |rows|
    ensures RowOps((rows + [row])[|before|..]) == RowOps(rows[|before|..]) + {row.operation}
  {
    assert (rows + [row])[|before|..] == rows[|before|..] + [row];
  }

  /** Every row the store loop writes describes a stored output. */
  lemma {:induction false} StoreStagesStored(env: Env, b: Backend, task: ProcessingTask,
                                             outputs: map<string, Bytes>, order: seq<string>)
    requires forall i :: 0 <= i < |order| ==> order[i] in outputs
    ensures |b.rows| <= |StoreStages(env, b, task, outputs, order).0.rows|
    ensures |b.puts| <= |StoreStages(env, b, task, outputs, order).0.puts|
    ensures var b' := StoreStages(env, b, task, outputs, order).0;
      forall i :: |b.rows| <= i < |b'.rows| ==>
        StoredRow(env, task, outputs, b'.puts[|b.puts|..], b'.rows[i])
    decreases |order|
  {
    StoreStagesFrame(env, b, task, outputs, order);
    if order != [] {
      var prefix := order[..|order| - 1];
      var op := order[|order| - 1];
      StoreStagesStored(env, b, task, outputs, prefix);
      StoreStagesFrame(env, b, task, outputs, prefix);
      var b1 := StoreStages(env, b, task, outputs, prefix).0;
      StoreStageFacts(env, b1, task, outputs, op);
      var b2 := StoreStage(env, b1, task, op, outputs[op]).0;
      assert StoreStages(env, b, task, outputs, order).0 == b2;
      forall i | |b.rows| <= i < |b2.rows|
        ensures StoredRow(env, task, outputs, b2.puts[|b.puts|..], b2.rows[i])
      {
        var row := b2.rows[i];
        if i < |b1.rows| {
          assert row == b1.rows[i];
          StoredRowExtend(env, task, outputs, b1.puts, b2.puts, |b.puts|, row);
        } else {
          StoredRowWiden(env, task, outputs, b2.puts, |b.puts|, |b1.puts|, row);
        }
      }
    }
  }

  /** The failure side effects neither download nor sleep. */
  lemma FailEffectsCounters(env: Env, b: Backend, task: ProcessingTask, msg: string)
    ensures var b' := FailEffects(env, b, task, msg);
      b'.downloads == b.downloads && b'.sleeps == b.sleeps
  {
  }

  /** The backend after a failed download. */
  lemma TaskRunDownloadFailed(env: Env, reg: Processor.Registry, lib: Imaging.Library, b: Backend, task: ProcessingTask)
    requires ValidEnv(env) && env.download(b.downloads, task.originalPath).Failure?
    ensures TaskRun(env, reg, lib, b, task).0
      == FailEffects(env, b.(downloads := b.downloads + 1), task, Text(env.download(b.downloads, task.originalPath).error))
  {
  }

  /** After a download, the pipeline's result decides the rest. */
  lemma TaskRunDownloaded(env: Env, reg: Processor.Registry, lib: Imaging.Library, b: Backend, task: ProcessingTask)
    requires ValidEnv(env) && env.download(b.downloads, task.originalPath).Success?
    ensures TaskRun(env, reg, lib, b, task)
      == Finish(env, b.(downloads := b.downloads + 1, pipelineRuns := b.pipelineRuns + 1), task,
                Processor.Process(reg, lib, env.download(b.downloads, task.originalPath).value, task.operations).result)
  {
  }

  /** Storing the results neither downloads nor sleeps. */
  lemma StoreResultsCounters(env: Env, b: Backend, task: ProcessingTask, outputs: map<string, Bytes>)
    requires ValidEnv(env)
    ensures var b' := StoreResults(env, b, task, outputs);
      b'.downloads == b.downloads && b'.sleeps == b.sleeps
  {
    StoreResultsFrame(env, b, task, outputs);
  }

  /** Whatever the pipeline gave, what follows neither downloads nor
      sleeps. */
  lemma FinishCounters(env: Env, b: Backend, task: ProcessingTask, processed: Result<map<string, Bytes>>)
    requires ValidEnv(env)
    ensures var b' := Finish(env, b, task, processed).0;
      b'.downloads == b.downloads && b'.sleeps == b.sleeps
  {
    if processed.Failure? {
      FailEffectsCounters(env, b, task, Text(processed.error));
    } else {
      StoreResultsCounters(env, b, task, processed.value);
    }
  }

  /** Every attempt downloads the original once and sleeps not at all. */
  lemma TaskRunCounters(env: Env, reg: Processor.Registry, lib: Imaging.Library, b: Backend, task: ProcessingTask)
    requires ValidEnv(env)
    ensures var b' := TaskRun(env, reg, lib, b, task).0;
      b'.downloads == b.downloads + 1 && b'.sleeps == b.sleeps
  {
    var downloaded := env.download(b.downloads, task.originalPath);
    if downloaded.Failure? {
      TaskRunDownloadFailed(env, reg, lib, b, task);
      FailEffectsCounters(env, b.(downloads := b.downloads + 1), task, Text(downloaded.error));
    } else {
      TaskRunDownloaded(env, reg, lib, b, task);
      FinishCounters(env, b.(downloads := b.downloads + 1, pipelineRuns := b.pipelineRuns + 1), task,
                     Processor.Process(reg, lib, downloaded.value, task.operations).result);
    }
  }

  /** A failed download: the pipeline does not run, nothing is stored, a
      failure is recorded for every requested operation, and what is
      returned under the context is the result of the image-status update,
      the second repository call. */
  lemma DownloadFailure(env: Env, reg: Processor.Registry, lib: Imaging.Library, b: Backend, task: ProcessingTask)
    requires ValidEnv(env)
    requires env.download(b.downloads, task.originalPath).Failure?
    ensures var e := env.download(b.downloads, task.originalPath).error;
      var (b', err) := TaskRun(env, reg, lib, b, task);
      err == Some(Wrap("failed to download original image", env.repo(b.repoCalls + 1)))
      && b'.pipelineRuns == b.pipelineRuns
      && b'.puts == b.puts && b'.rows == b.rows
      && b'.stats == b.stats + FailedEvents(task.operations)
      && b'.jobs == (if env.repo(b.repoCalls).None? then b.jobs[task.id := JobStatus("failed", Text(e))] else b.jobs)
      && b'.images == (if env.repo(b.repoCalls + 1).None? then b.images[task.imageId := Failed] else b.images)
  {
  }

  /** A failed pipeline run: the same effects, after one pipeline run,
      with the pipeline's error. */
  lemma PipelineFailure(env: Env, reg: Processor.Registry, lib: Imaging.Library, b: Backend, task: ProcessingTask)
    requires ValidEnv(env)
    requires env.download(b.downloads, task.originalPath).Success?
    requires Processor.Process(reg, lib, env.download(b.downloads, task.originalPath).value, task.operations).result.Failure?
    ensures var e := Processor.Process(reg, lib, env.download(b.downloads, task.originalPath).value, task.operations).result.error;
      var (b', err) := TaskRun(env, reg, lib, b, task);
      err == Some(Wrap("failed to process image", env.repo(b.repoCalls + 1)))
      && b'.pipelineRuns == b.pipelineRuns + 1
      && b'.puts == b.puts && b'.rows == b.rows
      && b'.stats == b.stats + FailedEvents(task.operations)
      && b'.jobs == (if env.repo(b.repoCalls).None? then b.jobs[task.id := JobStatus("failed", Text(e))] else b.jobs)
      && b'.images == (if env.repo(b.repoCalls + 1).None? then b.images[task.imageId := Failed] else b.images)
  {
  }

  /** The corrected `ProcessTask` has the same effects and fails in the
      same cases as the one written, and its error wraps the download or
      the pipeline error under the context. */
  lemma IntendedRun(env: Env, reg: Processor.Registry, lib: Imaging.Library, b: Backend, task: ProcessingTask)
    requires ValidEnv(env)
    ensures TaskRunIntended(env, reg, lib, b, task).0 == TaskRun(env, reg, lib, b, task).0
    ensures TaskRunIntended(env, reg, lib, b, task).1.None? <==> TaskRun(env, reg, lib, b, task).1.None?
    ensures var d := env.download(b.downloads, task.originalPath);
      d.Failure? ==>
        TaskRunIntended(env, reg, lib, b, task).1 == Some(Wrap("failed to download original image", Some(d.error)))
    ensures var d := env.download(b.downloads, task.originalPath);
      d.Success? && Processor.Process(reg, lib, d.value, task.operations).result.Failure? ==>
        TaskRunIntended(env, reg, lib, b, task).1
          == Some(Wrap("failed to process image", Some(Processor.Process(reg, lib, d.value, task.operations).result.error)))
  {
  }

  /** A task fails exactly when the download or the pipeline fails; the
      store loop's failures are logged and skipped. */
  lemma TaskRunFails(env: Env, reg: Processor.Registry, lib: Imaging.Library, b: Backend, task: ProcessingTask)
    requires ValidEnv(env)
    ensures TaskRun(env, reg, lib, b, task).1.None? <==>
      env.download(b.downloads, task.originalPath).Success?
      && Processor.Process(reg, lib, env.download(b.downloads, task.originalPath).value, task.operations).result.Success?
  {
  }

  /** `StoreResults` is the store loop over the iteration order of the
      outputs followed by `MarkCompleted`. */
  lemma StoreResultsParts(env: Env, b: Backend, task: ProcessingTask, outputs: map<string, Bytes>)
    returns (order: seq<string>, b2: Backend, times: map<string, int>)
    requires ValidEnv(env)
    ensures IsEnumeration(order, outputs.Keys)
    ensures forall i :: 0 <= i < |order| ==> order[i] in outputs
    ensures var stored := StoreStages(env, b.(iterations := b.iterations + 1), task, outputs, order);
      b2 == stored.0 && times == stored.1
    ensures StoreResults(env, b, task, outputs) == MarkCompleted(env, b2, task, times)
  {
    assert StoreResults(env, b, task, outputs)
      == MarkCompleted(env, StoreOutputs(env, b, task, outputs).0, task, StoreOutputs(env, b, task, outputs).1);
    order := env.order(b.iterations, outputs.Keys);
    assert IsEnumeration(order, outputs.Keys);
    forall i | 0 <= i < |order|
      ensures order[i] in outputs
    {
      assert order[i] in Elements(order);
    }
    var stored := StoreStages(env, b.(iterations := b.iterations + 1), task, outputs, order);
    b2, times := stored.0, stored.1;
  }

  /** `MarkCompleted` changes only the repository's job and image status,
      the call counters and the statistics, which it extends by the
      processed events in the iteration order of the times. */
  lemma MarkCompletedFacts(env: Env, b2: Backend, task: ProcessingTask, times: map<string, int>)
    returns (statOrder: seq<string>)
    requires ValidEnv(env)
    ensures IsEnumeration(statOrder, times.Keys)
    ensures forall i :: 0 <= i < |statOrder| ==> statOrder[i] in times
    ensures var b' := MarkCompleted(env, b2, task, times);
      b'.downloads == b2.downloads && b'.pipelineRuns == b2.pipelineRuns && b'.sleeps == b2.sleeps
      && b'.rows == b2.rows && b'.puts == b2.puts
      && b'.stats == b2.stats + ProcessedEvents(statOrder, times)
      && b'.repoCalls == b2.repoCalls + 2
      && b'.jobs == (if env.repo(b2.repoCalls).None? then b2.jobs[task.id := JobStatus("completed", "")] else b2.jobs)
      && b'.images == (if env.repo(b2.repoCalls + 1).None? then b2.images[task.imageId := Completed] else b2.images)
  {
    var b4 := UpdateImage(env, UpdateJob(env, b2, task.id, "completed", "").0, task.imageId, Completed).0;
    statOrder := env.order(b4.iterations, times.Keys);
    assert IsEnumeration(statOrder, times.Keys);
    assert forall i :: 0 <= i < |statOrder| ==> statOrder[i] in Elements(statOrder);
  }

  /** Storing the results downloads nothing, runs nothing and sleeps not
      at all; it keeps earlier puts, rows and statistics, and marks the job
      and the image completed unless their repository call fails. */
  lemma StoreResultsFrame(env: Env, b: Backend, task: ProcessingTask, outputs: map<string, Bytes>)
    requires ValidEnv(env)
    ensures var b' := StoreResults(env, b, task, outputs);
      b'.downloads == b.downloads && b'.pipelineRuns == b.pipelineRuns && b'.sleeps == b.sleeps
      && |b.rows| <= |b'.rows| && b'.rows[..|b.rows|] == b.rows
      && |b.puts| <= |b'.puts| && b'.puts[..|b.puts|] == b.puts
      && |b.stats| <= |b'.stats| && b'.stats[..|b.stats|] == b.stats
    ensures var b2 := StoreOutputs(env, b, task, outputs).0;
      var b' := StoreResults(env, b, task, outputs);
      b'.jobs == (if env.repo(b2.repoCalls).None? then b.jobs[task.id := JobStatus("completed", "")] else b.jobs)
      && b'.images == (if env.repo(b2.repoCalls + 1).None? then b.images[task.imageId := Completed] else b.images)
  {
    var order, b2, times := StoreResultsParts(env, b, task, outputs);
    var statOrder := MarkCompletedFacts(env, b2, task, times);
    StoreStagesFrame(env, b.(iterations := b.iterations + 1), task, outputs, order);
    var b' := StoreResults(env, b, task, outputs);
    assert b'.stats[..|b.stats|] == b2.stats;
  }

  /** A completed task: every row written describes a stored pipeline
      output, and one `RecordImageProcessed` call is made per written row,
      each for a different operation. */
  lemma StoreResultsFacts(env: Env, b: Backend, task: ProcessingTask, outputs: map<string, Bytes>)
    requires ValidEnv(env)
    ensures var b' := StoreResults(env, b, task, outputs);
      |b.rows| <= |b'.rows| && |b.puts| <= |b'.puts| && |b.stats| <= |b'.stats|
      && var newRows := b'.rows[|b.rows|..];
      var events := b'.stats[|b.stats|..];
      (forall i :: 0 <= i < |newRows| ==> StoredRow(env, task, outputs, b'.puts[|b.puts|..], newRows[i]))
      && (forall i :: 0 <= i < |events| ==> events[i].ImageProcessed?)
      && StatOps(events) == RowOps(newRows)
      && |events| == |StatOps(events)|
  {
    var order, b2, times := StoreResultsParts(env, b, task, outputs);
    var b1 := b.(iterations := b.iterations + 1);
    StoreStagesFrame(env, b1, task, outputs, order);
    StoreStagesTimes(env, b1, task, outputs, order);
    StoreStagesStored(env, b1, task, outputs, order);
    var statOrder := MarkCompletedFacts(env, b2, task, times);
    CompletedFacts(env, task, outputs, b, b2, times, statOrder, MarkCompleted(env, b2, task, times));
  }

  /** `StoreResultsFacts` for any backend `b'` related to the one before
      (`b`) and the one after the store loop (`b2`) as `MarkCompleted`
      relates them. */
  lemma CompletedFacts(env: Env, task: ProcessingTask, outputs: map<string, Bytes>, b: Backend, b2: Backend,
                       times: map<string, int>, statOrder: seq<string>, b': Backend)
    requires |b.rows| <= |b2.rows| && |b.puts| <= |b2.puts|
    requires b2.stats == b.stats
    requires RowOps(b2.rows[|b.rows|..]) == times.Keys
    requires forall i :: |b.rows| <= i < |b2.rows| ==> StoredRow(env, task, outputs, b2.puts[|b.puts|..], b2.rows[i])
    requires IsEnumeration(statOrder, times.Keys)
    requires forall i :: 0 <= i < |statOrder| ==> statOrder[i] in times
    requires b'.rows == b2.rows && b'.puts == b2.puts && b'.stats == b2.stats + ProcessedEvents(statOrder, times)
    ensures |b.rows| <= |b'.rows| && |b.puts| <= |b'.puts| && |b.stats| <= |b'.stats|
    ensures var newRows := b'.rows[|b.rows|..];
      var events := b'.stats[|b.stats|..];
      (forall i :: 0 <= i < |newRows| ==> StoredRow(env, task, outputs, b'.puts[|b.puts|..], newRows[i]))
      && (forall i :: 0 <= i < |events| ==> events[i].ImageProcessed?)
      && StatOps(events) == RowOps(newRows)
      && |events| == |StatOps(events)|
  {
    var events := ProcessedEvents(statOrder, times);
    assert b'.stats[|b.stats|..] == events;
    EventsMatchRows(b2.rows[|b.rows|..], times, statOrder);
    var newRows := b'.rows[|b.rows|..];
    forall i | 0 <= i < |newRows|
      ensures StoredRow(env, task, outputs, b'.puts[|b.puts|..], newRows[i])
    {
      assert newRows[i] == b2.rows[|b.rows| + i];
    }
  }

  /** One statistics call per timed stage, each for a different operation,
      and the timed stages are those with rows. */
  lemma EventsMatchRows(newRows: seq<ProcessedImage>, times: map<string, int>, statOrder: seq<string>)
    requires RowOps(newRows) == times.Keys
    requires IsEnumeration(statOrder, times.Keys)
    ensures forall i :: 0 <= i < |statOrder| ==> statOrder[i] in times
    ensures var events := ProcessedEvents(statOrder, times);
      (forall i :: 0 <= i < |events| ==> events[i].ImageProcessed?)
      && StatOps(events) == RowOps(newRows)
      && |events| == |StatOps(events)|
  {
    assert forall i :: 0 <= i < |statOrder| ==> statOrder[i] in Elements(statOrder);
    EventOps(statOrder, times);
    DistinctLength(statOrder);
  }

  /** The operations of the statistics calls are those of the order. */
  lemma EventOps(order: seq<string>, times: map<string, int>)
    requires forall i :: 0 <= i < |order| ==> order[i] in times
    ensures StatOps(ProcessedEvents(order, times)) == Elements(order)
  {
    var events := ProcessedEvents(order, times);
    forall x | x in StatOps(events) ensures x in Elements(order) {
      var e :| e in events && e.op == x;
      var k :| 0 <= k < |events| && events[k] == e;
      assert order[k] == x;
    }
    forall x | x in Elements(order) ensures x in StatOps(events) {
      var k :| 0 <= k < |order| && order[k] == x;
      assert events[k] in events;
    }
  }

  /** A completed task ran the pipeline successfully on the downloaded
      original, and its effects are those of storing the outputs. */
  lemma Completion(env: Env, reg: Processor.Registry, lib: Imaging.Library, b: Backend, task: ProcessingTask)
    requires ValidEnv(env)
    requires TaskRun(env, reg, lib, b, task).1.None?
    ensures env.download(b.downloads, task.originalPath).Success?
    ensures var run := Processor.Process(reg, lib, env.download(b.downloads, task.originalPath).value, task.operations);
      run.result.Success?
      && TaskRun(env, reg, lib, b, task).0
         == StoreResults(env, b.(downloads := b.downloads + 1, pipelineRuns := b.pipelineRuns + 1), task, run.result.value)
  {
  }

  /** The sleeps between attempts `from`, `from + 1`, ...: twice the
      attempt number, in seconds. */
  function Backoffs(from: int, n: nat): (r: seq<int>)
    ensures |r| == n
    decreases n
    ensures forall i :: 0 <= i < n ==> r[i] == 2 * (from + i)
  {
    if n == 0 then [] else [2 * from] + Backoffs(from + 1, n - 1)
  }

  /** One task attempt downloads once and does not sleep. */
  ghost predicate CountsDownloads(run: Attempt)
  {
    forall x: Backend {:trigger run(x)} :: run(x).0.downloads == x.downloads + 1 && run(x).0.sleeps == x.sleeps
  }

  lemma TaskAttemptCounts(env: Env, reg: Processor.Registry, lib: Imaging.Library, task: ProcessingTask)
    requires ValidEnv(env)
    ensures CountsDownloads(TaskAttempt(env, reg, lib, task))
  {
    forall x: Backend ensures TaskAttempt(env, reg, lib, task)(x).0.downloads == x.downloads + 1
                              && TaskAttempt(env, reg, lib, task)(x).0.sleeps == x.sleeps {
      TaskRunCounters(env, reg, lib, x, task);
    }
  }

  /** One attempt of the retry loop: it downloads once, and a failure
      that is not the last sleeps `2 * attempt` seconds before the rest. */
  lemma RetryStep(run: Attempt, b: Backend, maxRetries: int, attempt: int, lastErr: Option<Error>)
    returns (b2: Backend, err1: Option<Error>)
    requires CountsDownloads(run) && attempt <= maxRetries
    ensures b2.downloads == b.downloads + 1
    ensures err1.None? ==> Retry(run, b, maxRetries, attempt, lastErr) == (b2, None) && b2.sleeps == b.sleeps
    ensures err1.Some? ==> Retry(run, b, maxRetries, attempt, lastErr) == Retry(run, b2, maxRetries, attempt + 1, err1)
    ensures err1.Some? ==> b2.sleeps == b.sleeps + (if attempt < maxRetries then [2 * attempt] else [])
  {
    var b1;
    b1, err1 := run(b).0, run(b).1;
    b2 := if err1.Some? && attempt < maxRetries then b1.(sleeps := b1.sleeps + [2 * attempt]) else b1;
  }

  /** The retry loop runs between one and the remaining number of attempts,
      one download each, and sleeps `2k` seconds after each failed attempt
      k that is not the last; a failure uses every attempt. Without
      attempts left nothing happens. */
  lemma {:induction false} RetrySchedule(run: Attempt, b: Backend, maxRetries: int, attempt: int, lastErr: Option<Error>)
    requires CountsDownloads(run)
    ensures var (b', err) := Retry(run, b, maxRetries, attempt, lastErr);
      var n := b'.downloads - b.downloads;
      (attempt > maxRetries ==> b' == b)
      && (attempt <= maxRetries ==>
            1 <= n <= maxRetries - attempt + 1
            && b'.sleeps == b.sleeps + Backoffs(attempt, n - 1)
            && (err.Some? ==> n == maxRetries - attempt + 1))
    decreases maxRetries - attempt + 1
  {
    if attempt <= maxRetries {
      var b2, err1 := RetryStep(run, b, maxRetries, attempt, lastErr);
      if err1.Some? {
        RetrySchedule(run, b2, maxRetries, attempt + 1, err1);
        var b' := Retry(run, b2, maxRetries, attempt + 1, err1).0;
        var n2 := b'.downloads - b2.downloads;
        if attempt < maxRetries {
          assert Backoffs(attempt, n2) == [2 * attempt] + Backoffs(attempt + 1, n2 - 1);
          assert b'.sleeps == b.sleeps + ([2 * attempt] + Backoffs(attempt + 1, n2 - 1));
        } else {
          assert b' == b2 && n2 == 0;
        }
      } else {
        assert Backoffs(attempt, 0) == [];
      }
    }
  }

  /** The retry loop returns nil exactly when its last attempt returned
      nil, and otherwise that attempt's error under the retry context;
      without attempts left it changes nothing and wraps the error it
      started with. The last attempt is number `k`, made on the backend
      `bLast` that the earlier, failed, attempts and their sleeps left, and
      unless it succeeded it is the last one allowed. */
  lemma {:induction false} RetryOutcome(run: Attempt, b: Backend, maxRetries: int, attempt: int, lastErr: Option<Error>)
    returns (bLast: Backend, k: int, e: Option<Error>)
    ensures attempt > maxRetries ==>
      Retry(run, b, maxRetries, attempt, lastErr)
        == (b, Some(Wrap("task processing failed after " + IntToDecimal(maxRetries) + " retries", lastErr)))
    ensures attempt <= maxRetries ==>
      attempt <= k <= maxRetries
      && (k == attempt ==> bLast == b && e == lastErr)
      && Retry(run, b, maxRetries, attempt, lastErr) == Retry(run, bLast, maxRetries, k, e)
      && (run(bLast).1.Some? ==> k == maxRetries)
    ensures attempt <= maxRetries ==>
      var r := Retry(run, b, maxRetries, attempt, lastErr);
      r.0 == run(bLast).0
      && (r.1.None? <==> run(bLast).1.None?)
      && (r.1.Some? ==> r.1 == Some(Wrap("task processing failed after " + IntToDecimal(maxRetries) + " retries", run(bLast).1)))
    decreases maxRetries - attempt + 1
  {
    bLast, k, e := b, attempt, lastErr;
    if attempt < maxRetries && run(b).1.Some? {
      var b2 := run(b).0.(sleeps := run(b).0.sleeps + [2 * attempt]);
      assert Retry(run, b, maxRetries, attempt, lastErr) == Retry(run, b2, maxRetries, attempt + 1, run(b).1);
      bLast, k, e := RetryOutcome(run, b2, maxRetries, attempt + 1, run(b).1);
    }
  }

  /** With no attempts allowed no task is run at all, and the error
      wraps nil. */
  lemma NoAttempts(run: Attempt, b: Backend, maxRetries: int)
    requires maxRetries < 1
    ensures Retry(run, b, maxRetries, 1, None)
      == (b, Some(Wrap("task processing failed after " + IntToDecimal(maxRetries) + " retries", None)))
  {
  }

  // ---------------------------------------------------------------------
  // The service
  // ---------------------------------------------------------------------

  class WorkerService {
    const env: Env
    const processor: Processor.ImageProcessor
    var backend: Backend

    constructor (env: Env, processor: Processor.ImageProcessor, backend: Backend)
      ensures this.env == env && this.processor == processor && this.backend == backend
    {
      this.env := env;
      this.processor := processor;
      this.backend := backend;
    }

    method DownloadFile(path: string) returns (r: Result<Bytes>)
      modifies this`backend
      ensures (backend, r) == Download(env, old(backend), path)
    {
      r := env.download(backend.downloads, path);
      backend := backend.(downloads := backend.downloads + 1);
    }

    method UploadFile(path: string, data: Bytes, contentType: string) returns (r: Option<Error>)
      modifies this`backend
      ensures (backend, r) == Upload(env, old(backend), Put(path, data, contentType))
    {
      var p := Put(path, data, contentType);
      r := env.upload(backend.uploads, p);
      backend := backend.(uploads := backend.uploads + 1);
      if r.None? {
        backend := backend.(puts := backend.puts + [p]);
      }
    }

    method UpdateJobStatus(id: string, status: string, msg: string) returns (r: Option<Error>)
      modifies this`backend
      ensures (backend, r) == UpdateJob(env, old(backend), id, status, msg)
    {
      r := env.repo(backend.repoCalls);
      backend := backend.(repoCalls := backend.repoCalls + 1);
      if r.None? {
        backend := backend.(jobs := backend.jobs[id := JobStatus(status, msg)]);
      }
    }

    method UpdateImageStatus(id: string, status: ImageStatus) returns (r: Option<Error>)
      modifies this`backend
      ensures (backend, r) == UpdateImage(env, old(backend), id, status)
    {
      r := env.repo(backend.repoCalls);
      backend := backend.(repoCalls := backend.repoCalls + 1);
      if r.None? {
        backend := backend.(images := backend.images[id := status]);
      }
    }

    method CreateProcessedImage(row: ProcessedImage) returns (r: Option<Error>)
      modifies this`backend
      ensures (backend, r) == CreateRow(env, old(backend), row)
    {
      r := env.repo(backend.repoCalls);
      backend := backend.(repoCalls := backend.repoCalls + 1);
      if r.None? {
        backend := backend.(rows := backend.rows + [row]);
      }
    }

    method NewUuidString() returns (id: string)
      modifies this`backend
      ensures (backend, id) == NewUuid(env, old(backend))
    {
      id := env.uuid(backend.uuids);
      backend := backend.(uuids := backend.uuids + 1);
    }

    method SinceMs() returns (ms: int)
      modifies this`backend
      ensures (backend, ms) == Elapsed(env, old(backend))
    {
      ms := env.elapsedMs(backend.timings);
      backend := backend.(timings := backend.timings + 1);
    }

    /** The order in which a `range` over a map with these keys visits
        them. */
    method RangeOrder(keys: set<string>) returns (order: seq<string>)
      modifies this`backend
      ensures (backend, order) == IterationOrder(env, old(backend), keys)
    {
      order := env.order(backend.iterations, keys);
      backend := backend.(iterations := backend.iterations + 1);
    }

    method RecordStat(c: StatCall)
      modifies this`backend
      ensures backend == old(backend).(stats := old(backend).stats + [c])
    {
      backend := backend.(stats := backend.stats + [c]);
    }

    /** The failure branch shared by a failed download and a failed
        pipeline run. */
    method MarkFailed(task: ProcessingTask, msg: string) returns (err: Option<Error>)
      modifies this`backend
      ensures backend == FailEffects(env, old(backend), task, msg)
      ensures err == env.repo(old(backend).repoCalls + 1)
    {
      err := UpdateJobStatus(task.id, "failed", msg);
      err := UpdateImageStatus(task.imageId, Failed);
      ghost var b0 := backend;
      var i := 0;
      while i < |task.operations|
        invariant 0 <= i <= |task.operations|
        invariant backend == b0.(stats := b0.stats + FailedEvents(task.operations[..i]))
      {
        RecordStat(ImageFailed(task.operations[i].kind, 0));
        assert task.operations[..i + 1][..i] == task.operations[..i];
        i := i + 1;
      }
      assert task.operations[..i] == task.operations;
    }

    /** One iteration of the store loop: upload the output under a fresh
        path and write its row; `None` when either failed and the stage
        was skipped, otherwise its processing time. */
    method StoreOne(task: ProcessingTask, op: string, data: Bytes) returns (ms: Option<int>)
      modifies this`backend
      ensures (backend, ms) == StoreStage(env, old(backend), task, op, data)
    {
      var id := NewUuidString();
      var path := StagePath(task.imageId, op, id);
      var upErr := UploadFile(path, data, "image/jpeg");
      if upErr.Some? {
        return None;
      }
      var rowId := NewUuidString();
      var row := ProcessedImage(rowId, task.imageId, op, GetOperationParams(env, task.operations, op),
                                path, |data|, "image/jpeg", task.format, "completed");
      var rowErr := CreateProcessedImage(row);
      if rowErr.Some? {
        return None;
      }
      var t := SinceMs();
      return Some(t);
    }

    /** The store loop of `ProcessTask` over the pipeline outputs, in
        `order`; returns the processing times of the stored stages. */
    method StoreOutputs(task: ProcessingTask, outputs: map<string, Bytes>, order: seq<string>)
      returns (times: map<string, int>)
      requires forall i :: 0 <= i < |order| ==> order[i] in outputs
      modifies this`backend
      ensures (backend, times) == StoreStages(env, old(backend), task, outputs, order)
    {
      times := map[];
      var i := 0;
      while i < |order|
        invariant 0 <= i <= |order|
        invariant (backend, times) == StoreStages(env, old(backend), task, outputs, order[..i])
      {
        assert order[..i + 1][..i] == order[..i];
        var op := order[i];
        var ms := StoreOne(task, op, outputs[op]);
        if ms.Some? {
          times := times[op := ms.value];
        }
        i := i + 1;
      }
      assert order[..i] == order;
    }

    /** The statistics loop of `ProcessTask`; the service's errors are only
        logged. */
    method RecordTimes(order: seq<string>, times: map<string, int>)
      requires forall i :: 0 <= i < |order| ==> order[i] in times
      modifies this`backend
      ensures backend == old(backend).(stats := old(backend).stats + ProcessedEvents(order, times))
    {
      var j := 0;
      while j < |order|
        invariant 0 <= j <= |order|
        invariant backend == old(backend).(stats := old(backend).stats + ProcessedEvents(order[..j], times))
      {
        RecordStat(ImageProcessed(order[j], times[order[j]]));
        assert order[..j + 1][..j] == order[..j];
        j := j + 1;
      }
      assert order[..j] == order;
    }

    /** `ProcessTask`. */
    method ProcessTask(task: ProcessingTask) returns (err: Option<Error>)
      requires ValidEnv(env)
      modifies this`backend
      ensures (backend, err) == TaskRun(env, processor.operations, processor.lib, old(backend), task)
    {
      var downloaded := DownloadFile(task.originalPath);
      if downloaded.Failure? {
        var statusErr := MarkFailed(task, Text(downloaded.error));
        return Some(Wrap("failed to download original image", statusErr));
      }
      backend := backend.(pipelineRuns := backend.pipelineRuns + 1);
      var processed, _ := processor.ProcessImage(downloaded.value, task.operations);
      if processed.Failure? {
        var statusErr := MarkFailed(task, Text(processed.error));
        return Some(Wrap("failed to process image", statusErr));
      }
      StoreAll(task, processed.value);
      return None;
    }

    /** The success path: store the outputs, complete the job and the
        image, record the times. */
    method StoreAll(task: ProcessingTask, outputs: map<string, Bytes>)
      requires ValidEnv(env)
      modifies this`backend
      ensures backend == StoreResults(env, old(backend), task, outputs)
    {
      var order := RangeOrder(outputs.Keys);
      assert IsEnumeration(order, outputs.Keys);
      assert forall i :: 0 <= i < |order| ==> order[i] in Elements(order);
      var times := StoreOutputs(task, outputs, order);
      var _ := UpdateJobStatus(task.id, "completed", "");
      var _ := UpdateImageStatus(task.imageId, Completed);
      var statOrder := RangeOrder(times.Keys);
      assert IsEnumeration(statOrder, times.Keys);
      assert forall j :: 0 <= j < |statOrder| ==> statOrder[j] in Elements(statOrder);
      RecordTimes(statOrder, times);
    }

    /** `ProcessTaskWithRetry`. */
    method ProcessTaskWithRetry(task: ProcessingTask, maxRetries: int) returns (err: Option<Error>)
      requires ValidEnv(env)
      modifies this`backend
      ensures (backend, err) == Retry(TaskAttempt(env, processor.operations, processor.lib, task), old(backend), maxRetries, 1, None)
    {
      var lastErr: Option<Error> := None;
      var attempt := 1;
      while attempt <= maxRetries
        invariant 1 <= attempt
        invariant maxRetries >= 1 ==> attempt <= maxRetries + 1
        invariant Retry(TaskAttempt(env, processor.operations, processor.lib, task), old(backend), maxRetries, 1, None)
          == Retry(TaskAttempt(env, processor.operations, processor.lib, task), backend, maxRetries, attempt, lastErr)
        decreases maxRetries - attempt + 1
      {
        var e := ProcessTask(task);
        if e.None? {
          return None;
        }
        lastErr := e;
        if attempt < maxRetries {
          backend := backend.(sleeps := backend.sleeps + [2 * attempt]);
        }
        attempt := attempt + 1;
      }
      return Some(Wrap("task processing failed after " + IntToDecimal(maxRetries) + " retries", lastErr));
    }
  }
}
