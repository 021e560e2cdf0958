/** The Kafka producer: `PublishProcessingTask` and `PublishBatch`.

    The JSON encoder and the broker writer are collaborators, given as the
    functions of a `ProducerEnv`; the model records every message list
    handed to the writer. */
module Producer {
  import opened Common
  import opened Entity

  /** A Kafka record header. */
  datatype Header = Header(key: string, value: Bytes)

  /** A Kafka record as the producer builds it. */
  datatype KafkaMessage = KafkaMessage(key: Bytes, value: Bytes, headers: seq<Header>)

  /** `marshal` is `json.Marshal` of a task; `write(n, ms)` is what the n-th
      `WriteMessages` call returns for the messages `ms`. */
  datatype ProducerEnv = ProducerEnv(
    marshal: ProcessingTask -> Result<Bytes>,
    write: (nat, seq<KafkaMessage>) -> Option<Error>)

  const TaskIdHeader := "task-id"
  const ImageIdHeader := "image-id"

  /** The record for a task: keyed by the image id so that every task of an
      image lands in the same partition, with the serialised task as value
      and a task id and an image id as headers. */
  function BuildMessage(task: ProcessingTask, json: Bytes): KafkaMessage
  {
    KafkaMessage(Utf8Bytes(task.imageId), json,
                 [Header(TaskIdHeader, Utf8Bytes(task.id)), Header(ImageIdHeader, Utf8Bytes(task.imageId))])
  }

  /** The value of the first header with the given key. */
  function HeaderValue(hs: seq<Header>, key: string): Option<Bytes>
  {
    if hs == [] then None
    else if hs[0].key == key then Some(hs[0].value)
    else HeaderValue(hs[1..], key)
  }

  /** One `WriteMessages` call, recorded with the messages it was given. */
  function Write(env: ProducerEnv, writes: seq<seq<KafkaMessage>>, ms: seq<KafkaMessage>)
    : (seq<seq<KafkaMessage>>, Option<Error>)
  {
    (writes + [ms], env.write(|writes|, ms))
  }

  /** `PublishProcessingTask`. */
  function Publish(env: ProducerEnv, writes: seq<seq<KafkaMessage>>, task: ProcessingTask)
    : (seq<seq<KafkaMessage>>, Option<Error>)
  {
    match env.marshal(task)
    case Failure(e) => (writes, Some(Wrap("failed to marshal task", Some(e))))
    case Success(json) =>
      var (w, err) := Write(env, writes, [BuildMessage(task, json)]);
      if err.Some? then (w, Some(Wrap("failed to publish message", err))) else (w, None)
  }

  /** The messages `PublishBatch` collects: one per task that serialises,
      in task order; a task whose serialisation fails is skipped. */
  function BatchMessages(env: ProducerEnv, tasks: seq<ProcessingTask>): (r: seq<KafkaMessage>)
    ensures |r| <= |tasks|
  {
    if tasks == [] then []
    else
      var t := tasks[|tasks| - 1];
      var front := BatchMessages(env, tasks[..|tasks| - 1]);
      match env.marshal(t)
      case Failure(_) => front
      case Success(json) => front + [BuildMessage(t, json)]
  }

  /** The message built for a task, when it serialises. */
  function MessageFor(env: ProducerEnv, t: ProcessingTask): Option<KafkaMessage>
  {
    if env.marshal(t).Success? then Some(BuildMessage(t, env.marshal(t).value)) else None
  }

  /** `PublishBatch`: an empty batch writes nothing; otherwise the collected
      messages, possibly none, go out in one write. */
  function PublishAll(env: ProducerEnv, writes: seq<seq<KafkaMessage>>, tasks: seq<ProcessingTask>)
    : (seq<seq<KafkaMessage>>, Option<Error>)
  {
    if |tasks| == 0 then (writes, None)
    else
      var (w, err) := Write(env, writes, BatchMessages(env, tasks));
      if err.Some? then (w, Some(Wrap("failed to publish batch", err))) else (w, None)
  }

  // ---------------------------------------------------------------------
  // Properties
  // ---------------------------------------------------------------------

  /** A record carries a task id and an image id in its headers, in that
      order, and its key is the image id header's value. */
  lemma MessageShape(task: ProcessingTask, json: Bytes)
    ensures var m := BuildMessage(task, json);
      m.value == json
      && [m.headers[0].key, m.headers[1].key] == [TaskIdHeader, ImageIdHeader] && |m.headers| == 2
      && HeaderValue(m.headers, TaskIdHeader) == Some(Utf8Bytes(task.id))
      && HeaderValue(m.headers, ImageIdHeader) == Some(m.key)
      && |m.key| == Utf8Length(task.imageId)
  {
    var m := BuildMessage(task, json);
    assert m.headers[1..] == [Header(ImageIdHeader, Utf8Bytes(task.imageId))];
  }

  /** A single publish writes nothing when serialisation fails, and
      otherwise exactly one record, built from the serialised task; the
      result is nil exactly when that write succeeds. */
  lemma PublishOutcome(env: ProducerEnv, writes: seq<seq<KafkaMessage>>, task: ProcessingTask)
    ensures var (w, err) := Publish(env, writes, task);
      if env.marshal(task).Failure? then
        w == writes && err == Some(Wrap("failed to marshal task", Some(env.marshal(task).error)))
      else
        var m := BuildMessage(task, env.marshal(task).value);
        w == writes + [[m]]
        && (err.None? <==> env.write(|writes|, [m]).None?)
        && (err.Some? ==> err == Some(Wrap("failed to publish message", env.write(|writes|, [m]))))
  {
  }

  /** The batch holds exactly the messages of those tasks that serialise:
      every message comes from such a task, and every such task has its
      message in the batch. */
  lemma BatchMembership(env: ProducerEnv, tasks: seq<ProcessingTask>)
    ensures forall m :: m in BatchMessages(env, tasks) <==>
      exists j :: 0 <= j < |tasks| && MessageFor(env, tasks[j]) == Some(m)
  {
    forall m
      ensures m in BatchMessages(env, tasks) <==>
        exists j :: 0 <= j < |tasks| && MessageFor(env, tasks[j]) == Some(m)
    {
      if m in BatchMessages(env, tasks) {
        var j := BatchSource(env, tasks, m);
      }
      if exists j :: 0 <= j < |tasks| && MessageFor(env, tasks[j]) == Some(m) {
        var j :| 0 <= j < |tasks| && MessageFor(env, tasks[j]) == Some(m);
        BatchIncludes(env, tasks, j);
      }
    }
  }

  /** Every message of the batch comes from one of its tasks. */
  lemma {:induction false} BatchSource(env: ProducerEnv, tasks: seq<ProcessingTask>, m: KafkaMessage)
    returns (j: nat)
    requires m in BatchMessages(env, tasks)
    ensures j < |tasks| && MessageFor(env, tasks[j]) == Some(m)
    decreases |tasks|
  {
    var init := tasks[..|tasks| - 1];
    var last := BatchLast(env, tasks);
    if m in BatchMessages(env, init) {
      j := BatchSource(env, init, m);
      assert tasks[j] == init[j];
    } else {
      assert m in last;
      j := |tasks| - 1;
    }
  }

  /** Every task that serialises has its message in the batch. */
  lemma {:induction false} BatchIncludes(env: ProducerEnv, tasks: seq<ProcessingTask>, j: nat)
    requires j < |tasks| && MessageFor(env, tasks[j]).Some?
    ensures MessageFor(env, tasks[j]).value in BatchMessages(env, tasks)
    decreases |tasks|
  {
    var init := tasks[..|tasks| - 1];
    var last := BatchLast(env, tasks);
    if j < |init| {
      assert init[j] == tasks[j];
      BatchIncludes(env, init, j);
    } else {
      assert last == [MessageFor(env, tasks[j]).value];
    }
  }

  /** The batch of a non-empty run is the batch of all but its last task,
      followed by that task's message when it serialises. */
  lemma BatchLast(env: ProducerEnv, tasks: seq<ProcessingTask>) returns (last: seq<KafkaMessage>)
    requires tasks != []
    ensures last == if MessageFor(env, tasks[|tasks| - 1]).Some? then [MessageFor(env, tasks[|tasks| - 1]).value] else []
    ensures BatchMessages(env, tasks) == BatchMessages(env, tasks[..|tasks| - 1]) + last
  {
    var t := tasks[|tasks| - 1];
    last := if MessageFor(env, t).Some? then [MessageFor(env, t).value] else [];
  }

  /** Collecting over two runs of tasks is collecting over each in turn:
      the messages keep the order of their tasks. */
  lemma {:induction false} BatchMessagesAppend(env: ProducerEnv, a: seq<ProcessingTask>, b: seq<ProcessingTask>)
    ensures BatchMessages(env, a + b) == BatchMessages(env, a) + BatchMessages(env, b)
    decreases |b|
  {
    if b == [] {
      assert a + b == a;
    } else {
      var b' := b[..|b| - 1];
      assert (a + b)[..|a + b| - 1] == a + b';
      assert (a + b)[|a + b| - 1] == b[|b| - 1];
      BatchMessagesAppend(env, a, b');
    }
  }

  /** When every task serialises, the batch has one message per task, the
      k-th built from the k-th task. */
  lemma {:induction false} BatchMessagesAll(env: ProducerEnv, tasks: seq<ProcessingTask>)
    requires forall j :: 0 <= j < |tasks| ==> env.marshal(tasks[j]).Success?
    ensures |BatchMessages(env, tasks)| == |tasks|
    ensures forall k :: 0 <= k < |tasks| ==>
      BatchMessages(env, tasks)[k] == BuildMessage(tasks[k], env.marshal(tasks[k]).value)
    decreases |tasks|
  {
    if tasks != [] {
      var init := tasks[..|tasks| - 1];
      assert forall j :: 0 <= j < |init| ==> init[j] == tasks[j];
      BatchMessagesAll(env, init);
      var r := BatchMessages(env, tasks);
      assert r == BatchMessages(env, init) + [BuildMessage(tasks[|init|], env.marshal(tasks[|init|]).value)];
    }
  }

  /** When no task serialises the batch is empty; `PublishBatch` still
      makes its one write, with no messages. */
  lemma {:induction false} BatchMessagesNone(env: ProducerEnv, tasks: seq<ProcessingTask>)
    requires forall j :: 0 <= j < |tasks| ==> env.marshal(tasks[j]).Failure?
    ensures BatchMessages(env, tasks) == []
    ensures |tasks| > 0 ==> PublishAll(env, [], tasks).0 == [[]]
    decreases |tasks|
  {
    if tasks != [] {
      var init := tasks[..|tasks| - 1];
      assert forall j :: 0 <= j < |init| ==> init[j] == tasks[j];
      BatchMessagesNone(env, init);
    }
  }

  /** An empty batch returns nil without writing; any other batch makes
      exactly one write, of the collected messages, and fails exactly when
      that write fails. */
  lemma PublishAllOutcome(env: ProducerEnv, writes: seq<seq<KafkaMessage>>, tasks: seq<ProcessingTask>)
    ensures tasks == [] ==> PublishAll(env, writes, tasks) == (writes, None)
    ensures tasks != [] ==>
      var (w, err) := PublishAll(env, writes, tasks);
      var ms := BatchMessages(env, tasks);
      w == writes + [ms]
      && (err.None? <==> env.write(|writes|, ms).None?)
      && (err.Some? ==> err == Some(Wrap("failed to publish batch", env.write(|writes|, ms))))
  {
  }

  // ---------------------------------------------------------------------
  // The producer
  // ---------------------------------------------------------------------

  class KafkaProducer {
    const env: ProducerEnv
    /** The message lists handed to `WriteMessages`, in call order. */
    var writes: seq<seq<KafkaMessage>>

    constructor (env: ProducerEnv)
      ensures this.env == env && writes == []
    {
      this.env := env;
      writes := [];
    }

    method WriteMessages(ms: seq<KafkaMessage>) returns (err: Option<Error>)
      modifies this`writes
      ensures (writes, err) == Write(env, old(writes), ms)
    {
      err := env.write(|writes|, ms);
      writes := writes + [ms];
    }

    method PublishProcessingTask(task: ProcessingTask) returns (err: Option<Error>)
      modifies this`writes
      ensures (writes, err) == Publish(env, old(writes), task)
    {
      var json := env.marshal(task);
      if json.Failure? {
        return Some(Wrap("failed to marshal task", Some(json.error)));
      }
      err := WriteMessages([BuildMessage(task, json.value)]);
      if err.Some? {
        return Some(Wrap("failed to publish message", err));
      }
    }

    method PublishBatch(tasks: seq<ProcessingTask>) returns (err: Option<Error>)
      modifies this`writes
      ensures (writes, err) == PublishAll(env, old(writes), tasks)
    {
      if |tasks| == 0 {
        return None;
      }
      var messages: seq<KafkaMessage> := [];
      for i := 0 to |tasks|
        invariant messages == BatchMessages(env, tasks[..i])
      {
        assert tasks[..i + 1][..i] == tasks[..i];
        var json := env.marshal(tasks[i]);
        if json.Failure? {
          continue;
        }
        messages := messages + [BuildMessage(tasks[i], json.value)];
      }
      assert tasks[..|tasks|] == tasks;
      err := WriteMessages(messages);
      if err.Some? {
        return Some(Wrap("failed to publish batch", err));
      }
    }
  }
}
