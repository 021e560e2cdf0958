/** The Kafka consumer: the fetch / handle / commit loop of `Start`, the
    per-message `processMessage`, and `ReadBatch`.

    The broker client, the JSON decoder, the handler and the context are
    collaborators. Their answers come from a `ConsumerEnv` of functions
    indexed by how many calls of that kind came before; what the consumer
    did is recorded in a `ConsumerLog`. */
module Consumer {
  import opened Common
  import opened Entity

  /** A fetched Kafka message: its offset and payload. */
  datatype Message = Message(offset: int, value: Bytes)

  /** The errors a fetch can return; `Canceled` and `DeadlineExceeded`
      are the context package's two sentinel errors. */
  datatype FetchError = Canceled | DeadlineExceeded | BrokerError(e: Error)

  datatype Fetch = Fetched(msg: Message) | FetchFailed(err: FetchError)

  /** What the collaborators answer: `done(n)` is `ctx.Err()` at the n-th
      check of the context (None while it is not done), `fetch(n)` the n-th
      fetch, `unmarshal` the JSON decoder, `handler(n, task)` the n-th
      handler call and `commit(n, m)` the n-th commit. */
  datatype ConsumerEnv = ConsumerEnv(
    done: nat -> Option<FetchError>,
    fetch: nat -> Fetch,
    unmarshal: Bytes -> Result<ProcessingTask>,
    handler: (nat, ProcessingTask) -> Option<Error>,
    commit: (nat, Message) -> Option<Error>)

  /** A handler call: the message, the decoded task and what the handler
      returned. */
  datatype Handled = Handled(msg: Message, task: ProcessingTask, result: Option<Error>)

  /** The recorded calls: context checks, fetch calls, the messages
      fetched, the handler calls, the commit calls and the commits that
      succeeded. */
  datatype ConsumerLog = ConsumerLog(
    checks: nat,
    fetchCalls: nat,
    fetched: seq<Message>,
    handled: seq<Handled>,
    commitCalls: seq<Message>,
    committed: seq<Message>)

  // ---------------------------------------------------------------------
  // One collaborator call each
  // ---------------------------------------------------------------------

  function CheckDone(env: ConsumerEnv, s: ConsumerLog): (ConsumerLog, Option<FetchError>)
  {
    (s.(checks := s.checks + 1), env.done(s.checks))
  }

  function FetchNext(env: ConsumerEnv, s: ConsumerLog): (ConsumerLog, Fetch)
  {
    var r := env.fetch(s.fetchCalls);
    (s.(fetchCalls := s.fetchCalls + 1, fetched := if r.Fetched? then s.fetched + [r.msg] else s.fetched), r)
  }

  function CallHandler(env: ConsumerEnv, s: ConsumerLog, msg: Message, task: ProcessingTask): (ConsumerLog, Option<Error>)
  {
    var r := env.handler(|s.handled|, task);
    (s.(handled := s.handled + [Handled(msg, task, r)]), r)
  }

  function Commit(env: ConsumerEnv, s: ConsumerLog, msg: Message): (ConsumerLog, Option<Error>)
  {
    var r := env.commit(|s.commitCalls|, msg);
    (s.(commitCalls := s.commitCalls + [msg], committed := if r.None? then s.committed + [msg] else s.committed), r)
  }

  // ---------------------------------------------------------------------
  // Start and processMessage as functions
  // ---------------------------------------------------------------------

  /** `processMessage`: decode the payload, then run the handler on the
      task; the handler's error is returned as it is. */
  function ProcessMessage(env: ConsumerEnv, s: ConsumerLog, msg: Message): (ConsumerLog, Option<Error>)
  {
    match env.unmarshal(msg.value)
    case Failure(e) => (s, Some(Wrap("failed to unmarshal task", Some(e))))
    case Success(task) => CallHandler(env, s, msg, task)
  }

  /** What one iteration of `Start`'s loop decides: go on, or return the
      error (None for nil). */
  datatype Next = Continue | Return(err: Option<FetchError>)

  /** One iteration of `Start`: a done context returns its error; a fetch
      that was cancelled or timed out returns nil; any other fetch error
      goes on to the next iteration; a processed message is committed only
      when processing succeeded, and a failed commit is only logged. */
  function Iteration(env: ConsumerEnv, s: ConsumerLog): (ConsumerLog, Next)
  {
    var (s1, done) := CheckDone(env, s);
    if done.Some? then (s1, Return(done))
    else
      var (s2, f) := FetchNext(env, s1);
      if f.FetchFailed? then
        if f.err == Canceled || f.err == DeadlineExceeded then (s2, Return(None)) else (s2, Continue)
      else
        var (s3, err) := ProcessMessage(env, s2, f.msg);
        if err.Some? then (s3, Continue)
        else
          var (s4, _) := Commit(env, s3, f.msg);
          (s4, Continue)
  }

  /** `Start` run for at most `fuel` iterations; `Continue` when it has not
      returned by then. */
  function StartRun(env: ConsumerEnv, s: ConsumerLog, fuel: nat): (ConsumerLog, Next)
    decreases fuel
  {
    if fuel == 0 then (s, Continue)
    else
      var (s1, next) := Iteration(env, s);
      if next.Return? then (s1, next) else StartRun(env, s1, fuel - 1)
  }

  // ---------------------------------------------------------------------
  // ReadBatch as a function
  // ---------------------------------------------------------------------

  /** `ReadBatch` from iteration `i` on, with the list of tasks read so far: at most
      `maxMessages` fetches; a timeout ends the batch without error, any
      other fetch error ends it with that error; an undecodable message is
      skipped uncommitted; every decoded task is committed (a failed commit
      is only logged). */
  function Batch(env: ConsumerEnv, s: ConsumerLog, maxMessages: int, i: int,
                 tasks: seq<ProcessingTask>): (ConsumerLog, seq<ProcessingTask>, Option<FetchError>)
    decreases maxMessages - i
  {
    if i >= maxMessages then (s, tasks, None)
    else
      var (s1, f) := FetchNext(env, s);
      if f.FetchFailed? then
        if f.err == DeadlineExceeded then (s1, tasks, None) else (s1, tasks, Some(f.err))
      else
        match env.unmarshal(f.msg.value)
        case Failure(_) => Batch(env, s1, maxMessages, i + 1, tasks)
        case Success(task) =>
          var (s2, _) := Commit(env, s1, f.msg);
          Batch(env, s2, maxMessages, i + 1, tasks + [task])
  }

  // ---------------------------------------------------------------------
  // Properties
  // ---------------------------------------------------------------------

  /** The messages whose handler call returned nil, in call order. */
  function Succeeded(hs: seq<Handled>): (r: seq<Message>)
    ensures |r| <= |hs|
  {
    if hs == [] then []
    else Succeeded(hs[..|hs| - 1]) + (if hs[|hs| - 1].result.None? then [hs[|hs| - 1].msg] else [])
  }

  /** The fetched messages whose payload decodes, in fetch order. */
  function Decodable(env: ConsumerEnv, ms: seq<Message>): (r: seq<Message>)
    ensures |r| <= |ms|
    ensures forall k :: 0 <= k < |r| ==> env.unmarshal(r[k].value).Success?
  {
    if ms == [] then []
    else Decodable(env, ms[..|ms| - 1]) + (if env.unmarshal(ms[|ms| - 1].value).Success? then [ms[|ms| - 1]] else [])
  }

  /** What the fetched messages that decode decode to, in fetch
      order: one per decodable message. */
  function DecodedTasks(env: ConsumerEnv, ms: seq<Message>): (r: seq<ProcessingTask>)
    ensures |r| == |Decodable(env, ms)|
    ensures forall k :: 0 <= k < |r| ==> r[k] == env.unmarshal(Decodable(env, ms)[k].value).value
  {
    if ms == [] then []
    else
      var m := ms[|ms| - 1];
      DecodedTasks(env, ms[..|ms| - 1]) + (if env.unmarshal(m.value).Success? then [env.unmarshal(m.value).value] else [])
  }

  /** `a` is `b` followed by something. */
  predicate Extends<T(==)>(a: seq<T>, b: seq<T>)
  {
    |b| <= |a| && a[..|b|] == b
  }

  /** One iteration: a done context returns its error before any fetch; a
      fetch error calls no handler and commits nothing; an undecodable
      message calls no handler and commits nothing; otherwise the handler
      runs once on the decoded task and the message is committed exactly
      when the handler returned nil. */
  lemma IterationFacts(env: ConsumerEnv, s: ConsumerLog)
    ensures var (s', next) := Iteration(env, s);
      (env.done(s.checks).Some? ==>
         next == Return(env.done(s.checks)) && s'.fetchCalls == s.fetchCalls)
      && (env.done(s.checks).None? && env.fetch(s.fetchCalls).FetchFailed? ==>
            s'.handled == s.handled && s'.commitCalls == s.commitCalls
            && (next.Return? <==> env.fetch(s.fetchCalls).err in {Canceled, DeadlineExceeded})
            && (next.Return? ==> next.err.None?))
      && (env.done(s.checks).None? && env.fetch(s.fetchCalls).Fetched? ==>
            var msg := env.fetch(s.fetchCalls).msg;
            next == Continue
            && (env.unmarshal(msg.value).Failure? ==> s'.handled == s.handled && s'.commitCalls == s.commitCalls)
            && (env.unmarshal(msg.value).Success? ==>
                  var h := Handled(msg, env.unmarshal(msg.value).value,
                                   env.handler(|s.handled|, env.unmarshal(msg.value).value));
                  s'.handled == s.handled + [h]
                  && s'.commitCalls == s.commitCalls + (if h.result.None? then [msg] else [])))
  {
  }

  /** One iteration adds at most one handler call, and commits its
      message exactly when it returned nil. */
  lemma IterationCommits(env: ConsumerEnv, s: ConsumerLog)
    ensures var s' := Iteration(env, s).0;
      Extends(s'.handled, s.handled) && |s'.handled| <= |s.handled| + 1
      && s'.commitCalls == s.commitCalls + Succeeded(s'.handled[|s.handled|..])
  {
    IterationFacts(env, s);
    var s' := Iteration(env, s).0;
    if |s'.handled| == |s.handled| + 1 {
      assert s'.handled[|s.handled|..] == [s'.handled[|s.handled|]];
    } else {
      assert s'.handled[|s.handled|..] == [];
    }
  }

  /** Commit calls that follow the handler calls in two stretches follow
      them over the whole. */
  lemma HandledConcat(base: seq<Handled>, h1: seq<Handled>, h2: seq<Handled>,
                      c0: seq<Message>, c1: seq<Message>, c2: seq<Message>)
    requires Extends(h1, base) && c1 == c0 + Succeeded(h1[|base|..])
    requires Extends(h2, h1) && c2 == c1 + Succeeded(h2[|h1|..])
    ensures Extends(h2, base) && c2 == c0 + Succeeded(h2[|base|..])
  {
    var mid := h1[|base|..];
    var rest := h2[|h1|..];
    assert h2[..|base|] == h2[..|h1|][..|base|];
    assert h2[|base|..] == mid + rest by {
      assert h2 == h1 + rest;
      assert h1 == base + mid;
    }
    SucceededAppend(mid, rest);
    Assoc(c0, Succeeded(mid), Succeeded(rest));
  }

  /** Over any number of iterations, the commit calls are exactly the
      messages whose handler returned nil, in order; and no commit is made
      for a message that was not handled. */
  lemma {:induction false} CommitIffHandled(env: ConsumerEnv, s: ConsumerLog, fuel: nat)
    ensures var s' := StartRun(env, s, fuel).0;
      Extends(s'.handled, s.handled)
      && s'.commitCalls == s.commitCalls + Succeeded(s'.handled[|s.handled|..])
    decreases fuel
  {
    if fuel == 0 {
      assert s.handled[|s.handled|..] == [];
    } else {
      var (s1, next) := Iteration(env, s);
      IterationCommits(env, s);
      if next.Continue? {
        CommitIffHandled(env, s1, fuel - 1);
        var s' := StartRun(env, s1, fuel - 1).0;
        assert StartRun(env, s, fuel).0 == s';
        HandledConcat(s.handled, s1.handled, s'.handled, s.commitCalls, s1.commitCalls, s'.commitCalls);
      }
    }
  }

  lemma {:induction false} SucceededAppend(a: seq<Handled>, b: seq<Handled>)
    ensures Succeeded(a + b) == Succeeded(a) + Succeeded(b)
    decreases |b|
  {
    if b == [] {
      assert a + b == a;
    } else {
      assert (a + b)[..|a + b| - 1] == a + b[..|b| - 1];
      SucceededAppend(a, b[..|b| - 1]);
    }
  }

  /** `ReadBatch` fetches at most `maxMessages` times, each fetch adding at
      most one message, and calls no handler; its error is the last fetch's
      error, and never a timeout. */
  lemma {:induction false} BatchFrame(env: ConsumerEnv, s: ConsumerLog, maxMessages: int, i: int,
                                      tasks: seq<ProcessingTask>)
    ensures var (s', _, err) := Batch(env, s, maxMessages, i, tasks);
      Extends(s'.fetched, s.fetched)
      && |s'.fetched| - |s.fetched| <= s'.fetchCalls - s.fetchCalls
      && s.fetchCalls <= s'.fetchCalls
      && s'.fetchCalls - s.fetchCalls <= (if i < maxMessages then maxMessages - i else 0)
      && s'.handled == s.handled
      && (err.Some? ==> err.value != DeadlineExceeded && s'.fetchCalls > s.fetchCalls
                        && env.fetch(s'.fetchCalls - 1) == FetchFailed(err.value))
    decreases maxMessages - i
  {
    if i < maxMessages {
      var (s1, f) := FetchNext(env, s);
      if f.Fetched? {
        var msg := f.msg;
        var s2 := if env.unmarshal(msg.value).Success? then Commit(env, s1, msg).0 else s1;
        var tasks2 := if env.unmarshal(msg.value).Success? then tasks + [env.unmarshal(msg.value).value] else tasks;
        assert Batch(env, s, maxMessages, i, tasks) == Batch(env, s2, maxMessages, i + 1, tasks2);
        BatchFrame(env, s2, maxMessages, i + 1, tasks2);
        var s' := Batch(env, s2, maxMessages, i + 1, tasks2).0;
        assert s'.fetched[..|s.fetched|] == s'.fetched[..|s2.fetched|][..|s.fetched|];
      }
    }
  }

  /** One fetched message: it is added to the fetched messages, and
      decoded it is appended to the decoded tasks and committed. */
  lemma BatchStep(env: ConsumerEnv, s: ConsumerLog, maxMessages: int, i: int, tasks: seq<ProcessingTask>)
    returns (s2: ConsumerLog, tasks2: seq<ProcessingTask>)
    requires i < maxMessages && env.fetch(s.fetchCalls).Fetched?
    ensures var msg := env.fetch(s.fetchCalls).msg;
      var ok := env.unmarshal(msg.value).Success?;
      Batch(env, s, maxMessages, i, tasks) == Batch(env, s2, maxMessages, i + 1, tasks2)
      && s2.fetched == s.fetched + [msg]
      && tasks2 == tasks + (if ok then [env.unmarshal(msg.value).value] else [])
      && s2.commitCalls == s.commitCalls + (if ok then [msg] else [])
  {
    var msg := env.fetch(s.fetchCalls).msg;
    var s1 := FetchNext(env, s).0;
    if env.unmarshal(msg.value).Success? {
      s2 := Commit(env, s1, msg).0;
      tasks2 := tasks + [env.unmarshal(msg.value).value];
    } else {
      s2 := s1;
      tasks2 := tasks;
    }
  }

  /** A batch that is over, or whose next fetch fails, fetches no
      message, decodes no task and commits nothing more. */
  lemma BatchStop(env: ConsumerEnv, s: ConsumerLog, maxMessages: int, i: int, tasks: seq<ProcessingTask>)
    requires !(i < maxMessages && env.fetch(s.fetchCalls).Fetched?)
    ensures var (s', tasks', _) := Batch(env, s, maxMessages, i, tasks);
      s'.fetched == s.fetched && s'.commitCalls == s.commitCalls && tasks' == tasks
      && s'.fetched[|s.fetched|..] == []
  {
  }

  /** `ReadBatch` returns the decoded tasks of the fetched messages that
      decode, in fetch order. */
  lemma {:induction false} BatchTasks(env: ConsumerEnv, s: ConsumerLog, maxMessages: int, i: int,
                                      tasks: seq<ProcessingTask>)
    ensures |s.fetched| <= |Batch(env, s, maxMessages, i, tasks).0.fetched|
    ensures var (s', tasks', _) := Batch(env, s, maxMessages, i, tasks);
      tasks' == tasks + DecodedTasks(env, s'.fetched[|s.fetched|..])
    decreases maxMessages - i
  {
    if i < maxMessages && env.fetch(s.fetchCalls).Fetched? {
      var msg := env.fetch(s.fetchCalls).msg;
      var s2, tasks2 := BatchStep(env, s, maxMessages, i, tasks);
      BatchTasks(env, s2, maxMessages, i + 1, tasks2);
      BatchFrame(env, s2, maxMessages, i + 1, tasks2);
      var (s', tasks', _) := Batch(env, s2, maxMessages, i + 1, tasks2);
      ConsStep(env, s.fetched, s'.fetched, msg);
      var head := if env.unmarshal(msg.value).Success? then [env.unmarshal(msg.value).value] else [];
      var tail := DecodedTasks(env, s'.fetched[|s.fetched| + 1..]);
      assert tasks' == tasks2 + tail;
      Assoc(tasks, head, tail);
    } else {
      BatchStop(env, s, maxMessages, i, tasks);
    }
  }

  /** Exactly the fetched messages that decode are committed, in fetch
      order: an undecodable message is skipped uncommitted. */
  lemma {:induction false} BatchCommits(env: ConsumerEnv, s: ConsumerLog, maxMessages: int, i: int,
                                        tasks: seq<ProcessingTask>)
    ensures |s.fetched| <= |Batch(env, s, maxMessages, i, tasks).0.fetched|
    ensures var s' := Batch(env, s, maxMessages, i, tasks).0;
      s'.commitCalls == s.commitCalls + Decodable(env, s'.fetched[|s.fetched|..])
    decreases maxMessages - i
  {
    if i < maxMessages && env.fetch(s.fetchCalls).Fetched? {
      var msg := env.fetch(s.fetchCalls).msg;
      var s2, tasks2 := BatchStep(env, s, maxMessages, i, tasks);
      BatchCommits(env, s2, maxMessages, i + 1, tasks2);
      BatchFrame(env, s2, maxMessages, i + 1, tasks2);
      var s' := Batch(env, s2, maxMessages, i + 1, tasks2).0;
      ConsStep(env, s.fetched, s'.fetched, msg);
      var head := if env.unmarshal(msg.value).Success? then [msg] else [];
      var tail := Decodable(env, s'.fetched[|s.fetched| + 1..]);
      assert s'.commitCalls == s2.commitCalls + tail;
      Assoc(s.commitCalls, head, tail);
    } else {
      BatchStop(env, s, maxMessages, i, tasks);
    }
  }

  /** The messages fetched from one point on are the next message followed
      by the ones fetched after it, and the decodable ones split alike. */
  lemma ConsStep(env: ConsumerEnv, before: seq<Message>, after: seq<Message>, msg: Message)
    requires Extends(after, before + [msg])
    ensures |before| <= |after|
    ensures after[|before|..] == [msg] + after[|before| + 1..]
    ensures Decodable(env, after[|before|..])
      == (if env.unmarshal(msg.value).Success? then [msg] else []) + Decodable(env, after[|before| + 1..])
    ensures DecodedTasks(env, after[|before|..])
      == (if env.unmarshal(msg.value).Success? then [env.unmarshal(msg.value).value] else [])
         + DecodedTasks(env, after[|before| + 1..])
  {
    var rest := after[|before| + 1..];
    assert after == before + [msg] + rest;
    assert after[|before|..] == [msg] + rest;
    DecodableCons(env, msg, rest);
    DecodedTasksCons(env, msg, rest);
    assert [msg][..0] == [];
  }

  lemma {:induction false} DecodableCons(env: ConsumerEnv, m: Message, ms: seq<Message>)
    ensures Decodable(env, [m] + ms) == Decodable(env, [m]) + Decodable(env, ms)
    decreases |ms|
  {
    if ms == [] {
      assert [m] + ms == [m];
    } else {
      assert ([m] + ms)[..|[m] + ms| - 1] == [m] + ms[..|ms| - 1];
      DecodableCons(env, m, ms[..|ms| - 1]);
    }
  }

  lemma {:induction false} DecodedTasksCons(env: ConsumerEnv, m: Message, ms: seq<Message>)
    ensures DecodedTasks(env, [m] + ms) == DecodedTasks(env, [m]) + DecodedTasks(env, ms)
    decreases |ms|
  {
    if ms == [] {
      assert [m] + ms == [m];
    } else {
      assert ([m] + ms)[..|[m] + ms| - 1] == [m] + ms[..|ms| - 1];
      DecodedTasksCons(env, m, ms[..|ms| - 1]);
    }
  }

  /** `ReadBatch` returns at most `maxMessages` tasks (none for a zero
      bound), every one of them committed. A negative bound makes the
      task slice's allocation panic, so the caller must not pass one. */
  lemma ReadBatchBound(env: ConsumerEnv, s: ConsumerLog, maxMessages: int)
    requires maxMessages >= 0
    ensures var (s', tasks, _) := Batch(env, s, maxMessages, 0, []);
      |tasks| <= maxMessages
      && |s'.commitCalls| - |s.commitCalls| == |tasks|
  {
    BatchFrame(env, s, maxMessages, 0, []);
    BatchTasks(env, s, maxMessages, 0, []);
    BatchCommits(env, s, maxMessages, 0, []);
  }

  // ---------------------------------------------------------------------
  // The consumer
  // ---------------------------------------------------------------------

  class KafkaConsumer {
    const env: ConsumerEnv
    var log: ConsumerLog

    constructor (env: ConsumerEnv, log: ConsumerLog)
      ensures this.env == env && this.log == log
    {
      this.env := env;
      this.log := log;
    }

    method Done() returns (r: Option<FetchError>)
      modifies this`log
      ensures (log, r) == CheckDone(env, old(log))
    {
      r := env.done(log.checks);
      log := log.(checks := log.checks + 1);
    }

    method FetchMessage() returns (r: Fetch)
      modifies this`log
      ensures (log, r) == FetchNext(env, old(log))
    {
      r := env.fetch(log.fetchCalls);
      log := log.(fetchCalls := log.fetchCalls + 1);
      if r.Fetched? {
        log := log.(fetched := log.fetched + [r.msg]);
      }
    }

    method CommitMessage(msg: Message) returns (r: Option<Error>)
      modifies this`log
      ensures (log, r) == Commit(env, old(log), msg)
    {
      r := env.commit(|log.commitCalls|, msg);
      log := log.(commitCalls := log.commitCalls + [msg]);
      if r.None? {
        log := log.(committed := log.committed + [msg]);
      }
    }

    /** `processMessage`. */
    method ProcessOne(msg: Message) returns (err: Option<Error>)
      modifies this`log
      ensures (log, err) == ProcessMessage(env, old(log), msg)
    {
      var decoded := env.unmarshal(msg.value);
      if decoded.Failure? {
        return Some(Wrap("failed to unmarshal task", Some(decoded.error)));
      }
      err := env.handler(|log.handled|, decoded.value);
      log := log.(handled := log.handled + [Handled(msg, decoded.value, err)]);
    }

    /** One iteration of `Start`'s loop. */
    method StartStep() returns (next: Next)
      modifies this`log
      ensures (log, next) == Iteration(env, old(log))
    {
      var done := Done();
      if done.Some? {
        return Return(done);
      }
      var f := FetchMessage();
      if f.FetchFailed? {
        if f.err == Canceled || f.err == DeadlineExceeded {
          return Return(None);
        }
        return Continue;
      }
      var err := ProcessOne(f.msg);
      if err.Some? {
        return Continue;
      }
      var _ := CommitMessage(f.msg);
      return Continue;
    }

    /** `Start`, for at most `fuel` iterations of its loop. */
    method Start(fuel: nat) returns (next: Next)
      modifies this`log
      ensures (log, next) == StartRun(env, old(log), fuel)
    {
      var k := 0;
      while k < fuel
        invariant 0 <= k <= fuel
        invariant StartRun(env, old(log), fuel) == StartRun(env, log, fuel - k)
      {
        next := StartStep();
        if next.Return? {
          return;
        }
        k := k + 1;
      }
      return Continue;
    }

    /** `ReadBatch`; a negative bound panics in the slice allocation. */
    method ReadBatch(maxMessages: int) returns (tasks: seq<ProcessingTask>, err: Option<FetchError>)
      requires maxMessages >= 0
      modifies this`log
      ensures (log, tasks, err) == Batch(env, old(log), maxMessages, 0, [])
    {
      tasks := [];
      var i := 0;
      while i < maxMessages
        invariant i >= 0
        invariant Batch(env, old(log), maxMessages, 0, []) == Batch(env, log, maxMessages, i, tasks)
        decreases maxMessages - i
      {
        var f := FetchMessage();
        if f.FetchFailed? {
          if f.err == DeadlineExceeded {
            return tasks, None;
          }
          return tasks, Some(f.err);
        }
        var decoded := env.unmarshal(f.msg.value);
        if decoded.Failure? {
          i := i + 1;
          continue;
        }
        tasks := tasks + [decoded.value];
        var _ := CommitMessage(f.msg);
        i := i + 1;
      }
      return tasks, None;
    }
  }
}
