/** The S3 client's own logic: the retrying upload, the empty-object check
    of a download and the classification of a failed stat. The minio client
    is a collaborator whose answers come from an `S3Env`. */
module S3 {
  import opened Common

  /** `UploadFile` makes at most this many `PutObject` calls. */
  const MaxRetries := 5

  /** The error code minio reports for a missing object. */
  const NoSuchKey := "NoSuchKey"

  /** A minio error: its response code and its text. */
  datatype S3Error = S3Error(code: string, message: string)

  /** `put(n)` is the n-th `PutObject`'s error, `seek(n)` the n-th rewind's;
      `getObject`, `read` and `stat` answer per object key. */
  datatype S3Env = S3Env(
    put: nat -> Option<Error>,
    seek: nat -> Option<Error>,
    getObject: string -> Option<Error>,
    read: string -> Result<Bytes>,
    stat: string -> Option<S3Error>)

  datatype PutCall = PutCall(key: string, size: int, contentType: string)

  /** The upload calls made: puts, rewinds of the reader and the seconds
      slept before each retry. */
  datatype S3Log = S3Log(puts: seq<PutCall>, seeks: nat, sleeps: seq<int>)

  function Put(env: S3Env, s: S3Log, p: PutCall): (S3Log, Option<Error>)
  {
    (s.(puts := s.puts + [p]), env.put(|s.puts|))
  }

  /** The rewind before a retry, made only when the reader can seek. */
  function Rewind(env: S3Env, s: S3Log, seekable: bool): (S3Log, Option<Error>)
  {
    if seekable then (s.(seeks := s.seeks + 1), env.seek(s.seeks)) else (s, None)
  }

  /** How one attempt of the upload loop ends: with the function's
      result, or by going on to the next attempt. */
  datatype Step = Stop(err: Option<Error>) | Again

  /** One attempt of `UploadFile`'s loop. Before every attempt after the
      first the reader is rewound and the loop sleeps attempt² seconds; a
      successful put stops with nil, and a failed put of the fifth attempt
      stops with that error. */
  function Attempt(env: S3Env, s: S3Log, p: PutCall, seekable: bool, attempt: nat): (S3Log, Step)
    requires 1 <= attempt <= MaxRetries
  {
    var (s1, seekErr) := if attempt > 1 then Rewind(env, s, seekable) else (s, None);
    if seekErr.Some? then (s1, Stop(Some(Wrap("failed to seek data for retry", seekErr))))
    else
      var s2 := if attempt > 1 then s1.(sleeps := s1.sleeps + [attempt * attempt]) else s1;
      var (s3, err) := Put(env, s2, p);
      if err.None? then (s3, Stop(None))
      else if attempt == MaxRetries then (s3, Stop(Some(Wrap("failed to upload file to S3 after 5 attempts", err))))
      else (s3, Again)
  }

  /** `UploadFile`'s loop from `attempt` on. */
  function Upload(env: S3Env, s: S3Log, p: PutCall, seekable: bool, attempt: nat): (S3Log, Option<Error>)
    requires attempt >= 1
    decreases MaxRetries + 1 - attempt
  {
    if attempt > MaxRetries then (s, Some(Leaf("failed to upload file to S3 after 5 attempts")))
    else
      var (s1, step) := Attempt(env, s, p, seekable, attempt);
      if step.Stop? then (s1, step.err) else Upload(env, s1, p, seekable, attempt + 1)
  }

  /** One attempt puts at most once; without a put it was a failed rewind,
      with one it slept first when it was a retry, and it goes on exactly
      when its put failed before the fifth attempt. The loop then stops
      with the attempt's error or continues from the attempt's log. */
  lemma UploadStep(env: S3Env, s: S3Log, p: PutCall, seekable: bool, attempt: nat)
    returns (s1: S3Log, step: Step)
    requires 1 <= attempt <= MaxRetries
    ensures (s1, step) == Attempt(env, s, p, seekable, attempt)
    ensures step.Stop? ==> Upload(env, s, p, seekable, attempt) == (s1, step.err)
    ensures step.Again? ==> Upload(env, s, p, seekable, attempt) == Upload(env, s1, p, seekable, attempt + 1)
    ensures var put := |s1.puts| == |s.puts| + 1;
      (put || s1.puts == s.puts)
      && (put ==> s1.puts == s.puts + [p])
      && s1.sleeps == s.sleeps + (if put && attempt > 1 then [attempt * attempt] else [])
      && (!seekable ==> s1.seeks == s.seeks)
      && (!put ==> attempt > 1 && seekable && s1.seeks == s.seeks + 1
                   && step == Stop(Some(Wrap("failed to seek data for retry", env.seek(s.seeks)))))
      && (put ==> (step == Stop(None) <==> env.put(|s.puts|).None?))
      && (put ==> (step.Again? <==> env.put(|s.puts|).Some? && attempt < MaxRetries))
      && (put && attempt == MaxRetries && env.put(|s.puts|).Some? ==>
            step == Stop(Some(Wrap("failed to upload file to S3 after 5 attempts", env.put(|s.puts|)))))
  {
    var r := Attempt(env, s, p, seekable, attempt);
    s1, step := r.0, r.1;
  }

  /** The sleeps before attempts `lo` to `hi`: lo² up to hi². */
  function Squares(lo: int, hi: int): (r: seq<int>)
    ensures |r| == if lo <= hi then hi - lo + 1 else 0
    decreases hi + 1 - lo
  {
    if lo > hi then [] else [lo * lo] + Squares(lo + 1, hi)
  }

  /** `DownloadFile`: a failed get or read is an error, and so is an
      object with no bytes. */
  function Download(got: Option<Error>, read: Result<Bytes>): (r: Result<Bytes>)
    ensures r.Success? <==> got.None? && read.Success? && |read.value| > 0
    ensures r.Success? ==> r.value == read.value
    ensures got.None? && read.Success? && |read.value| == 0 ==> r == Failure(Leaf("object is empty"))
  {
    if got.Some? then Failure(Wrap("failed to get object from S3", got))
    else if read.Failure? then Failure(Wrap("failed to read object", Some(read.error)))
    else if |read.value| == 0 then Failure(Leaf("object is empty"))
    else Success(read.value)
  }

  /** `FileExists`: a successful stat means present, a `NoSuchKey` error
      means absent, and any other error is passed on wrapped. */
  function Exists(stat: Option<S3Error>): (r: (bool, Option<Error>))
    ensures r.0 <==> stat.None?
    ensures r.1.None? <==> stat.None? || stat.value.code == NoSuchKey
    ensures r.1.Some? ==> r.1.value.Wrap? && r.1.value.context == "failed to check file existence"
  {
    if stat.None? then (true, None)
    else if stat.value.code == NoSuchKey then (false, None)
    else (false, Some(Wrap("failed to check file existence", Some(Leaf(stat.value.message)))))
  }

  // ---------------------------------------------------------------------
  // Properties of the upload loop
  // ---------------------------------------------------------------------

  /** The loop from `attempt` makes at most `6 - attempt` puts, all of the
      same object, and at least one when it starts at the first attempt. A
      reader that cannot seek is never rewound. */
  lemma {:induction false} UploadPuts(env: S3Env, s: S3Log, p: PutCall, seekable: bool, attempt: nat)
    requires 1 <= attempt <= MaxRetries
    ensures var s' := Upload(env, s, p, seekable, attempt).0;
      |s.puts| <= |s'.puts| <= |s.puts| + MaxRetries + 1 - attempt
      && (attempt == 1 ==> |s.puts| < |s'.puts|)
      && s'.puts[..|s.puts|] == s.puts
      && (forall k :: |s.puts| <= k < |s'.puts| ==> s'.puts[k] == p)
      && (!seekable ==> s'.seeks == s.seeks)
    decreases MaxRetries + 1 - attempt
  {
    var s1, step := UploadStep(env, s, p, seekable, attempt);
    if step.Again? {
      UploadPuts(env, s1, p, seekable, attempt + 1);
      var s' := Upload(env, s1, p, seekable, attempt + 1).0;
      assert s'.puts[..|s.puts|] == s'.puts[..|s1.puts|][..|s.puts|];
    }
  }

  /** What one attempt adds to the puts and the sleeps, and whether the
      loop goes on from its log. */
  lemma SleepStep(env: S3Env, s: S3Log, p: PutCall, seekable: bool, attempt: nat)
    returns (s1: S3Log, again: bool)
    requires 1 <= attempt <= MaxRetries
    ensures again ==> attempt < MaxRetries && |s1.puts| == |s.puts| + 1
                      && Upload(env, s, p, seekable, attempt).0 == Upload(env, s1, p, seekable, attempt + 1).0
    ensures !again ==> Upload(env, s, p, seekable, attempt).0 == s1
                       && |s.puts| <= |s1.puts| <= |s.puts| + 1
    ensures s1.sleeps == s.sleeps + (if |s1.puts| == |s.puts| + 1 && attempt > 1 then [attempt * attempt] else [])
  {
    var step;
    s1, step := UploadStep(env, s, p, seekable, attempt);
    again := step.Again?;
  }

  /** Every retry that reaches its put has slept attempt² seconds before
      it, so the sleeps are the squares up to the last attempt that put. */
  lemma {:induction false} UploadSleeps(env: S3Env, s: S3Log, p: PutCall, seekable: bool, attempt: nat)
    requires 1 <= attempt <= MaxRetries
    ensures var s' := Upload(env, s, p, seekable, attempt).0;
      |s.puts| <= |s'.puts|
      && s'.sleeps == s.sleeps + Squares(FirstSleep(attempt), attempt + |s'.puts| - |s.puts| - 1)
    decreases MaxRetries + 1 - attempt
  {
    var s1, again := SleepStep(env, s, p, seekable, attempt);
    if again {
      UploadSleeps(env, s1, p, seekable, attempt + 1);
      var s' := Upload(env, s1, p, seekable, attempt + 1).0;
      var hi := attempt + 1 + |s'.puts| - |s1.puts| - 1;
      assert s'.sleeps == s1.sleeps + Squares(FirstSleep(attempt + 1), hi);
      assert FirstSleep(attempt + 1) == attempt + 1;
      if attempt > 1 {
        var sq := attempt * attempt;
        var rest := Squares(attempt + 1, hi);
        assert s1.sleeps == s.sleeps + [sq];
        assert s'.sleeps == (s.sleeps + [sq]) + rest;
        assert Squares(attempt, hi) == [sq] + rest;
        Assoc(s.sleeps, [sq], rest);
        assert s'.sleeps == s.sleeps + Squares(FirstSleep(attempt), hi);
      } else {
        assert s1.sleeps == s.sleeps;
        assert s'.sleeps == s.sleeps + Squares(FirstSleep(attempt), hi);
      }
    } else {
      var n := |s1.puts| - |s.puts|;
      if n == 0 {
        assert Squares(FirstSleep(attempt), attempt - 1) == [];
      } else if attempt > 1 {
        assert Squares(attempt, attempt) == [attempt * attempt];
      } else {
        assert Squares(2, 1) == [];
      }
      assert s1.sleeps == s.sleeps + Squares(FirstSleep(attempt), attempt + n - 1);
    }
  }

  /** The first attempt whose sleep is counted from `attempt` on: the first
      attempt does not sleep. */
  function FirstSleep(attempt: nat): nat
  {
    if attempt == 1 then 2 else attempt
  }

  /** How the loop from `attempt` ends: it returns nil exactly when its
      last put succeeds, every earlier put having failed; otherwise either
      a rewind failed, which is returned at once, or the put of the fifth
      attempt failed and that error is returned. */
  lemma {:induction false} UploadOutcome(env: S3Env, s: S3Log, p: PutCall, seekable: bool, attempt: nat)
    requires 1 <= attempt <= MaxRetries
    ensures var (s', r) := Upload(env, s, p, seekable, attempt);
      var last := |s'.puts| - 1;
      (forall k :: |s.puts| <= k < last ==> env.put(k).Some?)
      && (r.None? <==> |s.puts| <= last && env.put(last).None?)
      && (r.Some? ==>
            (seekable && s'.seeks > s.seeks
             && r == Some(Wrap("failed to seek data for retry", env.seek(s'.seeks - 1))))
            || (last == |s.puts| + MaxRetries - attempt && env.put(last).Some?
                && r == Some(Wrap("failed to upload file to S3 after 5 attempts", env.put(last)))))
    decreases MaxRetries + 1 - attempt
  {
    var s1, step := UploadStep(env, s, p, seekable, attempt);
    if step.Again? {
      UploadOutcome(env, s1, p, seekable, attempt + 1);
      UploadPuts(env, s1, p, seekable, attempt + 1);
    }
  }

  /** Starting from the first attempt: one to five puts, and the sleeps
      before the retries are 4, 9, 16 and 25 seconds as far as they go. */
  lemma UploadFileSchedule(env: S3Env, s: S3Log, p: PutCall, seekable: bool)
    ensures var s' := Upload(env, s, p, seekable, 1).0;
      1 <= |s'.puts| - |s.puts| <= MaxRetries
      && s'.sleeps == s.sleeps + [4, 9, 16, 25][..|s'.puts| - |s.puts| - 1]
  {
    UploadPuts(env, s, p, seekable, 1);
    UploadSleeps(env, s, p, seekable, 1);
    var s' := Upload(env, s, p, seekable, 1).0;
    var n := |s'.puts| - |s.puts|;
    assert Squares(2, n) == [4, 9, 16, 25][..n - 1];
  }

  /** Five failed puts in a row give the exhaustion error after sleeping
      4, 9, 16 and 25 seconds. */
  lemma AllPutsFail(env: S3Env, s: S3Log, p: PutCall)
    requires forall k :: |s.puts| <= k < |s.puts| + MaxRetries ==> env.put(k).Some?
    ensures var (s', r) := Upload(env, s, p, false, 1);
      |s'.puts| == |s.puts| + MaxRetries
      && s'.sleeps == s.sleeps + [4, 9, 16, 25]
      && r == Some(Wrap("failed to upload file to S3 after 5 attempts", env.put(|s.puts| + 4)))
  {
    UploadOutcome(env, s, p, false, 1);
    UploadFileSchedule(env, s, p, false);
  }

  // ---------------------------------------------------------------------
  // The client
  // ---------------------------------------------------------------------

  class S3CloudStorage {
    const env: S3Env
    var log: S3Log

    constructor (env: S3Env)
      ensures this.env == env && log == S3Log([], 0, [])
    {
      this.env := env;
      log := S3Log([], 0, []);
    }

    method UploadFile(key: string, size: int, contentType: string, seekable: bool) returns (err: Option<Error>)
      modifies this`log
      ensures (log, err) == Upload(env, old(log), PutCall(key, size, contentType), seekable, 1)
    {
      var p := PutCall(key, size, contentType);
      var attempt := 1;
      while attempt <= MaxRetries
        invariant 1 <= attempt <= MaxRetries
        invariant Upload(env, old(log), p, seekable, 1) == Upload(env, log, p, seekable, attempt)
        decreases MaxRetries + 1 - attempt
      {
        if attempt > 1 {
          if seekable {
            var seekErr := env.seek(log.seeks);
            log := log.(seeks := log.seeks + 1);
            if seekErr.Some? {
              return Some(Wrap("failed to seek data for retry", seekErr));
            }
          }
          log := log.(sleeps := log.sleeps + [attempt * attempt]);
        }
        var putErr := env.put(|log.puts|);
        log := log.(puts := log.puts + [p]);
        if putErr.Some? {
          if attempt == MaxRetries {
            return Some(Wrap("failed to upload file to S3 after 5 attempts", putErr));
          }
          attempt := attempt + 1;
          continue;
        }
        return None;
      }
      return Some(Leaf("failed to upload file to S3 after 5 attempts"));
    }

    method DownloadFile(key: string) returns (r: Result<Bytes>)
      ensures r == Download(env.getObject(key), env.read(key))
    {
      var got := env.getObject(key);
      if got.Some? {
        return Failure(Wrap("failed to get object from S3", got));
      }
      var data := env.read(key);
      if data.Failure? {
        return Failure(Wrap("failed to read object", Some(data.error)));
      }
      if |data.value| == 0 {
        return Failure(Leaf("object is empty"));
      }
      return Success(data.value);
    }

    method FileExists(key: string) returns (exists_: bool, err: Option<Error>)
      ensures (exists_, err) == Exists(env.stat(key))
    {
      var stat := env.stat(key);
      if stat.Some? {
        if stat.value.code == NoSuchKey {
          return false, None;
        }
        return false, Some(Wrap("failed to check file existence", Some(Leaf(stat.value.message))));
      }
      return true, None;
    }
  }
}
