/**
 * `uploadToGCS`: open a storage client, an object writer for
 * `backupPath/table.sql.gz`, a gzip stage and a buffer over it; copy the
 * dump into the buffer and flush it. Each failing step returns its own
 * wrapped error at once. The closes are deferred as each stage is acquired,
 * so they run after the return value is fixed, last-acquired first, and the
 * errors they report are dropped.
 *
 * The foreign calls are inputs: `UploadEnv` holds the outcome each call
 * would report. `gzip.NewWriter`, `NewWriter` and `bufio.NewWriterSize`
 * cannot fail.
 */
module Upload {
  import opened Outcomes
  import opened Trace
  import opened Keys

  datatype UploadEnv = UploadEnv(
    newClient: Outcome,
    copy: Outcome,
    flush: Outcome,
    closeGzip: Outcome,
    closeWriter: Outcome,
    closeClient: Outcome)

  const ClientContext: string := "failed to create Google Cloud Storage client"
  const FlushContext: string := "failed to flush data to Google Cloud Storage"

  /** The copy failure's context; the table task wraps an upload failure in
      the same words again. */
  function UploadContext(table: string): string
  {
    "failed to upload backup for table " + table + " to Google Cloud Storage"
  }

  /** The three checked steps, in the order the function runs them. */
  function UploadSteps(env: UploadEnv, table: string): seq<Step>
  {
    [Step(ClientContext, env.newClient), Step(UploadContext(table), env.copy), Step(FlushContext, env.flush)]
  }

  /** What the function returns: the first failing step's error, wrapped. */
  function UploadResult(env: UploadEnv, table: string): Outcome
  {
    RunSteps(UploadSteps(env, table))
  }

  /** What a deferred close reports. */
  function CloseOutcome(env: UploadEnv, op: Op): Outcome
  {
    match op
    case CloseGzip => env.closeGzip
    case CloseWriter(_, _) => env.closeWriter
    case CloseClient => env.closeClient
    case _ => Pass
  }

  /** The events of running the given closes in the given order. */
  function Cleanup(ops: seq<Op>, env: UploadEnv): (events: seq<Event>)
    ensures |events| == |ops|
    ensures forall i :: 0 <= i < |ops| ==> events[i] == Did(ops[i], CloseOutcome(env, ops[i]))
  {
    if ops == [] then [] else [Did(ops[0], CloseOutcome(env, ops[0]))] + Cleanup(ops[1..], env)
  }

  /** The calls the function makes, written out case by case. */
  function UploadTrace(env: UploadEnv, bucket: string, objectName: string): seq<Event>
  {
    if env.newClient.Fail? then [Did(NewClient, env.newClient)]
    else
      [Did(NewClient, Pass), Did(NewWriter(bucket, objectName), Pass), Did(NewGzip, Pass), Did(Copy, env.copy)]
      + (if env.copy.Pass? then [Did(Flush, env.flush)] else [])
      + [Did(CloseGzip, env.closeGzip), Did(CloseWriter(bucket, objectName), env.closeWriter),
         Did(CloseClient, env.closeClient)]
  }

  /** Returning from a function with deferred calls: the stack of deferred
      closes is drained from its top, and whatever each close reports is
      recorded and otherwise ignored. */
  method RunDeferred(env: UploadEnv, deferred: seq<Op>, trace0: seq<Event>) returns (trace: seq<Event>)
    ensures trace == trace0 + Cleanup(Reversed(deferred), env)
  {
    trace := trace0;
    var pending := deferred;
    while pending != []
      invariant trace + Cleanup(Reversed(pending), env) == trace0 + Cleanup(Reversed(deferred), env)
      decreases |pending|
    {
      var op := pending[|pending| - 1];
      var rest := pending[..|pending| - 1];
      assert Reversed(pending) == [op] + Reversed(rest);
      assert Cleanup([op] + Reversed(rest), env) == [Did(op, CloseOutcome(env, op))] + Cleanup(Reversed(rest), env);
      trace := trace + [Did(op, CloseOutcome(env, op))];
      pending := rest;
    }
  }

  /** `uploadToGCS(ctx, bucketName, backupPath, table, reader)`. */
  method UploadToGCS(env: UploadEnv, bucket: string, backupPath: string, table: string)
    returns (r: Outcome, trace: seq<Event>)
    ensures r == UploadResult(env, table)
    ensures trace == UploadTrace(env, bucket, ObjectName(backupPath, table))
  {
    UploadResultCases(env, table);
    trace := [Did(NewClient, env.newClient)];
    if env.newClient.Fail? {
      return Fail(Wrapped(ClientContext, env.newClient.error)), trace;
    }
    var deferred := [CloseClient];
    var objectName := ObjectName(backupPath, table);
    trace := trace + [Did(NewWriter(bucket, objectName), Pass)];
    deferred := deferred + [CloseWriter(bucket, objectName)];
    trace := trace + [Did(NewGzip, Pass)];
    deferred := deferred + [CloseGzip];
    trace := trace + [Did(Copy, env.copy)];
    if env.copy.Fail? {
      r := Fail(Wrapped(UploadContext(table), env.copy.error));
    } else {
      trace := trace + [Did(Flush, env.flush)];
      if env.flush.Fail? {
        r := Fail(Wrapped(FlushContext, env.flush.error));
      } else {
        r := Pass;
      }
    }
    assert env.newClient == Pass;
    assert trace == [Did(NewClient, Pass), Did(NewWriter(bucket, objectName), Pass), Did(NewGzip, Pass),
                     Did(Copy, env.copy)] + (if env.copy.Pass? then [Did(Flush, env.flush)] else []);
    assert Reversed(deferred) == [CloseGzip, CloseWriter(bucket, objectName), CloseClient];
    CleanupStages(env, bucket, objectName);
    trace := RunDeferred(env, deferred, trace);
  }

  /** The three deferred closes, last-deferred first, with what each reports. */
  lemma CleanupStages(env: UploadEnv, bucket: string, objectName: string)
    ensures Cleanup([CloseGzip, CloseWriter(bucket, objectName), CloseClient], env)
            == [Did(CloseGzip, env.closeGzip), Did(CloseWriter(bucket, objectName), env.closeWriter),
                Did(CloseClient, env.closeClient)]
  {
  }

  // ---------------------------------------------------------------------
  // Properties of the upload

  /** The chain of steps is the function's three early returns: the first
      failed call decides the error and its context. */
  lemma UploadResultCases(env: UploadEnv, table: string)
    ensures UploadResult(env, table) ==
      if env.newClient.Fail? then Fail(Wrapped(ClientContext, env.newClient.error))
      else if env.copy.Fail? then Fail(Wrapped(UploadContext(table), env.copy.error))
      else if env.flush.Fail? then Fail(Wrapped(FlushContext, env.flush.error))
      else Pass
  {
    var steps := UploadSteps(env, table);
    assert steps[0].outcome == env.newClient && steps[1].outcome == env.copy && steps[2].outcome == env.flush;
    if env.newClient.Fail? {
      assert FirstFailed(steps) == 0;
    } else if env.copy.Fail? {
      assert FirstFailed(steps) == 1;
    } else if env.flush.Fail? {
      assert FirstFailed(steps) == 2;
    }
  }

  /** The upload succeeds iff client creation, copy and flush succeed. */
  lemma UploadSucceedsIff(env: UploadEnv, table: string)
    ensures UploadResult(env, table).Pass? <==> env.newClient.Pass? && env.copy.Pass? && env.flush.Pass?
  {
    var steps := UploadSteps(env, table);
    assert steps[0].outcome == env.newClient && steps[1].outcome == env.copy && steps[2].outcome == env.flush;
  }

  /** What the deferred closes report never changes the result. */
  lemma CloseErrorsIgnored(env1: UploadEnv, env2: UploadEnv, table: string)
    requires env1.newClient == env2.newClient && env1.copy == env2.copy && env1.flush == env2.flush
    ensures UploadResult(env1, table) == UploadResult(env2, table)
  {
  }

  /** The writer, the gzip stage, the copy and the closes of the writer and
      the gzip stage happen iff the client was created; the flush happens
      iff, in addition, the copy worked. */
  lemma UploadStagesNeedClient(env: UploadEnv, bucket: string, objectName: string)
    ensures var t := UploadTrace(env, bucket, objectName);
      && (Called(t, NewWriter(bucket, objectName)) <==> env.newClient.Pass?)
      && (Called(t, NewGzip) <==> env.newClient.Pass?)
      && (Called(t, Copy) <==> env.newClient.Pass?)
      && (Called(t, CloseWriter(bucket, objectName)) <==> env.newClient.Pass?)
      && (Called(t, Flush) <==> env.newClient.Pass? && env.copy.Pass?)
  {
    var t := UploadTrace(env, bucket, objectName);
    if env.newClient.Pass? {
      assert t[1].op == NewWriter(bucket, objectName) && t[2].op == NewGzip && t[3].op == Copy;
      var n := |t|;
      assert t[n - 2].op == CloseWriter(bucket, objectName);
      if env.copy.Pass? {
        assert t[4].op == Flush;
      } else {
        assert forall i :: 0 <= i < |t| ==> t[i].op != Flush;
      }
    }
  }

  /** Every resource the upload obtains is given back, in LIFO order:
      the gzip stage, then the object writer, then the client. */
  lemma UploadReleasesAll(env: UploadEnv, bucket: string, objectName: string)
    ensures Held(UploadTrace(env, bucket, objectName), []) == Some([])
  {
    var t := UploadTrace(env, bucket, objectName);
    if env.newClient.Pass? {
      var acquire := [Did(NewClient, Pass), Did(NewWriter(bucket, objectName), Pass), Did(NewGzip, Pass)];
      var work := [Did(Copy, env.copy)] + (if env.copy.Pass? then [Did(Flush, env.flush)] else []);
      var closes := [Did(CloseGzip, env.closeGzip), Did(CloseWriter(bucket, objectName), env.closeWriter),
                     Did(CloseClient, env.closeClient)];
      assert t == acquire + work + closes;
      var stack := [StorageClient, ObjectWriter(bucket, objectName), GzipStage];
      AcquireStages(bucket, objectName);
      WorkHoldsStages(env, stack);
      ReleaseStages(env, bucket, objectName);
      HeldAppend(acquire, work, []);
      HeldAppend(acquire + work, closes, []);
    }
  }

  /** Creating the client, the writer and the gzip stage stacks them up. */
  lemma AcquireStages(bucket: string, objectName: string)
    ensures Held([Did(NewClient, Pass), Did(NewWriter(bucket, objectName), Pass), Did(NewGzip, Pass)], [])
            == Some([StorageClient, ObjectWriter(bucket, objectName), GzipStage])
  {
    var w := ObjectWriter(bucket, objectName);
    var e0, e1, e2 := Did(NewClient, Pass), Did(NewWriter(bucket, objectName), Pass), Did(NewGzip, Pass);
    assert Held([e2], [StorageClient, w]) == Some([StorageClient, w, GzipStage]) by {
      assert [StorageClient, w] + [GzipStage] == [StorageClient, w, GzipStage];
    }
    assert Held([e1, e2], [StorageClient]) == Held([e2], [StorageClient, w]) by {
      assert [e1, e2][1..] == [e2];
      assert [StorageClient] + [w] == [StorageClient, w];
    }
    assert Held([e0, e1, e2], []) == Held([e1, e2], [StorageClient]) by {
      assert [e0, e1, e2][1..] == [e1, e2];
      assert [] + [StorageClient] == [StorageClient];
    }
  }

  /** The copy and the flush neither take nor give back a resource. */
  lemma WorkHoldsStages(env: UploadEnv, stack: seq<Resource>)
    ensures Held([Did(Copy, env.copy)] + (if env.copy.Pass? then [Did(Flush, env.flush)] else []), stack)
            == Some(stack)
  {
    var work := [Did(Copy, env.copy)] + (if env.copy.Pass? then [Did(Flush, env.flush)] else []);
    if env.copy.Pass? {
      assert Held(work[1..][1..], stack) == Some(stack);
    }
    assert Held(work[1..], stack) == Some(stack);
  }

  /** The deferred closes pop the stack from its top down to nothing. */
  lemma ReleaseStages(env: UploadEnv, bucket: string, objectName: string)
    ensures Held([Did(CloseGzip, env.closeGzip), Did(CloseWriter(bucket, objectName), env.closeWriter),
                  Did(CloseClient, env.closeClient)],
                 [StorageClient, ObjectWriter(bucket, objectName), GzipStage]) == Some([])
  {
    var closes := [Did(CloseGzip, env.closeGzip), Did(CloseWriter(bucket, objectName), env.closeWriter),
                   Did(CloseClient, env.closeClient)];
    var stack := [StorageClient, ObjectWriter(bucket, objectName), GzipStage];
    assert Held(closes[1..][1..][1..], []) == Some([]);
    assert Held(closes[1..][1..], [StorageClient]) == Some([]);
    assert Held(closes[1..], stack[..2]) == Some([]);
  }
}
