/**
 * The per-table task: derive the object prefix from the host name, the
 * database and the table task's own time stamp; create the dump process's
 * stdout pipe; start the process; upload its output; wait for it. Each
 * failing step returns its wrapped error at once and nothing after it runs:
 * in particular, when the upload fails the process is never waited for.
 *
 * The process calls are inputs: `TableEnv` holds the outcome each would
 * report, and the upload's own outcomes.
 */
module TableTask {
  import opened Outcomes
  import opened Trace
  import opened Keys
  import opened Upload

  datatype TableEnv = TableEnv(pipe: Outcome, start: Outcome, upload: UploadEnv, wait: Outcome)

  const PipeContext: string := "failed to create stdout pipe for mysqldump command"
  const StartContext: string := "failed to start mysqldump command"
  const WaitContext: string := "failed to wait for mysqldump command"

  /** The four checked steps, in the order the table task runs them. */
  function TableSteps(env: TableEnv, table: string): seq<Step>
  {
    [ Step(PipeContext, env.pipe),
      Step(StartContext, env.start),
      Step(UploadContext(table), UploadResult(env.upload, table)),
      Step(WaitContext, env.wait) ]
  }

  /** What the table task returns: the first failing step's error, wrapped. */
  function TableResult(env: TableEnv, table: string): Outcome
  {
    RunSteps(TableSteps(env, table))
  }

  /** The calls the table task makes, written out case by case. */
  function TableTrace(env: TableEnv, bucket: string, host: string, database: string, stamp: string,
                      table: string): seq<Event>
  {
    [Did(StdoutPipe, env.pipe)]
    + if env.pipe.Fail? then []
      else
        [Did(StartDump, env.start)]
        + if env.start.Fail? then []
          else
            UploadTrace(env.upload, bucket, ObjectKey(host, database, stamp, table))
            + if UploadResult(env.upload, table).Fail? then [] else [Did(WaitDump, env.wait)]
  }

  /** The closure each table goroutine runs. */
  method BackupTable(env: TableEnv, bucket: string, host: string, database: string, stamp: string,
                     table: string) returns (r: Outcome, trace: seq<Event>)
    ensures r == TableResult(env, table)
    ensures trace == TableTrace(env, bucket, host, database, stamp, table)
  {
    TableResultCases(env, table);
    var backupPath := BackupPath(host, database, stamp);
    trace := [Did(StdoutPipe, env.pipe)];
    if env.pipe.Fail? {
      return Fail(Wrapped(PipeContext, env.pipe.error)), trace;
    }
    trace := trace + [Did(StartDump, env.start)];
    if env.start.Fail? {
      return Fail(Wrapped(StartContext, env.start.error)), trace;
    }
    var uploaded, uploadTrace := UploadToGCS(env.upload, bucket, backupPath, table);
    assert uploadTrace == UploadTrace(env.upload, bucket, ObjectKey(host, database, stamp, table));
    trace := trace + uploadTrace;
    if uploaded.Fail? {
      return Fail(Wrapped(UploadContext(table), uploaded.error)), trace;
    }
    trace := trace + [Did(WaitDump, env.wait)];
    if env.wait.Fail? {
      return Fail(Wrapped(WaitContext, env.wait.error)), trace;
    }
    return Pass, trace;
  }

  // ---------------------------------------------------------------------
  // Properties of the table task

  /** The chain of steps is the closure's four early returns. */
  lemma TableResultCases(env: TableEnv, table: string)
    ensures TableResult(env, table) ==
      if env.pipe.Fail? then Fail(Wrapped(PipeContext, env.pipe.error))
      else if env.start.Fail? then Fail(Wrapped(StartContext, env.start.error))
      else if UploadResult(env.upload, table).Fail?
      then Fail(Wrapped(UploadContext(table), UploadResult(env.upload, table).error))
      else if env.wait.Fail? then Fail(Wrapped(WaitContext, env.wait.error))
      else Pass
  {
    var steps := TableSteps(env, table);
    assert steps[0].outcome == env.pipe && steps[1].outcome == env.start;
    assert steps[2].outcome == UploadResult(env.upload, table) && steps[3].outcome == env.wait;
    if env.pipe.Fail? {
      assert FirstFailed(steps) == 0;
    } else if env.start.Fail? {
      assert FirstFailed(steps) == 1;
    } else if UploadResult(env.upload, table).Fail? {
      assert FirstFailed(steps) == 2;
    } else if env.wait.Fail? {
      assert FirstFailed(steps) == 3;
    }
  }

  /** The task succeeds iff every foreign step the table task and the upload
      check succeeds: pipe, start, client, copy, flush and wait. */
  lemma TableSucceedsIff(env: TableEnv, table: string)
    ensures TableResult(env, table).Pass? <==>
      && env.pipe.Pass? && env.start.Pass?
      && env.upload.newClient.Pass? && env.upload.copy.Pass? && env.upload.flush.Pass?
      && env.wait.Pass?
  {
    UploadSucceedsIff(env.upload, table);
    var steps := TableSteps(env, table);
    assert steps[0].outcome == env.pipe && steps[1].outcome == env.start;
    assert steps[2].outcome == UploadResult(env.upload, table) && steps[3].outcome == env.wait;
  }

  /** A dump process that fails at the end dominates a successful upload:
      the table task reports the wait error, wrapped. */
  lemma ExitStatusDominates(env: TableEnv, table: string)
    requires env.pipe.Pass? && env.start.Pass? && UploadResult(env.upload, table).Pass?
    requires env.wait.Fail?
    ensures TableResult(env, table) == Fail(Wrapped(WaitContext, env.wait.error))
  {
    var steps := TableSteps(env, table);
    assert steps[3].outcome == env.wait;
    assert FirstFailed(steps) == 3;
  }

  /** A failed upload fails the table task with an error that wraps the upload's
      own error, whatever the later steps would have reported. */
  lemma UploadFailureFailsTask(env: TableEnv, table: string)
    requires env.pipe.Pass? && env.start.Pass? && UploadResult(env.upload, table).Fail?
    ensures TableResult(env, table) == Fail(Wrapped(UploadContext(table), UploadResult(env.upload, table).error))
    ensures Is(TableResult(env, table).error, UploadResult(env.upload, table).error)
  {
    var steps := TableSteps(env, table);
    assert steps[2].outcome == UploadResult(env.upload, table);
    assert FirstFailed(steps) == 2;
  }

  /** No step runs after an earlier one failed: `cmd.Start` runs iff the pipe
      was created, and the upload asks for a storage client iff, in addition,
      the process started. */
  lemma LaterStepsNeedEarlier(env: TableEnv, bucket: string, host: string, database: string, stamp: string,
                              table: string)
    ensures var t := TableTrace(env, bucket, host, database, stamp, table);
      && (Called(t, StartDump) <==> env.pipe.Pass?)
      && (Called(t, NewClient) <==> env.pipe.Pass? && env.start.Pass?)
  {
    var t := TableTrace(env, bucket, host, database, stamp, table);
    var u := UploadTrace(env.upload, bucket, ObjectKey(host, database, stamp, table));
    assert forall i :: 0 <= i < |u| ==> u[i].op != StartDump;
    if env.pipe.Pass? {
      assert t[1].op == StartDump;
      if env.start.Pass? {
        assert t[2] == u[0];
      } else {
        assert t == [Did(StdoutPipe, env.pipe), Did(StartDump, env.start)];
      }
    } else {
      assert t == [Did(StdoutPipe, env.pipe)];
    }
  }

  /** `cmd.Wait` runs iff the pipe, the start and the upload all worked. */
  lemma WaitOnlyAfterUpload(env: TableEnv, bucket: string, host: string, database: string, stamp: string,
                            table: string)
    ensures Called(TableTrace(env, bucket, host, database, stamp, table), WaitDump) <==>
      env.pipe.Pass? && env.start.Pass? && UploadResult(env.upload, table).Pass?
  {
    var t := TableTrace(env, bucket, host, database, stamp, table);
    var key := ObjectKey(host, database, stamp, table);
    var u := UploadTrace(env.upload, bucket, key);
    assert forall i :: 0 <= i < |u| ==> u[i].op != WaitDump;
    if env.pipe.Pass? && env.start.Pass? {
      if UploadResult(env.upload, table).Pass? {
        assert t[|t| - 1].op == WaitDump;
      } else {
        assert t == [Did(StdoutPipe, env.pipe)] + [Did(StartDump, env.start)] + u;
        forall i | 0 <= i < |t| ensures t[i].op != WaitDump {
          if i >= 2 {
            assert t[i] == u[i - 2];
          }
        }
      }
    } else {
      assert forall i :: 0 <= i < |t| ==> t[i].op != WaitDump;
    }
  }

  /** The dump process is reaped on every path except one: when the upload
      fails, the table task returns without `cmd.Wait` and the process is still
      held. Every storage resource is always given back. */
  lemma TableReaping(env: TableEnv, bucket: string, host: string, database: string, stamp: string,
                     table: string)
    ensures Held(TableTrace(env, bucket, host, database, stamp, table), []) ==
      if env.pipe.Pass? && env.start.Pass? && UploadResult(env.upload, table).Fail?
      then Some([DumpProcess]) else Some([])
  {
    var t := TableTrace(env, bucket, host, database, stamp, table);
    var key := ObjectKey(host, database, stamp, table);
    var u := UploadTrace(env.upload, bucket, key);
    if env.pipe.Fail? {
      assert t == [Did(StdoutPipe, env.pipe)];
      assert Held(t[1..], []) == Some([]);
    } else if env.start.Fail? {
      assert t == [Did(StdoutPipe, env.pipe), Did(StartDump, env.start)];
      assert Held(t[1..][1..], []) == Some([]);
    } else {
      var prefix := [Did(StdoutPipe, env.pipe), Did(StartDump, env.start)];
      assert Held(prefix, []) == Some([DumpProcess]) by {
        assert Held(prefix[1..][1..], [DumpProcess]) == Some([DumpProcess]);
        assert [] + [DumpProcess] == [DumpProcess];
      }
      UploadReleasesAll(env.upload, bucket, key);
      HeldFrom(u, [DumpProcess]);
      HeldAppend(prefix, u, []);
      if UploadResult(env.upload, table).Pass? {
        var w := [Did(WaitDump, env.wait)];
        assert t == prefix + u + w;
        assert Held(w, [DumpProcess]) == Some([]) by {
          assert Held(w[1..], []) == Some([]);
        }
        HeldAppend(prefix + u, w, []);
      } else {
        assert t == prefix + u;
      }
    }
  }

  /** The only object the table task writes is the one named by its key, in the
      configured bucket. */
  lemma WritesOnlyItsKey(env: TableEnv, bucket: string, host: string, database: string, stamp: string,
                         table: string, i: nat)
    requires i < |TableTrace(env, bucket, host, database, stamp, table)|
    requires TableTrace(env, bucket, host, database, stamp, table)[i].op.NewWriter?
    ensures TableTrace(env, bucket, host, database, stamp, table)[i].op
            == NewWriter(bucket, ObjectKey(host, database, stamp, table))
  {
  }

  /** The object for table `users` of database `appdb`. */
  lemma KeyExample()
    ensures ObjectKey("db1", "appdb", "2024-05-01-13", "users") == "db1/appdb/2024-05-01-13/users.sql.gz"
  {
    assert BackupPath("db1", "appdb", "2024-05-01-13") == "db1/appdb/2024-05-01-13";
  }
}
