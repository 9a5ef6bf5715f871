/**
 * The vocabulary shared by the table task and the upload: the foreign
 * calls they make, the trace of those calls, the resources the calls
 * acquire and release, and the early-return shape both functions share
 * (run the steps in order, return the first error wrapped in its step's
 * context, run nothing after it).
 */
module Trace {
  import opened Outcomes

  /** The foreign calls, in the vocabulary of their Go libraries. */
  datatype Op =
    | StdoutPipe                                  // cmd.StdoutPipe()
    | StartDump                                   // cmd.Start()
    | WaitDump                                    // cmd.Wait()
    | NewClient                                   // storage.NewClient(ctx)
    | NewWriter(bucket: string, objectName: string)   // bucket.Object(name).NewWriter(ctx)
    | NewGzip                                     // gzip.NewWriter(writer)
    | Copy                                        // io.Copy(bufWriter, reader)
    | Flush                                       // bufWriter.Flush()
    | CloseGzip                                   // gzipWriter.Close()
    | CloseWriter(bucket: string, objectName: string) // writer.Close()
    | CloseClient                                 // client.Close()

  /** One call made and the outcome it reported. */
  datatype Event = Did(op: Op, outcome: Outcome)

  /** Things that, once obtained, must be given back. */
  datatype Resource =
    | DumpProcess
    | StorageClient
    | ObjectWriter(bucket: string, objectName: string)
    | GzipStage

  function Acquires(op: Op): Option<Resource>
  {
    match op
    case StartDump => Some(DumpProcess)
    case NewClient => Some(StorageClient)
    case NewWriter(b, o) => Some(ObjectWriter(b, o))
    case NewGzip => Some(GzipStage)
    case _ => None
  }

  function Releases(op: Op): Option<Resource>
  {
    match op
    case WaitDump => Some(DumpProcess)
    case CloseClient => Some(StorageClient)
    case CloseWriter(b, o) => Some(ObjectWriter(b, o))
    case CloseGzip => Some(GzipStage)
    case _ => None
  }

  /**
   * Replays a trace against a stack of held resources. A call that
   * succeeds in acquiring a resource pushes it; a release call (whatever
   * it reports) must give back the most recently acquired resource still
   * held, and pops it. None means a release out of LIFO order. The
   * result is the stack still held at the end.
   */
  function Held(trace: seq<Event>, held: seq<Resource>): Option<seq<Resource>>
    decreases |trace|
  {
    if trace == [] then Some(held)
    else
      var ev := trace[0];
      match Releases(ev.op)
      case Some(r) =>
        if |held| > 0 && held[|held| - 1] == r then Held(trace[1..], held[..|held| - 1])
        else None
      case None =>
        if ev.outcome.Pass? && Acquires(ev.op).Some?
        then Held(trace[1..], held + [Acquires(ev.op).value])
        else Held(trace[1..], held)
  }

  /** Replaying a concatenation is replaying its two halves one after the other. */
  lemma {:induction false} HeldAppend(a: seq<Event>, b: seq<Event>, held: seq<Resource>)
    ensures Held(a + b, held) ==
      match Held(a, held)
      case None => None
      case Some(h) => Held(b, h)
    decreases |a|
  {
    if a == [] {
      assert a + b == b;
    } else {
      assert (a + b)[0] == a[0];
      assert (a + b)[1..] == a[1..] + b;
      var ev := a[0];
      match Releases(ev.op)
      case Some(r) =>
        if |held| > 0 && held[|held| - 1] == r {
          HeldAppend(a[1..], b, held[..|held| - 1]);
        }
      case None =>
        if ev.outcome.Pass? && Acquires(ev.op).Some? {
          HeldAppend(a[1..], b, held + [Acquires(ev.op).value]);
        } else {
          HeldAppend(a[1..], b, held);
        }
    }
  }

  /** A balanced trace replayed on top of resources already held leaves
      exactly those resources held. */
  lemma {:induction false} HeldFrom(t: seq<Event>, base: seq<Resource>)
    requires Held(t, []) == Some([])
    ensures Held(t, base) == Some(base)
  {
    HeldUnder(t, [], base);
    assert base + [] == base;
  }

  /** Replaying a trace is unaffected by resources held below the stack it
      works on, as long as it never releases those. */
  lemma {:induction false} HeldUnder(t: seq<Event>, held: seq<Resource>, base: seq<Resource>)
    requires Held(t, held).Some?
    ensures Held(t, base + held) == Some(base + Held(t, held).value)
    decreases |t|
  {
    if t != [] {
      var ev := t[0];
      match Releases(ev.op)
      case Some(r) =>
        assert (base + held)[..|base + held| - 1] == base + held[..|held| - 1];
        HeldUnder(t[1..], held[..|held| - 1], base);
      case None =>
        if ev.outcome.Pass? && Acquires(ev.op).Some? {
          assert (base + held) + [Acquires(ev.op).value] == base + (held + [Acquires(ev.op).value]);
          HeldUnder(t[1..], held + [Acquires(ev.op).value], base);
        } else {
          HeldUnder(t[1..], held, base);
        }
    }
  }

  /** A call made at some point of the trace. */
  predicate Called(trace: seq<Event>, op: Op)
  {
    exists i :: 0 <= i < |trace| && trace[i].op == op
  }

  /** One step of an early-return sequence: its outcome and the context
      string its error is wrapped in. */
  datatype Step = Step(context: string, outcome: Outcome)

  predicate StepFailed(s: Step) { s.outcome.Fail? }

  /** Index of the first failing step, or `|steps|`. */
  function FirstFailed(steps: seq<Step>): (k: nat)
    ensures k <= |steps|
    ensures forall i :: 0 <= i < k ==> steps[i].outcome.Pass?
    ensures k < |steps| ==> steps[k].outcome.Fail?
  {
    FirstWhere(steps, StepFailed)
  }

  /** `if err := step(); err != nil { return fmt.Errorf("<context>: %w", err) }`
      repeated for each step, then `return nil`. */
  function RunSteps(steps: seq<Step>): (r: Outcome)
    ensures r.Pass? <==> forall i :: 0 <= i < |steps| ==> steps[i].outcome.Pass?
    ensures r.Fail? ==>
      var k := FirstFailed(steps);
      && k < |steps|
      && r.error == Wrapped(steps[k].context, steps[k].outcome.error)
      && Is(r.error, steps[k].outcome.error)
  {
    var k := FirstFailed(steps);
    if k < |steps| then Fail(Wrapped(steps[k].context, steps[k].outcome.error)) else Pass
  }
}
