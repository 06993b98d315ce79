/** The worker: one pass of Execute, its early exits and the events it sends. */
module DownloadTasks {
  import opened Collections
  import opened DownloadEvents

  /** What the outside world does to one download; `canceled` in Execute says
      whether the task's context had been cancelled when a failure is examined. */
  datatype Outcome =
    | OpenFails(cause: Cause)
    | RequestInvalid(cause: Cause)
    | RequestFails(cause: Cause)
    | BadStatus(cause: Cause)
    | Body(size: int, chunks: seq<nat>, failure: Option<Cause>)

  /** Two's-complement int64. */
  function Wrap64(x: int): int {
    (x + 0x8000_0000_0000_0000) % 0x1_0000_0000_0000_0000 - 0x8000_0000_0000_0000
  }

  function Sum(chunks: seq<nat>): nat
    decreases |chunks|
  {
    if chunks == [] then 0 else Sum(chunks[..|chunks| - 1]) + chunks[|chunks| - 1]
  }

  function FailureEvent(cause: Cause, canceled: bool): Kind {
    if canceled then Cancel else Error(cause)
  }

  function Trace(o: Outcome, canceled: bool): seq<Kind> {
    match o
    case OpenFails(cause) => [Error(cause)]
    case RequestInvalid(cause) => [Error(cause)]
    case RequestFails(cause) => [FailureEvent(cause, canceled)]
    case BadStatus(cause) => [Error(cause)]
    case Body(size, chunks, None) => [Start(size), Complete(Wrap64(Sum(chunks)))]
    case Body(size, chunks, Some(cause)) => [Start(size), FailureEvent(cause, canceled)]
  }

  /** Every path through Execute sends exactly one terminal event, as its last. */
  lemma TraceHasOneTerminal(o: Outcome, canceled: bool)
    ensures WellOrdered(Trace(o, canceled)) && After(Fresh, Trace(o, canceled)) == Over
    ensures forall i | 0 <= i < |Trace(o, canceled)| :: Trace(o, canceled)[i].Terminal() <==> i == |Trace(o, canceled)| - 1
  {
    UnbrokenIsWellOrdered(Trace(o, canceled));
    assert HasTerminal(Trace(o, canceled)) by {
      assert Trace(o, canceled)[|Trace(o, canceled)| - 1].Terminal();
    }
  }

  /** Whether the request or the copy of an outcome failed, which is where the
      context is looked at. */
  predicate FailsInFlight(o: Outcome) {
    o.RequestFails? || (o.Body? && o.failure.Some?)
  }

  predicate FailsAtOnce(o: Outcome) {
    o.OpenFails? || o.RequestInvalid? || o.BadStatus?
  }

  function CauseOf(o: Outcome): Cause
    requires FailsInFlight(o) || FailsAtOnce(o)
  {
    if o.Body? then o.failure.value else o.cause
  }

  /** How an execution ends: in Cancel exactly if its request or its copy failed
      under a cancelled context, in an Error with its own cause after every other
      failure, and otherwise in Complete. It starts, with the size of the body,
      exactly if there is a body. */
  ghost predicate EndsRight(o: Outcome, canceled: bool, ks: seq<Kind>) {
    && (Cancel in ks <==> canceled && FailsInFlight(o))
    && (forall c: Cause :: Error(c) in ks <==> (FailsAtOnce(o) || (FailsInFlight(o) && !canceled)) && c == CauseOf(o))
    && (forall n: int :: Complete(n) in ks <==> o.Body? && o.failure.None? && n == Wrap64(Sum(o.chunks)))
    && (forall size: int :: Start(size) in ks <==> o.Body? && size == o.size)
  }

  lemma TraceEndsRight(o: Outcome, canceled: bool)
    ensures EndsRight(o, canceled, Trace(o, canceled))
  {}

  /** The event sequences a finished worker can leave, ticks aside. */
  ghost predicate Terminated(ks: seq<Kind>) {
    && WellOrdered(ks) && HasTerminal(ks)
    && (forall i | 0 <= i < |ks| :: !ks[i].Update? && (ks[i].Complete? ==> Wrap64(ks[i].total) == ks[i].total))
  }

  lemma TraceIsTerminated(o: Outcome, canceled: bool)
    ensures Terminated(Trace(o, canceled))
  {
    TraceHasOneTerminal(o, canceled);
  }

  /** An execution that leaves the given events. */
  function Witness(ks: seq<Kind>): (Outcome, bool)
    requires ks != []
  {
    var last := ks[|ks| - 1];
    var cause := if last.Error? then last.cause else 0;
    if |ks| == 1 then (if last.Cancel? then RequestFails(cause) else OpenFails(cause), last.Cancel?)
    else
      var size := if ks[0].Start? then ks[0].size else 0;
      if last.Complete? then (Body(size, [last.total % 0x1_0000_0000_0000_0000], None), false)
      else (Body(size, [], Some(cause)), last.Cancel?)
  }

  lemma SecondEnds(ks: seq<Kind>)
    requires WellOrdered(ks) && |ks| > 2 && !ks[1].Update?
    ensures ks[2].Update?
  {
    assert ks[1].Terminal();
  }

  lemma WitnessLeaves(ks: seq<Kind>)
    requires Terminated(ks)
    ensures ks != [] && Trace(Witness(ks).0, Witness(ks).1) == ks
  {
    if |ks| > 2 {
      SecondEnds(ks);
    }
    if |ks| == 2 && ks[1].Complete? {
      var chunk := ks[1].total % 0x1_0000_0000_0000_0000;
      assert Sum([chunk]) == chunk by {
        assert [chunk][..0] == [];
      }
    }
  }

  /** The executions leave exactly the event sequences the automaton accepts:
      ordered, with one terminal event, totals being int64 values. */
  lemma TraceIsExact(ks: seq<Kind>)
    ensures (exists o: Outcome, canceled: bool :: Trace(o, canceled) == ks) <==> Terminated(ks)
  {
    if o: Outcome, canceled: bool :| Trace(o, canceled) == ks {
      TraceIsTerminated(o, canceled);
    }
    if Terminated(ks) {
      WitnessLeaves(ks);
    }
  }

  /** The reported total is the number of bytes read exactly below 2^63. */
  lemma TotalIsExactIff(n: nat)
    ensures Wrap64(n) == n <==> n <= MAX_INT64
  {}

  /** Beyond, it is off by a multiple of 2^64, and still an int64. */
  lemma WrapIsCongruent(x: int)
    ensures -0x8000_0000_0000_0000 <= Wrap64(x) < 0x8000_0000_0000_0000
    ensures (x - Wrap64(x)) % 0x1_0000_0000_0000_0000 == 0
  {
    var m := 0x1_0000_0000_0000_0000;
    var y := x + 0x8000_0000_0000_0000;
    assert x - Wrap64(x) == y - y % m == (y / m) * m;
  }

  /** Bytes add up over any split into reads. */
  lemma {:induction false} SumSplits(a: seq<nat>, b: seq<nat>)
    ensures Sum(a + b) == Sum(a) + Sum(b)
    ensures |b| == 1 ==> Sum(b) == b[0]
    decreases |b|
  {
    if b == [] {
      assert a + b == a;
    } else {
      var n := |b| - 1;
      SumSplits(a, b[..n]);
      assert (a + b)[..|a + b| - 1] == a + b[..n];
      assert |b| == 1 ==> b[..n] == [];
    }
  }

  class ProgressWriter {
    var bytesRead: int

    constructor ()
      ensures bytesRead == 0
    {
      bytesRead := 0;
    }

    method Reset()
      modifies this
      ensures bytesRead == 0
    {
      bytesRead := 0;
    }

    method Write(n: nat)
      modifies this
      ensures bytesRead == Wrap64(old(bytesRead) + n)
    {
      bytesRead := Wrap64(bytesRead + n);
    }
  }

  class DownloadTask {
    const progress: ProgressWriter
    var errorExited: bool
    var fileExists: bool       // a file at the destination, left by this task
    var sent: seq<Kind>        // written to the events channel

    constructor ()
      ensures fresh(progress) && !errorExited && !fileExists && sent == []
    {
      progress := new ProgressWriter();
      errorExited, fileExists, sent := false, false, [];
    }

    method OpenFile(o: Outcome) returns (ok: bool)
      modifies this`sent, this`fileExists
      ensures ok <==> !o.OpenFails?
      ensures sent == old(sent) + if ok then [] else [Error(o.cause)]
      ensures fileExists == (ok || old(fileExists))
    {
      if o.OpenFails? {
        sent := sent + [Error(o.cause)];
        return false;
      }
      fileExists := true;
      return true;
    }

    method DoRequest(o: Outcome, canceled: bool) returns (ok: bool)
      modifies this`sent
      ensures ok <==> !o.RequestInvalid? && !o.RequestFails?
      ensures sent == old(sent) +
        if o.RequestInvalid? then [Error(o.cause)]
        else if o.RequestFails? then [FailureEvent(o.cause, canceled)] else []
    {
      if o.RequestInvalid? {
        sent := sent + [Error(o.cause)];
        return false;
      }
      if o.RequestFails? {
        if canceled {
          sent := sent + [Kind.Cancel];
        } else {
          sent := sent + [Error(o.cause)];
        }
        return false;
      }
      return true;
    }

    method StartDownload(size: int)
      modifies this`sent, progress
      ensures sent == old(sent) + [Start(size)] && progress.bytesRead == 0
    {
      sent := sent + [Start(size)];
      progress.Reset();
    }

    method DownloadBody(chunks: seq<nat>, failure: Option<Cause>, canceled: bool) returns (ok: bool)
      requires progress.bytesRead == 0
      modifies this`sent, progress
      ensures ok <==> failure.None?
      ensures sent == old(sent) + if ok then [] else [FailureEvent(failure.value, canceled)]
      ensures progress.bytesRead == Wrap64(Sum(chunks))
    {
      for i := 0 to |chunks|
        invariant progress.bytesRead == Wrap64(Sum(chunks[..i]))
        invariant sent == old(sent)
      {
        assert chunks[..i + 1][..i] == chunks[..i];
        WrapAdd(Sum(chunks[..i]), chunks[i]);
        progress.Write(chunks[i]);
      }
      assert chunks[..|chunks|] == chunks;
      if failure.Some? {
        if canceled {
          sent := sent + [Kind.Cancel];
        } else {
          sent := sent + [Error(failure.value)];
        }
        return false;
      }
      return true;
    }

    /** `removable` says whether the deferred removal succeeds; a failure is only
        logged. The file survives exactly a completed download, or an error after
        which it could not be removed. */
    method Execute(o: Outcome, canceled: bool, removable: bool)
      requires !errorExited && !fileExists && sent == []
      modifies this, progress
      ensures sent == Trace(o, canceled)
      ensures EndsRight(o, canceled, sent)
      ensures errorExited <==> !sent[|sent| - 1].Complete?
      ensures fileExists <==> sent[|sent| - 1].Complete? || (!o.OpenFails? && !removable)
      ensures o.Body? ==> progress.bytesRead == Wrap64(Sum(o.chunks))
    {
      var ok := OpenFile(o);
      if !ok {
        errorExited := true;
        return;
      }
      ok := DoRequest(o, canceled);
      if ok && !o.Body? {
        // validateResponse
        sent := sent + [Error(o.cause)];
        ok := false;
      }
      if ok {
        StartDownload(o.size);
        ok := DownloadBody(o.chunks, o.failure, canceled);
      }
      if !ok {
        errorExited := true;
      } else {
        sent := sent + [Complete(progress.bytesRead)];
      }
      // deferred: close the file, and remove it after an error
      if errorExited && removable {
        fileExists := false;
      }
    }
  }

  lemma WrapAdd(a: nat, b: nat)
    ensures Wrap64(Wrap64(a) + b) == Wrap64(a + b)
  {
    var m := 0x1_0000_0000_0000_0000;
    var h := 0x8000_0000_0000_0000;
    var q := (a + h) / m;
    assert Wrap64(a) + b + h == a + b + h - q * m;
    SubMultiple(a + b + h, q, m);
  }

  lemma {:induction false} SubMultiple(x: int, q: nat, m: int)
    requires m == 0x1_0000_0000_0000_0000
    ensures (x - q * m) % m == x % m
    decreases q
  {
    if q > 0 {
      SubMultiple(x - m, q - 1, m);
      assert x - q * m == (x - m) - (q - 1) * m;
    }
  }
}
