/** The interleaved worker refines Execute: apart from the ticker's updates, what
    a worker of the downloader has sent when it is over is what one execution
    sends. */
module WorkerRefinement {
  import opened DownloadEvents
  import opened DownloadTasks
  import opened Downloader
  import opened DownloaderInvariants
  import opened DownloaderTheorems

  function WithoutUpdates(ks: seq<Kind>): seq<Kind>
    decreases |ks|
  {
    if ks == [] then [] else (if ks[0].Update? then [] else [ks[0]]) + WithoutUpdates(ks[1..])
  }

  /** Updates never move the stage of a download that has started. */
  lemma {:induction false} UpdatesDoNotMatter(st: Stage, ks: seq<Kind>)
    requires After(st, ks) != Broken
    ensures After(st, WithoutUpdates(ks)) == After(st, ks)
    ensures forall i | 0 <= i < |WithoutUpdates(ks)| :: !WithoutUpdates(ks)[i].Update? && WithoutUpdates(ks)[i] in ks
    decreases |ks|
  {
    if ks != [] {
      UpdatesDoNotMatter(Advance(st, ks[0]), ks[1..]);
      BrokenStays(ks[1..]);
      var rest := WithoutUpdates(ks[1..]);
      if ks[0].Update? {
        assert Advance(st, ks[0]) == st;
        assert WithoutUpdates(ks) == rest;
      } else {
        assert ([ks[0]] + rest)[1..] == rest;
      }
    }
  }

  lemma {:induction false} TotalsFit(states: seq<State>, steps: seq<Step>, t: TaskId, n: nat)
    requires IsRun(states, steps) && n <= |steps|
    ensures forall k | k in SentBy(states, steps, t, n) && k.Complete? :: 0 <= k.total <= MAX_INT64
    decreases n
  {
    if n > 0 {
      TotalsFit(states, steps, t, n - 1);
      RunKeeps(states, steps, n - 1);
      SendFits(states[n - 1], steps[n - 1], t);
    }
  }

  lemma SendFits(s: State, step: Step, t: TaskId)
    requires WorkerInv(s.workers, s.records, Queue(s.loop, s.chan)) && Enabled(s, step)
    ensures forall k | k in Sends(s, step, t) && k.Complete? :: 0 <= k.total <= MAX_INT64
  {
    if step.Finish? {
      assert WorkerOk(s.workers[step.t], s.records[s.workers[step.t].record], Of(Queue(s.loop, s.chan), step.t));
    }
  }

  lemma FinishedIsTerminated(ks: seq<Kind>)
    requires After(Fresh, ks) == Stage.Over
    requires forall k | k in ks && k.Complete? :: 0 <= k.total <= MAX_INT64
    ensures Terminated(WithoutUpdates(ks))
  {
    UpdatesDoNotMatter(Fresh, ks);
    UnbrokenIsWellOrdered(WithoutUpdates(ks));
  }

  lemma {:induction false} WithoutUpdatesKeeps(ks: seq<Kind>, k: Kind)
    requires !k.Update?
    ensures k in WithoutUpdates(ks) <==> k in ks
    decreases |ks|
  {
    if ks != [] {
      WithoutUpdatesKeeps(ks[1..], k);
      assert ks == [ks[0]] + ks[1..];
    }
  }

  lemma CancelIsLast(trace: seq<Kind>)
    requires Terminated(trace)
    ensures trace != [] && (Witness(trace).1 <==> Kind.Cancel in trace)
  {
    WitnessLeaves(trace);
    TraceEndsRight(Witness(trace).0, Witness(trace).1);
  }

  /** Whatever else was going on, a worker that is over has sent the events of
      one execution, with updates in between or behind; and that execution found
      its context cancelled exactly if the worker has sent Cancel. */
  lemma WorkerFollowsExecute(states: seq<State>, steps: seq<Step>, t: TaskId, n: nat)
    requires IsRun(states, steps) && n <= |steps| && InPhase(states[n], t, Phase.Over)
    ensures exists o: Outcome, canceled: bool ::
              && WithoutUpdates(SentBy(states, steps, t, n)) == Trace(o, canceled)
              && EndsRight(o, canceled, WithoutUpdates(SentBy(states, steps, t, n)))
              && (canceled <==> Kind.Cancel in SentBy(states, steps, t, n))
  {
    var ks := SentBy(states, steps, t, n);
    SentReachesStage(states, steps, t, n);
    TotalsFit(states, steps, t, n);
    FinishedIsTerminated(ks);
    var trace := WithoutUpdates(ks);
    WitnessLeaves(trace);
    TraceEndsRight(Witness(trace).0, Witness(trace).1);
    WithoutUpdatesKeeps(ks, Kind.Cancel);
    CancelIsLast(trace);
  }
}
