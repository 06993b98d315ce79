/** What the counts, ticks, cancellations and deliveries of a run go back to. */
module DownloadWork {
  import opened Collections
  import opened DownloadEvents
  import opened DownloadRecords
  import opened Tasks
  import opened Downloader
  import opened DownloaderInvariants
  import opened DownloaderTheorems

  // ---------------------------------------------------------------------
  // Bytes
  // ---------------------------------------------------------------------

  /** The bytes the steps so far have written for the task. */
  function WrittenBy(steps: seq<Step>, t: TaskId): nat {
    if steps == [] then 0
    else
      var step := steps[|steps| - 1];
      WrittenBy(steps[..|steps| - 1], t) + if step.Write? && step.t == t then step.n else 0
  }

  function CounterIn(s: State, t: TaskId): int {
    if t in s.workers then s.workers[t].progress else 0
  }

  lemma StepCounts(s: State, step: Step, t: TaskId)
    requires Enabled(s, step)
    requires t in s.workers && s.workers[t].phase.Started? ==> s.workers[t].progress == 0
    requires step.StoreRecord? && step.t == t ==> t !in s.workers
    ensures CounterIn(Next(s, step), t) == CounterIn(s, t) + if step.Write? && step.t == t then step.n else 0
  {}

  lemma RunStepCounts(states: seq<State>, steps: seq<Step>, t: TaskId, n: nat)
    requires IsRun(states, steps) && n < |steps|
    ensures CounterIn(states[n + 1], t) ==
            CounterIn(states[n], t) + if steps[n].Write? && steps[n].t == t then steps[n].n else 0
  {
    RunKeeps(states, steps, n);
    var s := states[n];
    if t in s.workers {
      assert WorkerOk(s.workers[t], s.records[s.workers[t].record], Of(Queue(s.loop, s.chan), t));
    }
    StepCounts(s, steps[n], t);
  }

  /** A task's counter is the sum of the bytes it has written. */
  lemma {:induction false} CounterIsWritten(states: seq<State>, steps: seq<Step>, t: TaskId, n: nat)
    requires IsRun(states, steps) && n <= |steps|
    ensures CounterIn(states[n], t) == WrittenBy(steps[..n], t)
    decreases n
  {
    if n > 0 {
      CounterIsWritten(states, steps, t, n - 1);
      RunStepCounts(states, steps, t, n - 1);
      assert steps[..n][..n - 1] == steps[..n - 1];
    }
  }

  /** A completed record has exactly the bytes its task has written. */
  lemma CompletedIsWritten(states: seq<State>, steps: seq<Step>, n: nat, r: RecordId)
    requires IsRun(states, steps) && n <= |steps| && r in states[n].records && states[n].records[r].status.Completed?
    ensures r in states[n].owner
    ensures states[n].records[r].bytesDownloaded == WrittenBy(steps[..n], states[n].owner[r])
  {
    CompletedMatchesCounter(states, steps, n, r);
    CounterIsWritten(states, steps, states[n].owner[r], n);
  }

  // ---------------------------------------------------------------------
  // Ticks
  // ---------------------------------------------------------------------

  ghost predicate TickedAt(states: seq<State>, steps: seq<Step>, t: TaskId, i: nat, n: nat)
    requires |states| == |steps| + 1
  {
    && i < n <= |steps| && steps[i] == Tick(t)
    && forall j | i < j < n :: steps[j] != Tick(t)
  }

  function TickerIn(s: State, t: TaskId): Ticker {
    if t in s.workers then s.workers[t].ticker else Off
  }

  lemma StepTicks(s: State, step: Step, t: TaskId)
    requires Enabled(s, step)
    ensures var ticker' := TickerIn(Next(s, step), t);
            ticker'.Sending? ==> ticker' == if step == Tick(t) then Sending(CounterIn(s, t)) else TickerIn(s, t)
  {}

  /** The count a ticker is about to send is what its task had written at the tick. */
  lemma {:induction false} TickerHoldsCount(states: seq<State>, steps: seq<Step>, t: TaskId, n: nat)
    requires IsRun(states, steps) && n <= |steps| && TickerIn(states[n], t).Sending?
    ensures exists i: nat :: TickedAt(states, steps, t, i, n) && TickerIn(states[n], t).bytes == WrittenBy(steps[..i], t)
    decreases n
  {
    if n > 0 {
      StepTicks(states[n - 1], steps[n - 1], t);
      if steps[n - 1] == Tick(t) {
        CounterIsWritten(states, steps, t, n - 1);
        assert TickedAt(states, steps, t, n - 1, n);
      } else {
        TickerHoldsCount(states, steps, t, n - 1);
        var i: nat :| TickedAt(states, steps, t, i, n - 1)
          && TickerIn(states[n - 1], t).bytes == WrittenBy(steps[..i], t);
        assert TickedAt(states, steps, t, i, n);
      }
    }
  }

  /** Every Update carries the bytes written up to the task's last tick. */
  lemma UpdateCarriesCount(states: seq<State>, steps: seq<Step>, t: TaskId, n: nat)
    requires IsRun(states, steps) && n < |steps| && steps[n] == SendUpdate(t)
    ensures exists i: nat :: TickedAt(states, steps, t, i, n)
              && t in states[n].workers
              && states[n + 1].chan == states[n].chan + [Event(t, states[n].workers[t].record, Update(WrittenBy(steps[..i], t)))]
  {
    TickerHoldsCount(states, steps, t, n);
  }

  // ---------------------------------------------------------------------
  // Cancelled contexts
  // ---------------------------------------------------------------------

  /** Whether a step cancels the context of task `t`: the caller's request, a
      refused submission, an Error or Complete that removes the task, or the
      second phase of the shutdown. */
  predicate Cancels(s: State, step: Step, t: TaskId) {
    match step
    case Cancel(x) => x == t
    case AddTask(x) => x == t && (s.tasks.drainOnly || t in s.tasks.entries)
    case StoreRecord(x) => x == t && t in s.submits && s.submits[t].record in s.records
    case Handle =>
      && s.loop.Received? && s.loop.e.task == t && t in s.tasks.entries && s.loop.e.record in s.records
      && (s.loop.e.kind.Error? || s.loop.e.kind.Complete?)
    case ShutdownCancelAll => t in s.tasks.entries
    case _ => false
  }

  lemma StepCancels(s: State, step: Step, t: TaskId)
    requires Enabled(s, step)
    ensures t in Next(s, step).canceled <==> t in s.canceled || Cancels(s, step, t)
  {}

  /** A context is cancelled exactly if some step has cancelled it. */
  lemma {:induction false} CanceledIff(states: seq<State>, steps: seq<Step>, t: TaskId, n: nat)
    requires IsRun(states, steps) && n <= |steps|
    ensures t in states[n].canceled <==> exists i :: 0 <= i < n && Cancels(states[i], steps[i], t)
    decreases n
  {
    if n > 0 {
      CanceledIff(states, steps, t, n - 1);
      StepCancels(states[n - 1], steps[n - 1], t);
    }
  }

  /** A worker sends Cancel only while its context is cancelled. */
  lemma CancelNeedsCanceled(states: seq<State>, steps: seq<Step>, t: TaskId, n: nat)
    requires IsRun(states, steps) && n < |steps| && Kind.Cancel in Sends(states[n], steps[n], t)
    ensures t in states[n].canceled
  {}

  // ---------------------------------------------------------------------
  // Channels
  // ---------------------------------------------------------------------

  /** The event channel holds ten events: a worker that has finished its copy can
      send exactly while there are fewer. */
  lemma ChannelHoldsTen(states: seq<State>, steps: seq<Step>, n: nat, t: TaskId)
    requires IsRun(states, steps) && n <= |steps|
    ensures |states[n].chan| <= 10
    ensures InPhase(states[n], t, Copied) ==> (Enabled(states[n], Finish(t)) <==> |states[n].chan| < 10)
  {
    RunKeeps(states, steps, n);
  }

  /** All a subscriber has been sent so far. */
  function Got(b: Subscriber): seq<External> {
    b.consumed + b.buffer
  }

  /** A broadcast reaches exactly the subscribers with fewer than ten events
      waiting; no other step changes what a subscriber has been sent. */
  lemma BroadcastReaches(states: seq<State>, steps: seq<Step>, n: nat, b: nat)
    requires IsRun(states, steps) && n < |steps| && b < |states[n].subscribers|
    ensures b < |states[n + 1].subscribers|
    ensures var old', new' := states[n].subscribers[b], states[n + 1].subscribers[b];
            Got(new') ==
            if steps[n].Announce? && |old'.buffer| < 10 then Got(old') + [states[n].loop.x] else Got(old')
    ensures states[n + 1].subscribers[b].from == states[n].subscribers[b].from
    ensures states[n + 1].broadcasts ==
            if steps[n].Announce? then states[n].broadcasts + [states[n].loop.x] else states[n].broadcasts
  {
    StepReaches(states[n], steps[n], b);
  }

  /** A subscription begins with nothing, at the broadcasts made so far. */
  lemma SubscriptionBegins(states: seq<State>, steps: seq<Step>, n: nat)
    requires IsRun(states, steps) && n < |steps| && steps[n] == Step.Subscribe
    ensures var b := |states[n].subscribers|;
            && |states[n + 1].subscribers| == b + 1
            && Got(states[n + 1].subscribers[b]) == [] && states[n + 1].subscribers[b].from == |states[n].broadcasts|
  {}

  lemma AnnounceReaches(s: State, b: nat)
    requires s.loop.Announcing? && b < |s.subscribers|
    ensures var old', new' := s.subscribers[b], DoAnnounce(s).subscribers[b];
            Got(new') == if |old'.buffer| < 10 then Got(old') + [s.loop.x] else Got(old')
  {
    var old' := s.subscribers[b];
    assert old'.consumed + (old'.buffer + [s.loop.x]) == Got(old') + [s.loop.x];
  }

  lemma ConsumeReaches(s: State, i: nat, b: nat)
    requires CanConsume(s, i) && b < |s.subscribers|
    ensures Got(DoConsume(s, i).subscribers[b]) == Got(s.subscribers[b])
  {
    var old' := s.subscribers[i];
    assert (old'.consumed + [old'.buffer[0]]) + old'.buffer[1..] == Got(old');
  }

  lemma StepReaches(s: State, step: Step, b: nat)
    requires Enabled(s, step) && b < |s.subscribers|
    ensures b < |Next(s, step).subscribers|
    ensures Got(Next(s, step).subscribers[b]) ==
            if step.Announce? && |s.subscribers[b].buffer| < 10 then Got(s.subscribers[b]) + [s.loop.x] else Got(s.subscribers[b])
    ensures Next(s, step).subscribers[b].from == s.subscribers[b].from
    ensures Next(s, step).broadcasts == if step.Announce? then s.broadcasts + [s.loop.x] else s.broadcasts
  {
    match step
    case Announce => AnnounceReaches(s, b);
    case Consume(i) => ConsumeReaches(s, i, b);
    case _ => QuietStepReaches(s, step, b);
  }

  lemma QuietStepReaches(s: State, step: Step, b: nat)
    requires Enabled(s, step) && b < |s.subscribers| && !step.Announce? && !step.Consume?
    ensures b < |Next(s, step).subscribers| && Next(s, step).subscribers[b] == s.subscribers[b]
    ensures Next(s, step).broadcasts == s.broadcasts
  {}
}
