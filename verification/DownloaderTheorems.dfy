/** What the downloader guarantees over every run. */
module DownloaderTheorems {
  import opened Collections
  import opened DownloadEvents
  import opened DownloadRecords
  import opened Tasks
  import opened Downloader
  import opened DownloaderInvariants
  import opened DownloaderSafety

  ghost predicate IsRun(states: seq<State>, steps: seq<Step>) {
    && |states| == |steps| + 1
    && states[0] == INIT
    && (forall i | 0 <= i < |steps| :: Enabled(states[i], steps[i]) && states[i + 1] == Next(states[i], steps[i]))
  }

  lemma InitInv()
    ensures Inv(INIT)
  {}

  lemma {:induction false} InvAlong(states: seq<State>, i: nat)
    requires i < |states| && Inv(states[0])
    requires forall k | 0 <= k < |states| - 1 :: Inv(states[k]) ==> Inv(states[k + 1])
    ensures Inv(states[i])
  {
    if i > 0 {
      InvAlong(states, i - 1);
    }
  }

  lemma RunKeeps(states: seq<State>, steps: seq<Step>, i: nat)
    requires IsRun(states, steps) && i < |states|
    ensures Inv(states[i])
  {
    InitInv();
    forall k | 0 <= k < |steps| && Inv(states[k]) ensures Inv(states[k + 1]) {
      StepKeeps(states[k], steps[k]);
    }
    InvAlong(states, i);
  }

  // ---------------------------------------------------------------------
  // Draining
  // ---------------------------------------------------------------------

  ghost predicate Linked(s: State, r: RecordId, t: TaskId) {
    r in s.records && t in s.tasks.entries && s.tasks.entries[t] == r && s.records[r].taskId == Some(t)
  }

  ghost predicate AllFinal(s: State) {
    forall r | r in s.records :: IsFinal(s.records[r].status)
  }

  /** At every head of the event loop a stored record is not final exactly when
      its task is in the table and the two ids point at each other. */
  lemma DrainSoundness(states: seq<State>, steps: seq<Step>, i: nat, r: RecordId)
    requires IsRun(states, steps) && i < |states| && states[i].loop.Head? && r in states[i].records
    ensures !IsFinal(states[i].records[r].status) <==> exists t :: Linked(states[i], r, t)
  {
    var s := states[i];
    RunKeeps(states, steps, i);
    var t := s.owner[r];
    assert t in s.workers && s.workers[t].record == r && DoneOnce(s.records[r]);
    if !IsFinal(s.records[r].status) {
      assert Linked(s, r, t);
    }
  }

  /** Without a table entry, a record is final unless the loop is finishing it. */
  lemma SettledWithoutTasks(s: State, r: RecordId)
    requires OwnerInv(s.workers, s.records, s.owner) && TaskInv(s.tasks, s.workers, s.submits, s.records, s.loop)
    requires s.tasks.entries == map[] && r in s.records && r in s.owner && !Finalising(s.loop, s.owner[r])
    ensures IsFinal(s.records[r].status)
  {
    var t := s.owner[r];
    assert t in s.workers && s.workers[t].record == r && t !in s.tasks.entries;
  }

  /** A removed task's record is the one thing still open. */
  lemma RemovedIsOpen(s: State)
    requires Inv(s) && s.loop.TaskRemoved?
    ensures s.loop.e.record in s.records && !IsFinal(s.records[s.loop.e.record].status)
    ensures s.loop.e.task in s.workers && s.workers[s.loop.e.task].record == s.loop.e.record
  {
    HeldIsKnown(s);
    HeldApplied(s);
  }

  /** Once the drained channel is closed, everything is settled exactly unless the
      loop is still between removing the last task and finishing its record. */
  lemma DrainedIsSettledIff(states: seq<State>, steps: seq<Step>, i: nat)
    requires IsRun(states, steps) && i < |states| && Drained(states[i])
    ensures AllFinal(states[i]) <==> !states[i].loop.TaskRemoved?
    ensures states[i].loop.TaskRemoved? ==>
      forall r | r in states[i].records && r != states[i].loop.e.record :: IsFinal(states[i].records[r].status)
  {
    RunKeeps(states, steps, i);
    SettledIff(states[i]);
  }

  lemma SettledIff(s: State)
    requires Inv(s) && Drained(s)
    ensures AllFinal(s) <==> !s.loop.TaskRemoved?
    ensures s.loop.TaskRemoved? ==> forall r | r in s.records && r != s.loop.e.record :: IsFinal(s.records[r].status)
  {
    if s.loop.TaskRemoved? {
      RemovedIsOpen(s);
    }
    forall r | r in s.records && !(s.loop.TaskRemoved? && s.loop.e.record == r) ensures IsFinal(s.records[r].status) {
      SettledWithoutTasks(s, r);
    }
  }

  /** With the drained channel closed and the loop at its head, the queue holds
      nothing but late updates. */
  lemma DrainedLeavesOnlyUpdates(states: seq<State>, steps: seq<Step>, i: nat)
    requires IsRun(states, steps) && i < |states| && Drained(states[i]) && states[i].loop.Head?
    ensures AllFinal(states[i])
    ensures forall j | 0 <= j < |states[i].chan| :: states[i].chan[j].kind.Update?
  {
    var s := states[i];
    RunKeeps(states, steps, i);
    DrainedIsSettledIff(states, steps, i);
    assert Queue(s.loop, s.chan) == s.chan;
    forall j | 0 <= j < |s.chan| ensures s.chan[j].kind.Update? {
      var t := s.chan[j].task;
      assert t in s.workers && IsFinal(s.records[s.workers[t].record].status);
      assert WorkerOk(s.workers[t], s.records[s.workers[t].record], Of(s.chan, t));
      assert PhaseStage(s.workers[t].phase) == Stage.Over by {
        OverStays(Of(s.chan, t));
      }
      OverMeansUpdates(Of(s.chan, t));
      OfContains(s.chan, t);
    }
  }

  lemma {:induction false} OverStays(ks: seq<Kind>)
    ensures After(Stage.Over, ks) == Stage.Over || After(Stage.Over, ks) == Broken
    decreases |ks|
  {
    if ks != [] {
      if ks[0].Update? {
        OverStays(ks[1..]);
      } else {
        BrokenStays(ks[1..]);
      }
    }
  }

  lemma DrainsOn(a: Table, b: Table, c: Table)
    requires Drains(a, b) && Drains(b, c)
    ensures Drains(a, c)
  {}

  /** One step of a run. */
  lemma RunStepDrains(states: seq<State>, steps: seq<Step>, j: nat)
    requires IsRun(states, steps) && j < |steps|
    ensures Drains(states[j].tasks, states[j + 1].tasks)
  {
    DrainExactOverRun(states, steps, j);
    StepDrains(states[j], steps[j]);
  }

  /** The drained channel closes at most once; after that the table stays empty,
      and in drain mode it never grows. */
  lemma DrainModeIsForGood(states: seq<State>, steps: seq<Step>, i: nat, j: nat)
    requires IsRun(states, steps) && i <= j < |states|
    ensures Drains(states[i].tasks, states[j].tasks) && states[j].tasks.drainedCloses <= 1
    ensures Drained(states[i]) ==> states[j].tasks.entries == map[] && Drained(states[j])
  {
    forall k | 0 <= k < |steps| ensures Drains(states[k].tasks, states[k + 1].tasks) {
      RunStepDrains(states, steps, k);
    }
    DrainsAlong(states, i, j);
    DrainExactOverRun(states, steps, i);
    DrainExactOverRun(states, steps, j);
  }

  lemma DrainExactOverRun(states: seq<State>, steps: seq<Step>, i: nat)
    requires IsRun(states, steps) && i < |states|
    ensures DrainExact(states[i].tasks)
  {
    RunKeeps(states, steps, i);
  }

  lemma {:induction false} DrainsAlong(states: seq<State>, i: nat, j: nat)
    requires i <= j < |states| && forall k | 0 <= k < |states| - 1 :: Drains(states[k].tasks, states[k + 1].tasks)
    ensures Drains(states[i].tasks, states[j].tasks)
    decreases j
  {
    if i < j {
      DrainsAlong(states, i, j - 1);
      DrainsOn(states[i].tasks, states[j - 1].tasks, states[j].tasks);
    }
  }

  lemma StepDrains(s: State, step: Step)
    requires DrainExact(s.tasks) && Enabled(s, step)
    ensures Drains(s.tasks, Next(s, step).tasks)
    ensures Drained(s) ==> Next(s, step).tasks.entries == map[]
  {
    match step
    case AddTask(t) => OpKeepsDrain(s.tasks, Add(t, s.submits[t].record));
    case StoreRecord(t) => OpKeepsDrain(s.tasks, Remove(t));
    case Handle => OpKeepsDrain(s.tasks, Remove(s.loop.e.task));
    case ShutdownDrain => OpKeepsDrain(s.tasks, DrainOnly);
    case _ => OtherStepKeepsTasks(s, step);
  }

  lemma OtherStepKeepsTasks(s: State, step: Step)
    requires Enabled(s, step) && !step.AddTask? && !step.StoreRecord? && !step.Handle? && !step.ShutdownDrain?
    ensures Next(s, step).tasks == s.tasks
  {}

  // ---------------------------------------------------------------------
  // Events: sent once, applied once, in order
  // ---------------------------------------------------------------------

  /** What a step writes to the channel for task `t`. */
  function Sends(s: State, step: Step, t: TaskId): seq<Kind>
    requires Enabled(s, step)
  {
    match step
    case SendEarly(x, k) => if x == t then [k] else []
    case CopyFailed(x, k) => if x == t then [k] else []
    case Finish(x) => if x == t then [Complete(s.workers[x].progress)] else []
    case SendUpdate(x) => if x == t then [Update(s.workers[x].ticker.bytes)] else []
    case _ => []
  }

  /** What a step applies to the record of task `t`. */
  function Applies(s: State, step: Step, t: TaskId): seq<Kind>
    requires Enabled(s, step)
  {
    match step
    case Handle => if s.loop.e.task == t && !s.loop.e.kind.Terminal() then [s.loop.e.kind] else []
    case Finalise => if s.loop.e.task == t then [s.loop.e.kind] else []
    case _ => []
  }

  function StageIn(s: State, t: TaskId): Stage {
    if t in s.workers then PhaseStage(s.workers[t].phase) else Fresh
  }

  predicate IsSend(step: Step) {
    step.SendEarly? || step.CopyFailed? || step.Finish? || step.SendUpdate?
  }

  lemma StepSends(s: State, step: Step, t: TaskId)
    requires Inv(s) && Enabled(s, step)
    ensures StageIn(Next(s, step), t) == After(StageIn(s, t), Sends(s, step, t)) && |Sends(s, step, t)| <= 1
  {
    if IsSend(step) {
      SendSends(s, step, t);
    } else {
      OtherSendsNothing(s, step, t);
    }
  }

  lemma SendSends(s: State, step: Step, t: TaskId)
    requires Enabled(s, step) && IsSend(step) && (step.SendUpdate? ==> InvTicker(s, step.t))
    ensures StageIn(Next(s, step), t) == After(StageIn(s, t), Sends(s, step, t)) && |Sends(s, step, t)| <= 1
  {
    if step.t == t {
      var k := Sends(s, step, t)[0];
      assert Sends(s, step, t) == [k] && [k][1..] == [];
    }
  }

  ghost predicate InvTicker(s: State, t: TaskId) {
    t in s.workers && PhaseStage(s.workers[t].phase) != Fresh
  }

  lemma OtherSendsNothing(s: State, step: Step, t: TaskId)
    requires Enabled(s, step) && !IsSend(step)
    requires t in s.submits ==> t !in s.workers
    ensures StageIn(Next(s, step), t) == StageIn(s, t) && Sends(s, step, t) == []
  {}

  lemma StepMovesQueue(s: State, step: Step, t: TaskId)
    requires Enabled(s, step) && (step.Handle? ==> s.loop.e.record in s.records)
    ensures var s' := Next(s, step);
            Applies(s, step, t) + Of(Queue(s'.loop, s'.chan), t) == Of(Queue(s.loop, s.chan), t) + Sends(s, step, t)
  {
    if IsSend(step) {
      SendStepMovesQueue(s, step, t);
    } else if step.Handle? || step.Finalise? {
      LoopStepMovesQueue(s, step, t);
    } else {
      OtherStepLeavesQueue(s, step, t);
    }
  }

  lemma SendStepMovesQueue(s: State, step: Step, t: TaskId)
    requires Enabled(s, step) && IsSend(step)
    ensures var s' := Next(s, step);
            && Applies(s, step, t) == []
            && Of(Queue(s'.loop, s'.chan), t) == Of(Queue(s.loop, s.chan), t) + Sends(s, step, t)
  {
    var s' := Next(s, step);
    SendMovesQueue(Queue(s.loop, s.chan), Queue(s'.loop, s'.chan), s'.chan[|s.chan|], t);
  }

  lemma LoopStepMovesQueue(s: State, step: Step, t: TaskId)
    requires Enabled(s, step) && (step.Handle? || step.Finalise?) && (step.Handle? ==> s.loop.e.record in s.records)
    ensures var s' := Next(s, step);
            Applies(s, step, t) + Of(Queue(s'.loop, s'.chan), t) == Of(Queue(s.loop, s.chan), t) && Sends(s, step, t) == []
  {
    var s' := Next(s, step);
    assert Queue(s.loop, s.chan)[0] == s.loop.e && Queue(s.loop, s.chan)[1..] == s.chan;
    assert Queue(s'.loop, s'.chan) ==
           if step.Handle? && s.loop.e.kind.Terminal() then Queue(s.loop, s.chan) else s.chan;
  }

  lemma OtherStepLeavesQueue(s: State, step: Step, t: TaskId)
    requires Enabled(s, step) && !IsSend(step) && !step.Handle? && !step.Finalise?
    ensures Applies(s, step, t) == Sends(s, step, t) == []
    ensures Queue(Next(s, step).loop, Next(s, step).chan) == Queue(s.loop, s.chan)
  {}

  lemma SendMovesQueue(q: seq<Event>, q': seq<Event>, e: Event, t: TaskId)
    requires |q'| == |q| + 1 && q'[|q|] == e && forall i | 0 <= i < |q| :: q'[i] == q[i]
    ensures Of(q', t) == Of(q, t) + if e.task == t then [e.kind] else []
  {
    assert q' == q + [e];
    OfAppend(q, e, t);
  }

  ghost function SentBy(states: seq<State>, steps: seq<Step>, t: TaskId, n: nat): seq<Kind>
    requires IsRun(states, steps) && n <= |steps|
  {
    if n == 0 then [] else SentBy(states, steps, t, n - 1) + Sends(states[n - 1], steps[n - 1], t)
  }

  ghost function AppliedTo(states: seq<State>, steps: seq<Step>, t: TaskId, n: nat): seq<Kind>
    requires IsRun(states, steps) && n <= |steps|
  {
    if n == 0 then [] else AppliedTo(states, steps, t, n - 1) + Applies(states[n - 1], steps[n - 1], t)
  }

  lemma Shift(a: seq<Kind>, x: seq<Kind>, q': seq<Kind>, q: seq<Kind>, y: seq<Kind>)
    requires x + q' == q + y
    ensures (a + x) + q' == (a + q) + y
  {
    assert (a + x) + q' == a + (x + q');
    assert (a + q) + y == a + (q + y);
  }

  /** One step of a run. */
  lemma RunStepMovesQueue(states: seq<State>, steps: seq<Step>, t: TaskId, n: nat)
    requires IsRun(states, steps) && n < |steps|
    ensures var s, s' := states[n], states[n + 1];
            Applies(s, steps[n], t) + Of(Queue(s'.loop, s'.chan), t) == Of(Queue(s.loop, s.chan), t) + Sends(s, steps[n], t)
  {
    RunKeeps(states, steps, n);
    if steps[n].Handle? {
      HeldIsKnown(states[n]);
    }
    StepMovesQueue(states[n], steps[n], t);
  }

  /** Every event is applied exactly once and in the order it was sent. */
  lemma {:induction false} EventsAreAppliedInOrder(states: seq<State>, steps: seq<Step>, t: TaskId, n: nat)
    requires IsRun(states, steps) && n <= |steps|
    ensures AppliedTo(states, steps, t, n) + Of(Queue(states[n].loop, states[n].chan), t) == SentBy(states, steps, t, n)
    decreases n
  {
    if n > 0 {
      EventsAreAppliedInOrder(states, steps, t, n - 1);
      RunStepMovesQueue(states, steps, t, n - 1);
      var s, s', step := states[n - 1], states[n], steps[n - 1];
      Shift(AppliedTo(states, steps, t, n - 1), Applies(s, step, t), Of(Queue(s'.loop, s'.chan), t),
            Of(Queue(s.loop, s.chan), t), Sends(s, step, t));
    }
  }

  /** One step of a run. */
  lemma RunStepSends(states: seq<State>, steps: seq<Step>, t: TaskId, n: nat)
    requires IsRun(states, steps) && n < |steps|
    ensures StageIn(states[n + 1], t) == After(StageIn(states[n], t), Sends(states[n], steps[n], t))
    ensures |Sends(states[n], steps[n], t)| <= 1
  {
    RunKeeps(states, steps, n);
    StepSends(states[n], steps[n], t);
  }

  lemma {:induction false} SentReachesStage(states: seq<State>, steps: seq<Step>, t: TaskId, n: nat)
    requires IsRun(states, steps) && n <= |steps|
    ensures After(Fresh, SentBy(states, steps, t, n)) == StageIn(states[n], t)
    decreases n
  {
    if n > 0 {
      SentReachesStage(states, steps, t, n - 1);
      RunStepSends(states, steps, t, n - 1);
      AfterSends(SentBy(states, steps, t, n - 1), Sends(states[n - 1], steps[n - 1], t));
    }
  }

  lemma AfterSends(ks: seq<Kind>, more: seq<Kind>)
    requires |more| <= 1
    ensures After(Fresh, ks + more) == After(After(Fresh, ks), more)
  {
    if |more| == 1 {
      AfterAppend(Fresh, ks, more[0]);
      assert more == [more[0]] && more[1..] == [];
    } else {
      assert ks + more == ks;
    }
  }

  /** A task's events come in order, and exactly one of them is terminal once the
      worker has left Execute, none before. */
  lemma OneTerminalPerTask(states: seq<State>, steps: seq<Step>, t: TaskId, n: nat)
    requires IsRun(states, steps) && n <= |steps|
    ensures WellOrdered(SentBy(states, steps, t, n))
    ensures HasTerminal(SentBy(states, steps, t, n)) <==> InPhase(states[n], t, Phase.Over)
    ensures var ks := SentBy(states, steps, t, n);
            forall i, j | 0 <= i < |ks| && 0 <= j < |ks| && ks[i].Terminal() && ks[j].Terminal() :: i == j
  {
    SentReachesStage(states, steps, t, n);
    UnbrokenIsWellOrdered(SentBy(states, steps, t, n));
  }

  /** The loop finds the record of every event it handles, and the task of every
      terminal event in the table: the removal happens, once. */
  lemma EveryEventFindsItsRecord(states: seq<State>, steps: seq<Step>, i: nat)
    requires IsRun(states, steps) && i < |steps| && steps[i].Handle?
    ensures states[i].loop.e.record in states[i].records
    ensures states[i].loop.e.kind.Terminal() ==>
      states[i].loop.e.task in states[i].tasks.entries && states[i].loop.e.task !in states[i + 1].tasks.entries
  {
    var s := states[i];
    RunKeeps(states, steps, i);
    HeldIsKnown(s);
    var e := s.loop.e;
    var w := s.workers[e.task];
    var ks := Of(Queue(s.loop, s.chan), e.task);
    assert WorkerOk(w, s.records[w.record], ks);
    assert ks[0] == e.kind;
    ApplyKeepsWorker(w, s.records[w.record], ks);
  }

  // ---------------------------------------------------------------------
  // Records over time
  // ---------------------------------------------------------------------

  /** Progress never goes back, final records never change, records stay. */
  ghost predicate Progresses(s: State, s': State) {
    forall r | r in s.records ::
      && r in s'.records
      && s.records[r].bytesDownloaded <= s'.records[r].bytesDownloaded
      && (IsFinal(s.records[r].status) ==> s'.records[r] == s.records[r])
  }

  lemma ApplyProgresses(s: State)
    requires Inv(s) && (s.loop.Received? || s.loop.TaskRemoved?)
    ensures s.loop.e.record in s.records
    ensures var r := s.records[s.loop.e.record];
            && r.bytesDownloaded <= Applied(r, s.loop.e.kind).bytesDownloaded
            && (IsFinal(r.status) ==> Applied(r, s.loop.e.kind) == r)
  {
    HeldIsKnown(s);
    var w := s.workers[s.loop.e.task];
    var ks := Of(Queue(s.loop, s.chan), s.loop.e.task);
    assert ks[0] == s.loop.e.kind;
    ApplyKeepsWorker(w, s.records[w.record], ks);
    ApplyKeepsDoneOnce(s.records[w.record], ks[0]);
  }

  lemma StepProgresses(s: State, step: Step)
    requires Inv(s) && Enabled(s, step)
    ensures Progresses(s, Next(s, step))
  {
    if step.Handle? || step.Finalise? {
      ApplyProgresses(s);
    } else {
      OtherStepProgresses(s, step);
    }
  }

  lemma OtherStepProgresses(s: State, step: Step)
    requires Enabled(s, step) && !step.Handle? && !step.Finalise?
    ensures Progresses(s, Next(s, step))
  {}

  lemma ProgressesOn(a: State, b: State, c: State)
    requires Progresses(a, b) && Progresses(b, c)
    ensures Progresses(a, c)
  {}

  /** One step of a run. */
  lemma RunStepProgresses(states: seq<State>, steps: seq<Step>, j: nat)
    requires IsRun(states, steps) && j < |steps|
    ensures Progresses(states[j], states[j + 1])
  {
    RunKeeps(states, steps, j);
    StepProgresses(states[j], steps[j]);
  }

  lemma {:induction false} ProgressesAlong(states: seq<State>, i: nat, j: nat)
    requires i <= j < |states| && forall k | 0 <= k < |states| - 1 :: Progresses(states[k], states[k + 1])
    ensures Progresses(states[i], states[j])
    decreases j
  {
    if i < j {
      ProgressesAlong(states, i, j - 1);
      ProgressesOn(states[i], states[j - 1], states[j]);
    }
  }

  lemma ProgressIsMonotone(states: seq<State>, steps: seq<Step>, i: nat, j: nat)
    requires IsRun(states, steps) && i <= j < |states|
    ensures Progresses(states[i], states[j])
  {
    forall k | 0 <= k < |steps| ensures Progresses(states[k], states[k + 1]) {
      RunStepProgresses(states, steps, k);
    }
    ProgressesAlong(states, i, j);
  }

  /** A record's `done` is closed exactly when it is final, once; and a completed
      record reports the bytes its task counted. */
  lemma CompletedMatchesCounter(states: seq<State>, steps: seq<Step>, i: nat, r: RecordId)
    requires IsRun(states, steps) && i < |states| && r in states[i].records
    ensures var d := states[i].records[r];
            && d.doneCloses == (if IsFinal(d.status) then 1 else 0)
            && r in states[i].owner && states[i].owner[r] in states[i].workers
            && (d.status.Completed? ==>
                  d.bytesDownloaded == d.totalSize == states[i].workers[states[i].owner[r]].progress)
  {
    RunKeeps(states, steps, i);
    assert DoneOnce(states[i].records[r]);
    assert WorkerOk(states[i].workers[states[i].owner[r]], states[i].records[r],
                    Of(Queue(states[i].loop, states[i].chan), states[i].owner[r]));
  }

  // ---------------------------------------------------------------------
  // Broadcasts
  // ---------------------------------------------------------------------

  /** Per download: an optional Start, then at most one terminal event. */
  lemma BroadcastShape(states: seq<State>, steps: seq<Step>, i: nat, r: RecordId)
    requires IsRun(states, steps) && i < |states|
    ensures var ks := About(Announced(states[i].loop, states[i].broadcasts), r);
            && |ks| <= 2 && (|ks| == 2 ==> ks[0].Start? && ks[1].Terminal())
            && (|ks| == 1 ==> ks[0].Start? || ks[0].Error? || ks[0].Cancel?)
            && (HasTerminal(ks) <==> r in states[i].records && IsFinal(states[i].records[r].status))
  {
    var s := states[i];
    RunKeeps(states, steps, i);
    var xs := Announced(s.loop, s.broadcasts);
    var ks := About(xs, r);
    UnbrokenIsWellOrdered(ks);
    assert |ks| > 2 && !ks[1].Update? ==> ks[1].Terminal() && ks[2].Update?;
    AboutNoUpdates(xs, r);
  }

  lemma {:induction false} AboutNoUpdates(xs: seq<External>, r: RecordId)
    requires NoUpdates(xs)
    ensures forall i | 0 <= i < |About(xs, r)| :: !About(xs, r)[i].Update?
    decreases |xs|
  {
    if xs != [] {
      AboutNoUpdates(xs[..|xs| - 1], r);
    }
  }

  /** A subscriber has got an order-preserving selection of the broadcasts made
      since it subscribed, at most ten of them waiting. */
  lemma SubscriberGetsSubsequence(states: seq<State>, steps: seq<Step>, i: nat, b: nat)
    requires IsRun(states, steps) && i < |states| && b < |states[i].subscribers|
    ensures SubscriberOk(states[i].subscribers[b], states[i].broadcasts)
  {
    RunKeeps(states, steps, i);
  }

  // ---------------------------------------------------------------------
  // Shutdown may return a moment too early
  // ---------------------------------------------------------------------

  ghost predicate Reachable(s: State) {
    exists states: seq<State>, steps: seq<Step> :: IsRun(states, steps) && states[|steps|] == s
  }

  lemma ReachStep(s: State, step: Step)
    requires Reachable(s) && Enabled(s, step)
    ensures Reachable(Next(s, step))
  {
    var states: seq<State>, steps: seq<Step> :| IsRun(states, steps) && states[|steps|] == s;
    var states', steps' := states + [Next(s, step)], steps + [step];
    assert IsRun(states', steps') && states'[|steps'|] == Next(s, step);
  }

  /** One task that has just been submitted. */
  const SUBMITTED: State :=
    State(map[1 := New(1)], Table(map[1 := 1], false, 0), map[1 := Worker(1, Preparing, 0, Off)], map[], {},
          [], Head, NotCalled, [], map[1 := 1], [])

  lemma SubmittedIsReachable()
    ensures Reachable(SUBMITTED)
  {
    assert IsRun([INIT], []) && [INIT][0] == INIT;
    ReachStep(INIT, Check(1, 1));
    var s1 := DoCheck(INIT, 1, 1);
    ReachStep(s1, AddTask(1));
    var s2 := DoAddTask(s1, 1);
    ReachStep(s2, StoreRecord(1));
    assert DoStoreRecord(s2, 1) == SUBMITTED;
  }

  /** The same task after it has failed, its Error event still in the channel. */
  const FAILED_EARLY: State :=
    SUBMITTED.(workers := map[1 := Worker(1, Phase.Over, 0, Off)], chan := [Event(1, 1, Error(7))])

  lemma FailedEarlyIsReachable()
    ensures Reachable(FAILED_EARLY)
  {
    SubmittedIsReachable();
    ReachStep(SUBMITTED, SendEarly(1, Error(7)));
    assert DoSendEarly(SUBMITTED, 1, Error(7)) == FAILED_EARLY;
  }

  /** The same task while the loop handles that event, in a draining table. */
  const DRAINING: State :=
    FAILED_EARLY.(shutdown := Graceful, tasks := Table(map[1 := 1], true, 0), chan := [],
                  loop := Received(Event(1, 1, Error(7))))

  lemma DrainingIsReachable()
    ensures Reachable(DRAINING)
  {
    FailedEarlyIsReachable();
    ReachStep(FAILED_EARLY, ShutdownFlag);
    var s1 := FAILED_EARLY.(shutdown := Flagged);
    ReachStep(s1, ShutdownDrain);
    var s2 := DoShutdownDrain(s1);
    assert 1 in s1.tasks.entries;
    ReachStep(s2, Receive);
    assert DoReceive(s2) == DRAINING;
  }

  /** The drained channel closes on the removal of the last task, before the
      loop finishes that task's record: a Shutdown that ended gracefully can
      return while a record is not final yet. */
  lemma GracefulShutdownMayBeEarly()
    ensures exists s :: Reachable(s) && s.shutdown.Done? && Drained(s) && !AllFinal(s)
  {
    DrainingIsReachable();
    ReachStep(DRAINING, Handle);
    var s1 := DoHandle(DRAINING);
    assert Removed(DRAINING.tasks, 1).entries == map[];
    ReachStep(s1, Step.ShutdownDone);
    var s2 := Next(s1, Step.ShutdownDone);
    assert 1 in s2.records && s2.records[1].status == Requested;
  }
}
