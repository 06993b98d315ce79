/** The downloader never gets stuck: while its event loop runs, every task can
    still finish, whatever has filled the bounded event channel. */
module DownloaderProgress {
  import opened Collections
  import opened DownloadEvents
  import opened DownloadRecords
  import opened Tasks
  import opened Downloader
  import opened DownloaderInvariants
  import opened DownloaderSafety
  import opened DownloaderTheorems

  ghost predicate IsPath(states: seq<State>, steps: seq<Step>) {
    && |states| == |steps| + 1
    && (forall i | 0 <= i < |steps| :: Enabled(states[i], steps[i]) && states[i + 1] == Next(states[i], steps[i]))
  }

  ghost predicate CanReach(s: State, s': State) {
    exists states: seq<State>, steps: seq<Step> :: IsPath(states, steps) && states[0] == s && states[|steps|] == s'
  }

  lemma ReachSelf(s: State)
    ensures CanReach(s, s)
  {
    var states: seq<State>, steps: seq<Step> := [s], [];
    assert IsPath(states, steps) && states[0] == s && states[|steps|] == s;
  }

  lemma ReachNext(s: State, s1: State, step: Step)
    requires CanReach(s, s1) && Enabled(s1, step)
    ensures CanReach(s, Next(s1, step))
  {
    var states: seq<State>, steps: seq<Step> :| IsPath(states, steps) && states[0] == s && states[|steps|] == s1;
    var states', steps' := states + [Next(s1, step)], steps + [step];
    forall i | 0 <= i < |steps'| ensures Enabled(states'[i], steps'[i]) && states'[i + 1] == Next(states'[i], steps'[i]) {
      if i < |steps| {
        assert Enabled(states[i], steps[i]) && states[i + 1] == Next(states[i], steps[i]);
      }
    }
    assert IsPath(states', steps') && states'[0] == s && states'[|steps'|] == Next(s1, step);
  }

  /** A state that can be reached, and in which the invariant holds. */
  ghost predicate Ahead(s: State, s1: State) {
    CanReach(s, s1) && Inv(s1)
  }

  lemma GoOn(s: State, s1: State, step: Step)
    requires Ahead(s, s1) && Enabled(s1, step)
    ensures Ahead(s, Next(s1, step))
  {
    ReachNext(s, s1, step);
    StepKeeps(s1, step);
  }

  /** The event loop works alone: it leaves workers and submitting callers as
      they are, and the table can only shrink. */
  ghost predicate LoopOnly(s: State, s': State) {
    && s'.workers == s.workers && s'.submits == s.submits
    && s'.tasks.entries.Keys <= s.tasks.entries.Keys
    && s'.tasks.drainOnly == s.tasks.drainOnly
  }

  lemma Announced(s: State, s1: State) returns (s': State)
    requires Ahead(s, s1) && s1.loop.Announcing?
    ensures Ahead(s, s') && LoopOnly(s1, s') && s'.loop.Head? && s'.chan == s1.chan
  {
    GoOn(s, s1, Announce);
    s' := DoAnnounce(s1);
  }

  lemma Finalised(s: State, s1: State) returns (s': State)
    requires Ahead(s, s1) && s1.loop.TaskRemoved?
    ensures Ahead(s, s') && LoopOnly(s1, s') && s'.loop.Head? && s'.chan == s1.chan
  {
    HeldIsKnown(s1);
    GoOn(s, s1, Finalise);
    s' := Announced(s, DoFinalise(s1));
  }

  lemma HandleIsLoopOnly(s: State)
    requires s.loop.Received?
    ensures var s' := DoHandle(s);
            LoopOnly(s, s') && s'.chan == s.chan && (s'.loop.TaskRemoved? || s'.loop.Announcing? || s'.loop.Head?)
  {}

  lemma Handled(s: State, s1: State) returns (s': State)
    requires Ahead(s, s1) && s1.loop.Received?
    ensures Ahead(s, s') && LoopOnly(s1, s') && s'.loop.Head? && s'.chan == s1.chan
  {
    GoOn(s, s1, Handle);
    HandleIsLoopOnly(s1);
    var s2 := DoHandle(s1);
    if s2.loop.TaskRemoved? {
      s' := Finalised(s, s2);
    } else if s2.loop.Announcing? {
      s' := Announced(s, s2);
    } else {
      s' := s2;
    }
  }

  /** The loop never blocks: it gets back to its head by itself. */
  lemma BackAtHead(s: State, s1: State) returns (s': State)
    requires Ahead(s, s1) && !s1.loop.Stopped?
    ensures Ahead(s, s') && LoopOnly(s1, s') && s'.loop.Head? && s'.chan == s1.chan
  {
    if s1.loop.Head? {
      s' := s1;
    } else if s1.loop.Received? {
      s' := Handled(s, s1);
    } else if s1.loop.TaskRemoved? {
      s' := Finalised(s, s1);
    } else {
      s' := Announced(s, s1);
    }
  }

  /** It empties the channel. */
  lemma {:induction false} Emptied(s: State, s1: State) returns (s': State)
    requires Ahead(s, s1) && s1.loop.Head?
    ensures Ahead(s, s') && LoopOnly(s1, s') && s'.loop.Head? && s'.chan == []
    decreases |s1.chan|
  {
    if s1.chan == [] {
      s' := s1;
    } else {
      GoOn(s, s1, Receive);
      var s2 := DoReceive(s1);
      var s3 := Handled(s, s2);
      s' := Emptied(s, s3);
    }
  }

  // ---------------------------------------------------------------------
  // One task
  // ---------------------------------------------------------------------

  ghost predicate Idle(s: State) {
    s.loop.Head? && s.chan == []
  }

  /** With nothing queued, a task whose worker is over has left the table. */
  lemma OverIsGone(s: State, t: TaskId)
    requires Inv(s) && Idle(s) && InPhase(s, t, Phase.Over)
    ensures t !in s.tasks.entries
  {
    assert Queue(s.loop, s.chan) == [];
    assert WorkerOk(s.workers[t], s.records[s.workers[t].record], Of([], t));
  }

  /** A worker can always fail, or finish: it sends its terminal event into the
      empty channel. */
  lemma WorkerOver(s: State, s1: State, t: TaskId) returns (s': State)
    requires Ahead(s, s1) && Idle(s1) && t in s1.workers
    ensures Ahead(s, s') && s'.loop.Head? && InPhase(s', t, Phase.Over) && s'.tasks == s1.tasks
  {
    var p := s1.workers[t].phase;
    if p.Preparing? {
      GoOn(s, s1, SendEarly(t, Error(0)));
      s' := DoSendEarly(s1, t, Error(0));
    } else if p.Started? {
      GoOn(s, s1, StartCopy(t));
      s' := CopyFails(s, DoStartCopy(s1, t), t);
    } else if p.Copying? {
      s' := CopyFails(s, s1, t);
    } else if p.Copied? {
      GoOn(s, s1, Finish(t));
      s' := DoFinish(s1, t);
    } else {
      s' := s1;
    }
  }

  lemma CopyFails(s: State, s1: State, t: TaskId) returns (s': State)
    requires Ahead(s, s1) && Idle(s1) && InPhase(s1, t, Copying)
    ensures Ahead(s, s') && s'.loop.Head? && InPhase(s', t, Phase.Over) && s'.tasks == s1.tasks
  {
    GoOn(s, s1, CopyFailed(t, Error(0)));
    s' := DoCopyFailed(s1, t, Error(0));
  }

  lemma WorkerGone(s: State, s1: State, t: TaskId) returns (s': State)
    requires Ahead(s, s1) && Idle(s1) && t in s1.workers
    ensures Ahead(s, s') && Idle(s') && t !in s'.tasks.entries
    ensures s'.tasks.entries.Keys <= s1.tasks.entries.Keys && s'.tasks.drainOnly == s1.tasks.drainOnly
  {
    var s2 := WorkerOver(s, s1, t);
    s' := Emptied(s, s2);
    OverIsGone(s', t);
  }

  lemma TaskGone(s: State, s1: State, t: TaskId) returns (s': State)
    requires Ahead(s, s1) && Idle(s1) && t in s1.tasks.entries
    ensures Ahead(s, s') && Idle(s') && t !in s'.tasks.entries
    ensures s'.tasks.entries.Keys <= s1.tasks.entries.Keys && s'.tasks.drainOnly == s1.tasks.drainOnly
  {
    if t in s1.workers {
      s' := WorkerGone(s, s1, t);
    } else {
      InTableIsAdded(s1, t);
      GoOn(s, s1, StoreRecord(t));
      var s2 := DoStoreRecord(s1, t);
      if t in s2.workers {
        s' := WorkerGone(s, s2, t);
      } else {
        s' := s2;
      }
    }
  }

  lemma InTableIsAdded(s: State, t: TaskId)
    requires TaskInv(s.tasks, s.workers, s.submits, s.records, s.loop) && t in s.tasks.entries && t !in s.workers
    ensures CanStoreRecord(s, t)
  {}

  // ---------------------------------------------------------------------
  // All tasks
  // ---------------------------------------------------------------------

  lemma {:induction false} AllGone(s: State, s1: State) returns (s': State)
    requires Ahead(s, s1) && Idle(s1)
    ensures Ahead(s, s') && Idle(s') && s'.tasks.entries == map[] && s'.tasks.drainOnly == s1.tasks.drainOnly
    decreases |s1.tasks.entries.Keys|
  {
    if |s1.tasks.entries.Keys| == 0 {
      s' := s1;
    } else {
      var t := Element(s1.tasks.entries.Keys);
      var s2 := TaskGone(s, s1, t);
      SubsetCount(s2.tasks.entries.Keys, s1.tasks.entries.Keys);
      s' := AllGone(s, s2);
    }
  }

  lemma EmptyTableMeansFinal(s: State)
    requires Inv(s) && s.loop.Head? && s.tasks.entries == map[]
    ensures AllFinal(s)
  {
    forall r | r in s.records ensures IsFinal(s.records[r].status) {
      var t := s.owner[r];
      assert t in s.workers && s.workers[t].record == r && t !in s.tasks.entries;
    }
  }

  /** From every state of every run in which the loop has not been stopped there
      is a continuation that settles every download, empties the channel and, in
      drain mode, closes the drained channel. */
  lemma EveryTaskCanFinish(states: seq<State>, steps: seq<Step>, i: nat)
    requires IsRun(states, steps) && i < |states| && !states[i].loop.Stopped?
    ensures exists s' ::
      && CanReach(states[i], s')
      && s'.loop.Head? && s'.chan == [] && s'.tasks.entries == map[] && AllFinal(s')
      && (states[i].tasks.drainOnly ==> Drained(s'))
  {
    RunKeeps(states, steps, i);
    var s := states[i];
    ReachSelf(s);
    var s1 := BackAtHead(s, s);
    var s2 := Emptied(s, s1);
    var s' := AllGone(s, s2);
    EmptyTableMeansFinal(s');
    assert DrainExact(s'.tasks);
  }
}
