/** What a stored record says in every reachable state, told from the events that
    were applied to it and from the broadcasts. */
module DownloadHistory {
  import opened Collections
  import opened DownloadEvents
  import opened DownloadRecords
  import opened Tasks
  import opened Downloader
  import opened DownloaderInvariants
  import opened DownloaderSafety
  import opened DownloaderTheorems
  import opened RecordHistory
  import opened WorkerRefinement

  // ---------------------------------------------------------------------
  // Records against the events applied to them
  // ---------------------------------------------------------------------

  ghost predicate Follows(r: Record, ks: seq<Kind>, r': Record) {
    if ks == [] then r' == r else |ks| == 1 && r' == Applied(r, ks[0])
  }

  /** A step changes a record only by applying an event of its own task. */
  lemma StepOnRecord(s: State, step: Step, t: TaskId)
    requires OwnerInv(s.workers, s.records, s.owner) && Enabled(s, step) && t in s.workers
    requires step.StoreRecord? ==> step.t !in s.workers
    requires s.loop.Received? || s.loop.TaskRemoved? ==>
      s.loop.e.task in s.workers && s.workers[s.loop.e.task].record == s.loop.e.record
    ensures var s', r := Next(s, step), s.workers[t].record;
            && t in s'.workers && s'.workers[t].record == r && r in s.records && r in s'.records
            && Follows(s.records[r], Applies(s, step, t), s'.records[r])
  {
    if !step.Handle? && !step.Finalise? {
      QuietStepOnRecord(s, step, t);
    }
  }

  lemma QuietStepOnRecord(s: State, step: Step, t: TaskId)
    requires Enabled(s, step) && t in s.workers && s.workers[t].record in s.records
    requires !step.Handle? && !step.Finalise? && (step.StoreRecord? ==> step.t !in s.workers)
    ensures var s', r := Next(s, step), s.workers[t].record;
            && t in s'.workers && s'.workers[t].record == r
            && r in s'.records && s'.records[r] == s.records[r] && Applies(s, step, t) == []
  {}

  /** Before its worker starts, nothing was sent by a task or applied for it. */
  lemma NothingYet(states: seq<State>, steps: seq<Step>, t: TaskId, n: nat)
    requires IsRun(states, steps) && n <= |steps| && t !in states[n].workers
    ensures AppliedTo(states, steps, t, n) == []
  {
    SentReachesStage(states, steps, t, n);
    UnbrokenIsWellOrdered(SentBy(states, steps, t, n));
    EventsAreAppliedInOrder(states, steps, t, n);
  }

  lemma RunStepOnRecord(states: seq<State>, steps: seq<Step>, t: TaskId, n: nat)
    requires IsRun(states, steps) && n < |steps| && t in states[n].workers
    ensures var s, s', r := states[n], states[n + 1], states[n].workers[t].record;
            && t in s'.workers && s'.workers[t].record == r && r in s.records && r in s'.records
            && Follows(s.records[r], Applies(s, steps[n], t), s'.records[r])
  {
    RunKeeps(states, steps, n);
    var s := states[n];
    if s.loop.Received? || s.loop.TaskRemoved? {
      HeldIsKnown(s);
    }
    StepOnRecord(s, steps[n], t);
  }

  lemma NewWorker(s: State, step: Step, t: TaskId)
    requires Enabled(s, step) && t !in s.workers && t in Next(s, step).workers
    ensures var s' := Next(s, step);
            && s'.workers[t].record in s'.records && s'.records[s'.workers[t].record] == New(t)
            && Applies(s, step, t) == []
  {
    OnlyStoreAdds(s, step, t);
  }

  lemma OnlyStoreAdds(s: State, step: Step, t: TaskId)
    requires Enabled(s, step) && t !in s.workers && t in Next(s, step).workers
    ensures step == StoreRecord(t)
  {}

  ghost predicate RecordOf(s: State, t: TaskId, ks: seq<Kind>) {
    t in s.workers && s.workers[t].record in s.records && Tells(s.records[s.workers[t].record], ks)
  }

  /** Over every run a record says what the events applied so far tell. */
  lemma {:induction false} RecordsTell(states: seq<State>, steps: seq<Step>, t: TaskId, n: nat)
    requires IsRun(states, steps) && n <= |steps| && t in states[n].workers
    ensures RecordOf(states[n], t, AppliedTo(states, steps, t, n))
    decreases n
  {
    if n > 0 {
      var s, step := states[n - 1], steps[n - 1];
      var before := AppliedTo(states, steps, t, n - 1);
      if t in s.workers {
        RecordsTell(states, steps, t, n - 1);
        RunStepOnRecord(states, steps, t, n - 1);
        TellsNext(s.records[s.workers[t].record], before, Applies(s, step, t), states[n].records[s.workers[t].record]);
      } else {
        NothingYet(states, steps, t, n - 1);
        NewWorker(s, step, t);
        RecordTells(t, []);
      }
    }
  }

  lemma TellsNext(r: Record, ks: seq<Kind>, more: seq<Kind>, r': Record)
    requires Tells(r, ks) && Follows(r, more, r')
    ensures Tells(r', ks + more)
  {
    if more == [] {
      assert ks + more == ks;
    } else {
      TellsOn(r, ks, more[0]);
      assert more == [more[0]];
    }
  }

  // ---------------------------------------------------------------------
  // Broadcasts against the events applied
  // ---------------------------------------------------------------------

  /** The step announces what it applies, updates excepted. */
  lemma StepAnnounces(s: State, step: Step, t: TaskId, r: RecordId)
    requires Enabled(s, step)
    requires step.Handle? ==> s.loop.e.record in s.records
    requires step.Finalise? ==> s.loop.e.kind.Terminal()
    requires s.loop.Received? || s.loop.TaskRemoved? ==> (s.loop.e.task == t <==> s.loop.e.record == r)
    ensures var s' := Next(s, step);
            About(Announced(s'.loop, s'.broadcasts), r) ==
            About(Announced(s.loop, s.broadcasts), r) + WithoutUpdates(Applies(s, step, t))
  {
    var s' := Next(s, step);
    var xs, xs' := Announced(s.loop, s.broadcasts), Announced(s'.loop, s'.broadcasts);
    if (step.Handle? && !s.loop.e.kind.Terminal() && !s.loop.e.kind.Update?) || step.Finalise? {
      assert xs == s.broadcasts;
      assert xs' == xs + [External(s.loop.e.record, s.loop.e.kind)];
      AboutAppend(xs, External(s.loop.e.record, s.loop.e.kind), r);
      assert WithoutUpdates([s.loop.e.kind][1..]) == [];
    } else {
      assert xs' == xs;
      assert WithoutUpdates(Applies(s, step, t)) == [];
    }
  }

  lemma {:induction false} WithoutUpdatesAppend(ks: seq<Kind>, more: seq<Kind>)
    ensures WithoutUpdates(ks + more) == WithoutUpdates(ks) + WithoutUpdates(more)
    decreases |ks|
  {
    if ks == [] {
      assert ks + more == more;
    } else {
      WithoutUpdatesAppend(ks[1..], more);
      assert (ks + more)[1..] == ks[1..] + more;
      var head := if ks[0].Update? then [] else [ks[0]];
      assert head + (WithoutUpdates(ks[1..]) + WithoutUpdates(more)) == (head + WithoutUpdates(ks[1..])) + WithoutUpdates(more);
    }
  }

  lemma RunStepAnnounces(states: seq<State>, steps: seq<Step>, t: TaskId, n: nat)
    requires IsRun(states, steps) && n < |steps| && t in states[n].workers
    ensures var s, s', r := states[n], states[n + 1], states[n].workers[t].record;
            About(Announced(s'.loop, s'.broadcasts), r) ==
            About(Announced(s.loop, s.broadcasts), r) + WithoutUpdates(Applies(s, steps[n], t))
  {
    RunKeeps(states, steps, n);
    var s := states[n];
    if s.loop.Received? || s.loop.TaskRemoved? {
      HeldIsKnown(s);
    }
    StepAnnounces(s, steps[n], t, s.workers[t].record);
  }

  /** A record that has just been stored was never announced. */
  lemma NewIsUnannounced(states: seq<State>, steps: seq<Step>, t: TaskId, n: nat)
    requires IsRun(states, steps) && n < |steps| && t !in states[n].workers && t in states[n + 1].workers
    ensures About(Announced(states[n + 1].loop, states[n + 1].broadcasts), states[n + 1].workers[t].record) == []
  {
    RunKeeps(states, steps, n + 1);
    NewWorker(states[n], steps[n], t);
    UnbrokenIsWellOrdered(About(Announced(states[n + 1].loop, states[n + 1].broadcasts), states[n + 1].workers[t].record));
  }

  /** Over every run what is announced about a download is what was applied to its
      record, updates excepted. */
  lemma {:induction false} AnnouncedIsApplied(states: seq<State>, steps: seq<Step>, t: TaskId, n: nat)
    requires IsRun(states, steps) && n <= |steps| && t in states[n].workers
    ensures About(Announced(states[n].loop, states[n].broadcasts), states[n].workers[t].record) ==
            WithoutUpdates(AppliedTo(states, steps, t, n))
    decreases n
  {
    if n > 0 {
      if t in states[n - 1].workers {
        AnnouncedIsApplied(states, steps, t, n - 1);
        RunStepOnRecord(states, steps, t, n - 1);
        RunStepAnnounces(states, steps, t, n - 1);
        WithoutUpdatesAppend(AppliedTo(states, steps, t, n - 1), Applies(states[n - 1], steps[n - 1], t));
      } else {
        NothingYet(states, steps, t, n - 1);
        NewIsUnannounced(states, steps, t, n - 1);
        NewWorker(states[n - 1], steps[n - 1], t);
      }
    }
  }

  // ---------------------------------------------------------------------
  // Records against broadcasts
  // ---------------------------------------------------------------------

  lemma {:induction false} AboutIsBroadcast(xs: seq<External>, r: RecordId, k: Kind)
    ensures k in About(xs, r) <==> External(r, k) in xs
    decreases |xs|
  {
    if xs != [] {
      AboutIsBroadcast(xs[..|xs| - 1], r, k);
      assert xs == xs[..|xs| - 1] + [xs[|xs| - 1]];
    }
  }

  lemma AppliedIsOrdered(states: seq<State>, steps: seq<Step>, t: TaskId, n: nat)
    requires IsRun(states, steps) && n <= |steps|
    ensures WellOrdered(AppliedTo(states, steps, t, n))
  {
    EventsAreAppliedInOrder(states, steps, t, n);
    SentReachesStage(states, steps, t, n);
    UnbrokenIsWellOrdered(SentBy(states, steps, t, n));
    var ks, sent := AppliedTo(states, steps, t, n), SentBy(states, steps, t, n);
    assert forall i | 0 <= i < |ks| :: ks[i] == sent[i];
  }

  /** In an ordered sequence every terminal event is the first one, and every Start
      is the first and comes before it. */
  lemma OrderedPositions(ks: seq<Kind>, k: Kind)
    requires WellOrdered(ks)
    ensures k.Terminal() ==> (k in ks <==> FirstTerminal(ks) < |ks| && ks[FirstTerminal(ks)] == k)
    ensures k.Start? ==> (k in ks <==> FirstStart(Live(ks)) < |Live(ks)| && Live(ks)[FirstStart(Live(ks))] == k)
  {
    if k.Terminal() && k in ks {
      var i :| 0 <= i < |ks| && ks[i] == k;
    }
    if k.Start? && k in ks {
      var i :| 0 <= i < |ks| && ks[i] == k;
      assert i == 0 && Live(ks)[0] == k;
    }
  }

  lemma FirstCounts(ks: seq<Kind>)
    requires WellOrdered(ks) && ks != []
    ensures Live(ks) != ks || FirstStart(ks) < |ks|
  {
    if !ks[0].Start? {
      assert FirstTerminal(ks) == 0;
    }
  }

  /** With `xs` all broadcasts about record `r`: how the download ended, with which
      sizes and cause, and whether it has started. */
  ghost predicate SaidBy(d: Record, r: RecordId, xs: seq<External>) {
    && (d.status.Completed? <==> exists n: int :: External(r, Complete(n)) in xs)
    && (forall n: int | External(r, Complete(n)) in xs :: d.bytesDownloaded == n && d.totalSize == n)
    && (d.status.Failed? <==> exists c: Cause :: External(r, Error(c)) in xs)
    && (forall c: Cause | External(r, Error(c)) in xs :: d.cause == Some(c))
    && (d.status.Canceled? <==> External(r, Kind.Cancel) in xs)
    && (d.status.Requested? ==> forall k: Kind :: External(r, k) !in xs)
    && (d.status.InProgress? ==> exists size: int :: External(r, Start(size)) in xs)
    && (forall size: int | External(r, Start(size)) in xs :: d.expectedSize == size)
    && ((forall size: int :: External(r, Start(size)) !in xs) ==> d.expectedSize == -1)
  }

  lemma TellsSaid(d: Record, ks: seq<Kind>, r: RecordId, xs: seq<External>)
    requires Tells(d, ks) && WellOrdered(ks)
    requires forall k: Kind :: External(r, k) in xs <==> k in ks && !k.Update?
    ensures SaidBy(d, r, xs)
  {
    forall k: Kind ensures
      && (k.Terminal() ==> (External(r, k) in xs <==> FirstTerminal(ks) < |ks| && ks[FirstTerminal(ks)] == k))
      && (k.Start? ==> (External(r, k) in xs <==> FirstStart(Live(ks)) < |Live(ks)| && Live(ks)[FirstStart(Live(ks))] == k))
    {
      OrderedPositions(ks, k);
    }
    if FirstTerminal(ks) < |ks| {
      assert External(r, ks[FirstTerminal(ks)]) in xs;
    }
    if FirstStart(Live(ks)) < |Live(ks)| {
      assert External(r, Live(ks)[FirstStart(Live(ks))]) in xs;
    }
    if d.status.Requested? {
      if ks != [] {
        FirstCounts(ks);
        assert false;
      }
    }
  }

  /** At the loop head of every run a record is what its broadcasts say: Completed
      exactly after Complete, with its total; Failed exactly after Error, with its
      cause; Canceled exactly after Cancel; and it has the size of its Start. */
  lemma RecordIsWhatWasBroadcast(states: seq<State>, steps: seq<Step>, n: nat, r: RecordId)
    requires IsRun(states, steps) && n <= |steps| && states[n].loop.Head? && r in states[n].records
    ensures SaidBy(states[n].records[r], r, states[n].broadcasts)
  {
    var s := states[n];
    OwnerWorks(states, steps, n, r);
    var t := s.owner[r];
    var ks := AppliedTo(states, steps, t, n);
    RecordsTell(states, steps, t, n);
    AnnouncedIsApplied(states, steps, t, n);
    AppliedIsOrdered(states, steps, t, n);
    assert Announced(s.loop, s.broadcasts) == s.broadcasts;
    NoUpdateBroadcast(states, steps, n);
    forall k: Kind ensures External(r, k) in s.broadcasts <==> k in ks && !k.Update? {
      AboutIsBroadcast(s.broadcasts, r, k);
      if !k.Update? {
        WithoutUpdatesKeeps(ks, k);
      }
    }
    TellsSaid(s.records[r], ks, r, s.broadcasts);
  }

  lemma OwnerWorks(states: seq<State>, steps: seq<Step>, n: nat, r: RecordId)
    requires IsRun(states, steps) && n <= |steps| && r in states[n].records
    ensures var s := states[n]; r in s.owner && s.owner[r] in s.workers && s.workers[s.owner[r]].record == r
  {
    RunKeeps(states, steps, n);
  }

  lemma NoUpdateBroadcast(states: seq<State>, steps: seq<Step>, n: nat)
    requires IsRun(states, steps) && n <= |steps| && states[n].loop.Head?
    ensures forall x | x in states[n].broadcasts :: !x.kind.Update?
  {
    RunKeeps(states, steps, n);
    assert Announced(states[n].loop, states[n].broadcasts) == states[n].broadcasts;
  }

  // ---------------------------------------------------------------------
  // The bytes of a running download
  // ---------------------------------------------------------------------

  /** The last of the updates in `ks`, if any, reported `bytes`. */
  ghost predicate LastReported(ks: seq<Kind>, bytes: int) {
    if forall i | 0 <= i < |ks| :: !ks[i].Update? then bytes == 0
    else exists i :: 0 <= i < |ks| && ks[i] == Update(bytes) && forall j | i < j < |ks| :: !ks[j].Update?
  }

  lemma {:induction false} LastCountIsLast(ks: seq<Kind>)
    ensures LastReported(ks, if LastCount(ks).Some? then LastCount(ks).value else 0)
  {
    if ks != [] && !ks[|ks| - 1].Update? {
      var init := ks[..|ks| - 1];
      LastCountIsLast(init);
      if i :| 0 <= i < |init| && init[i].Update? && forall j | i < j < |init| :: !init[j].Update? {
        assert ks[i] == init[i];
      }
      assert forall i | 0 <= i < |init| :: ks[i] == init[i];
    }
  }

  /** A running record shows the count of the last Update applied to it. */
  lemma RunningShowsLastUpdate(states: seq<State>, steps: seq<Step>, n: nat, r: RecordId)
    requires IsRun(states, steps) && n <= |steps| && r in states[n].records && states[n].records[r].status.InProgress?
    ensures r in states[n].owner
    ensures LastReported(AppliedTo(states, steps, states[n].owner[r], n), states[n].records[r].bytesDownloaded)
  {
    OwnerWorks(states, steps, n, r);
    var t := states[n].owner[r];
    var ks := AppliedTo(states, steps, t, n);
    RecordsTell(states, steps, t, n);
    AppliedIsOrdered(states, steps, t, n);
    assert Live(ks) == ks && FirstStart(ks) == 0 && ks[0].Start?;
    LastCountIsLast(ks[1..]);
    assert forall i | 0 <= i < |ks[1..]| :: ks[1..][i] == ks[i + 1];
  }
}
