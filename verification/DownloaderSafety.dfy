/** Every step of the downloader keeps the invariants. */
module DownloaderSafety {
  import opened DownloadEvents
  import opened DownloadRecords
  import opened Tasks
  import opened Downloader
  import opened DownloaderInvariants

  // ---------------------------------------------------------------------
  // Submitting
  // ---------------------------------------------------------------------

  lemma AddTaskKeeps(s: State, t: TaskId)
    requires Inv(s) && CanAddTask(s, t)
    ensures Inv(DoAddTask(s, t))
  {
    AddKeepsTasks(s.tasks, s.workers, s.submits, s.records, s.loop, t);
  }

  lemma AddKeepsTasks(tasks: Table, workers: map<TaskId, Worker>, submits: map<TaskId, Submit>,
                      records: map<RecordId, Record>, loop: Loop, t: TaskId)
    requires TaskInv(tasks, workers, submits, records, loop) && t in submits && submits[t].Checked?
    ensures var r := submits[t].record;
            && TaskInv(Added(tasks, t, r), workers,
                       if Accepts(tasks, t) then submits[t := TaskAdded(r)] else submits - {t}, records, loop)
            && (DrainExact(tasks) ==> DrainExact(Added(tasks, t, r)))
  {}

  lemma {:induction false} OfNobody(q: seq<Event>, t: TaskId)
    requires forall i | 0 <= i < |q| :: q[i].task != t
    ensures Of(q, t) == []
    decreases |q|
  {
    if q != [] {
      assert forall i | 0 <= i < |q[1..]| :: q[1..][i] == q[i + 1];
      OfNobody(q[1..], t);
    }
  }

  lemma StoreRecordKeepsWorkers(s: State, t: TaskId)
    requires Inv(s) && CanStoreRecord(s, t) && s.submits[t].record !in s.records
    ensures var s' := DoStoreRecord(s, t);
            WorkerInv(s'.workers, s'.records, Queue(s'.loop, s'.chan))
            && OwnerInv(s'.workers, s'.records, s'.owner) && RecordInv(s'.records, s'.owner)
  {
    NewWorkerOk(s.workers, s.records, Queue(s.loop, s.chan), t, s.submits[t].record);
    NewRecordOwned(s.workers, s.records, s.owner, t, s.submits[t].record);
  }

  lemma NewWorkerOk(workers: map<TaskId, Worker>, records: map<RecordId, Record>, q: seq<Event>, t: TaskId, r: RecordId)
    requires WorkerInv(workers, records, q) && t !in workers && r !in records
    requires forall i | 0 <= i < |q| :: q[i].task in workers
    ensures WorkerInv(workers[t := Worker(r, Preparing, 0, Off)], records[r := New(t)], q)
  {
    OfNobody(q, t);
  }

  lemma NewRecordOwned(workers: map<TaskId, Worker>, records: map<RecordId, Record>, owner: map<RecordId, TaskId>,
                       t: TaskId, r: RecordId)
    requires OwnerInv(workers, records, owner) && RecordInv(records, owner) && t !in workers && r !in records
    ensures var workers', records', owner' := workers[t := Worker(r, Preparing, 0, Off)], records[r := New(t)], owner[r := t];
            OwnerInv(workers', records', owner') && RecordInv(records', owner')
  {}

  lemma StoreRecordKeeps(s: State, t: TaskId)
    requires Inv(s) && CanStoreRecord(s, t)
    ensures Inv(DoStoreRecord(s, t))
  {
    if s.submits[t].record !in s.records {
      StoreRecordKeepsWorkers(s, t);
      StoreKeepsTasks(s.tasks, s.workers, s.submits, s.records, s.loop, t);
    } else {
      RollbackKeepsTasks(s.tasks, s.workers, s.submits, s.records, s.loop, t);
      OpKeepsDrain(s.tasks, Remove(t));
    }
  }

  lemma StoreKeepsTasks(tasks: Table, workers: map<TaskId, Worker>, submits: map<TaskId, Submit>,
                        records: map<RecordId, Record>, loop: Loop, t: TaskId)
    requires TaskInv(tasks, workers, submits, records, loop) && t in submits && submits[t].TaskAdded?
    requires submits[t].record !in records && (loop.TaskRemoved? ==> loop.e.task in workers)
    ensures var r := submits[t].record;
            TaskInv(tasks, workers[t := Worker(r, Preparing, 0, Off)], submits - {t}, records[r := New(t)], loop)
  {}

  lemma RollbackKeepsTasks(tasks: Table, workers: map<TaskId, Worker>, submits: map<TaskId, Submit>,
                           records: map<RecordId, Record>, loop: Loop, t: TaskId)
    requires TaskInv(tasks, workers, submits, records, loop) && t in submits && submits[t].TaskAdded?
    ensures TaskInv(Removed(tasks, t), workers, submits - {t}, records, loop)
  {}

  // ---------------------------------------------------------------------
  // Workers
  // ---------------------------------------------------------------------

  /** A worker sends an event at the tail of the queue. */
  lemma SentKeeps(s: State, t: TaskId, k: Kind, w': Worker)
    requires Inv(s) && t in s.workers && HasRoom(s)
    requires w'.record == s.workers[t].record
    requires WorkerOk(w', s.records[w'.record], Of(Queue(s.loop, s.chan), t) + [k])
    ensures Inv(Sent(s, t, k, w'))
  {
    var s' := Sent(s, t, k, w');
    var q, q' := Queue(s.loop, s.chan), Queue(s'.loop, s'.chan);
    var e := Event(t, w'.record, k);
    assert q' == q + [e];
    forall x | x in s'.workers
      ensures s'.workers[x].record in s'.records && WorkerOk(s'.workers[x], s'.records[s'.workers[x].record], Of(q', x)) {
      OfAppend(q, e, x);
      assert x != t ==> Of(q', x) == Of(q, x);
    }
  }

  lemma SendEarlyKeeps(s: State, t: TaskId, k: Kind)
    requires Inv(s) && CanSendEarly(s, t, k)
    ensures Inv(DoSendEarly(s, t, k))
  {
    var w := s.workers[t];
    var w' := w.(phase := if k.Start? then Started else Phase.Over);
    SendKeepsWorker(w, s.records[w.record], Of(Queue(s.loop, s.chan), t), k, w');
    SentKeeps(s, t, k, w');
  }

  lemma CopyFailedKeeps(s: State, t: TaskId, k: Kind)
    requires Inv(s) && CanCopyFailed(s, t, k)
    ensures Inv(DoCopyFailed(s, t, k))
  {
    var w := s.workers[t];
    SendKeepsWorker(w, s.records[w.record], Of(Queue(s.loop, s.chan), t), k, w.(phase := Phase.Over));
    SentKeeps(s, t, k, w.(phase := Phase.Over));
  }

  lemma FinishKeeps(s: State, t: TaskId)
    requires Inv(s) && CanFinish(s, t)
    ensures Inv(DoFinish(s, t))
  {
    var w := s.workers[t];
    SendKeepsWorker(w, s.records[w.record], Of(Queue(s.loop, s.chan), t), Complete(w.progress), w.(phase := Phase.Over));
    SentKeeps(s, t, Complete(w.progress), w.(phase := Phase.Over));
  }

  lemma SendUpdateKeeps(s: State, t: TaskId)
    requires Inv(s) && CanSendUpdate(s, t)
    ensures Inv(DoSendUpdate(s, t))
  {
    var w := s.workers[t];
    var k, w' := Update(w.ticker.bytes), w.(ticker := Waiting);
    SendKeepsWorker(w, s.records[w.record], Of(Queue(s.loop, s.chan), t), k, w');
    SentKeeps(s, t, k, w');
  }

  /** A move that only the worker itself sees. */
  lemma MoveKeeps(s: State, t: TaskId, w': Worker)
    requires Inv(s) && t in s.workers && w'.record == s.workers[t].record
    requires WorkerOk(w', s.records[w'.record], Of(Queue(s.loop, s.chan), t))
    ensures Inv(s.(workers := s.workers[t := w']))
  {}

  predicate IsMove(step: Step) {
    step.StartCopy? || step.Write? || step.CopyDone? || step.Tick? || step.StopTicker?
  }

  function Moved(w: Worker, step: Step): Worker
    requires IsMove(step)
  {
    match step
    case StartCopy(_) => w.(phase := Copying, progress := 0, ticker := Waiting)
    case Write(_, n) => w.(progress := w.progress + n)
    case CopyDone(_) => w.(phase := Copied)
    case Tick(_) => w.(ticker := Sending(w.progress))
    case StopTicker(_) => w.(ticker := Off)
  }

  lemma MovedOk(w: Worker, r: Record, ks: seq<Kind>, step: Step)
    requires WorkerOk(w, r, ks) && IsMove(step)
    requires step.StartCopy? ==> w.phase.Started?
    requires step.Write? ==> w.phase.Copying? && w.progress + step.n <= MAX_INT64
    requires step.CopyDone? ==> w.phase.Copying?
    requires step.Tick? || step.StopTicker? ==> w.ticker.Waiting?
    ensures WorkerOk(Moved(w, step), r, ks)
  {
    MoveKeepsWorker(w, r, ks, Moved(w, step));
  }

  lemma MoveStep(s: State, step: Step)
    requires WorkerInv(s.workers, s.records, Queue(s.loop, s.chan)) && Enabled(s, step) && IsMove(step)
    ensures step.t in s.workers && s.workers[step.t].record in s.records
    ensures var w := s.workers[step.t];
            && WorkerOk(Moved(w, step), s.records[w.record], Of(Queue(s.loop, s.chan), step.t))
            && Next(s, step) == s.(workers := s.workers[step.t := Moved(w, step)])
  {
    var w := s.workers[step.t];
    MovedOk(w, s.records[w.record], Of(Queue(s.loop, s.chan), step.t), step);
  }

  lemma WorkerStepKeeps(s: State, step: Step)
    requires Inv(s) && Enabled(s, step) && IsMove(step)
    ensures Inv(Next(s, step))
  {
    MoveStep(s, step);
    MoveKeeps(s, step.t, Moved(s.workers[step.t], step));
  }

  // ---------------------------------------------------------------------
  // The event loop
  // ---------------------------------------------------------------------

  lemma ReceiveKeeps(s: State)
    requires Inv(s) && CanReceive(s)
    ensures Inv(DoReceive(s))
  {
    assert Queue(DoReceive(s).loop, DoReceive(s).chan) == Queue(s.loop, s.chan);
  }

  /** The loop's record-not-found branch is never taken. */
  lemma HeldIsKnown(s: State)
    requires Inv(s) && (s.loop.Received? || s.loop.TaskRemoved?)
    ensures var e := s.loop.e;
            && e.record in s.records && e.task in s.workers && s.workers[e.task].record == e.record
            && Of(Queue(s.loop, s.chan), e.task) == [e.kind] + Of(s.chan, e.task)
            && (forall t | t != e.task :: Of(Queue(s.loop, s.chan), t) == Of(s.chan, t))
  {
    var q, e := Queue(s.loop, s.chan), s.loop.e;
    assert q[0] == e && q[1..] == s.chan;
    assert e.task in s.workers && e.record == s.workers[e.task].record;
  }

  /** The oldest event is applied to its record. */
  lemma ApplyKeepsWorkers(workers: map<TaskId, Worker>, records: map<RecordId, Record>, owner: map<RecordId, TaskId>,
                          q: seq<Event>)
    requires WorkerInv(workers, records, q) && OwnerInv(workers, records, owner)
    requires q != [] && q[0].task in workers && q[0].record == workers[q[0].task].record
    ensures Advance(StageOf(records[q[0].record].status), q[0].kind) != Broken
    ensures WorkerInv(workers, records[q[0].record := Applied(records[q[0].record], q[0].kind)], q[1..])
  {
    var e := q[0];
    var records' := records[e.record := Applied(records[e.record], e.kind)];
    ApplyKeepsWorker(workers[e.task], records[e.record], Of(q, e.task));
    assert Of(q, e.task)[1..] == Of(q[1..], e.task);
    forall t | t in workers && t != e.task
      ensures workers[t].record in records' && WorkerOk(workers[t], records'[workers[t].record], Of(q[1..], t)) {
      assert owner[workers[t].record] == t;
      assert Of(q, t) == Of(q[1..], t);
    }
  }

  lemma ApplyKeepsRecords(workers: map<TaskId, Worker>, records: map<RecordId, Record>, owner: map<RecordId, TaskId>,
                          r: RecordId, k: Kind)
    requires OwnerInv(workers, records, owner) && RecordInv(records, owner) && r in records
    ensures OwnerInv(workers, records[r := Applied(records[r], k)], owner)
    ensures RecordInv(records[r := Applied(records[r], k)], owner)
  {
    ApplyKeepsDoneOnce(records[r], k);
  }

  /** The records, and what is left of the queue, once the held event is applied. */
  lemma HeldApplied(s: State)
    requires Inv(s) && (s.loop.Received? || s.loop.TaskRemoved?)
    ensures var e := s.loop.e;
            e.record in s.records &&
            var records' := s.records[e.record := Applied(s.records[e.record], e.kind)];
            && WorkerInv(s.workers, records', s.chan) && OwnerInv(s.workers, records', s.owner)
            && RecordInv(records', s.owner)
            && Advance(StageOf(s.records[e.record].status), e.kind) != Broken
  {
    HeldIsKnown(s);
    var q, e := Queue(s.loop, s.chan), s.loop.e;
    assert q[0] == e && q[1..] == s.chan;
    ApplyKeepsWorkers(s.workers, s.records, s.owner, q);
    ApplyKeepsRecords(s.workers, s.records, s.owner, e.record, e.kind);
  }

  lemma TailKeepsEvents(workers: map<TaskId, Worker>, loop: Loop, loop': Loop, q: seq<Event>)
    requires EventInv(workers, loop, q) && q != [] && !loop'.TaskRemoved?
    ensures EventInv(workers, loop', q[1..])
  {
    assert forall i | 0 <= i < |q[1..]| :: q[1..][i] == q[i + 1];
  }

  lemma AboutAppend(xs: seq<External>, x: External, r: RecordId)
    ensures About(xs + [x], r) == About(xs, r) + if x.record == r then [x.kind] else []
  {
    assert (xs + [x])[..|xs|] == xs;
  }

  /** A record and the broadcasts about it move on together. */
  lemma BroadcastStep(records: map<RecordId, Record>, xs: seq<External>, x: External)
    requires BroadcastInv(records, xs) && NoUpdates(xs) && x.record in records
    requires Advance(StageOf(records[x.record].status), x.kind) != Broken
    ensures var records' := records[x.record := Applied(records[x.record], x.kind)];
            var xs' := if x.kind.Update? then xs else xs + [x];
            BroadcastInv(records', xs') && NoUpdates(xs')
  {
    AppliedAdvances(records[x.record], x.kind);
    var xs' := if x.kind.Update? then xs else xs + [x];
    forall r ensures After(Fresh, About(xs', r)) ==
      (if r == x.record then Advance(StageOf(records[r].status), x.kind)
       else if r in records then StageOf(records[r].status) else Fresh) {
      if !x.kind.Update? {
        AboutAppend(xs, x, r);
        if r == x.record {
          AfterAppend(Fresh, About(xs, r), x.kind);
        } else {
          assert About(xs', r) == About(xs, r);
        }
      }
    }
  }

  /** Announcing the applied event keeps the broadcast history in step. */
  lemma ApplyKeepsBroadcasts(s: State)
    requires Inv(s) && (s.loop.Received? || s.loop.TaskRemoved?) && s.loop.e.record in s.records
    ensures var e := s.loop.e;
            var records' := s.records[e.record := Applied(s.records[e.record], e.kind)];
            if e.kind.Update? then BroadcastInv(records', s.broadcasts)
            else BroadcastInv(records', s.broadcasts + [External(e.record, e.kind)])
                 && NoUpdates(s.broadcasts + [External(e.record, e.kind)])
  {
    var e := s.loop.e;
    var x := External(e.record, e.kind);
    assert Announced(s.loop, s.broadcasts) == s.broadcasts;
    HeldApplied(s);
    BroadcastStep(s.records, s.broadcasts, x);
  }

  lemma RemoveKeepsTasks(tasks: Table, workers: map<TaskId, Worker>, submits: map<TaskId, Submit>,
                         records: map<RecordId, Record>, e: Event)
    requires TaskInv(tasks, workers, submits, records, Received(e)) && e.task in workers
    ensures TaskInv(Removed(tasks, e.task), workers, submits, records, TaskRemoved(e))
  {}

  lemma RemovalKeepsTasks(s: State)
    requires Inv(s) && s.loop.Received? && s.loop.e.record in s.records && s.loop.e.kind.Terminal()
    ensures var s' := DoHandle(s);
            TaskInv(s'.tasks, s'.workers, s'.submits, s'.records, s'.loop) && DrainExact(s'.tasks)
  {
    HeldIsKnown(s);
    OpKeepsDrain(s.tasks, Remove(s.loop.e.task));
    RemoveKeepsTasks(s.tasks, s.workers, s.submits, s.records, s.loop.e);
  }

  lemma HandleRemovalKeeps(s: State)
    requires Inv(s) && s.loop.Received? && s.loop.e.kind.Terminal()
    ensures Inv(DoHandle(s))
  {
    HeldIsKnown(s);
    RemovalKeepsTasks(s);
    var s' := DoHandle(s);
    assert Queue(s'.loop, s'.chan) == Queue(s.loop, s.chan);
    assert Announced(s'.loop, s'.broadcasts) == Announced(s.loop, s.broadcasts);
  }

  lemma AppliedFinality(r: Record, k: Kind)
    ensures IsFinal(Applied(r, k).status) <==> IsFinal(r.status) || k.Terminal()
  {}

  /** Only a terminal event, and only after its task was removed, makes a record final. */
  lemma ApplyKeepsTasks(tasks: Table, workers: map<TaskId, Worker>, submits: map<TaskId, Submit>,
                        records: map<RecordId, Record>, owner: map<RecordId, TaskId>, loop: Loop, loop': Loop)
    requires TaskInv(tasks, workers, submits, records, loop) && OwnerInv(workers, records, owner)
    requires (loop.Received? && !loop.e.kind.Terminal()) || (loop.TaskRemoved? && loop.e.kind.Terminal())
    requires loop.e.task in workers && workers[loop.e.task].record == loop.e.record && !loop'.TaskRemoved?
    ensures TaskInv(tasks, workers, submits,
                    records[loop.e.record := Applied(records[loop.e.record], loop.e.kind)], loop')
  {
    AppliedFinality(records[loop.e.record], loop.e.kind);
    forall t | t in workers && t != loop.e.task ensures workers[t].record != loop.e.record {
      assert owner[workers[t].record] == t && owner[loop.e.record] == loop.e.task;
    }
  }

  /** The state after the held event is applied and the loop moves to `loop'`. */
  function AfterApply(s: State, loop': Loop): State
    requires (s.loop.Received? || s.loop.TaskRemoved?) && s.loop.e.record in s.records
  {
    s.(records := s.records[s.loop.e.record := Applied(s.records[s.loop.e.record], s.loop.e.kind)], loop := loop')
  }

  predicate MovesOn(s: State, loop': Loop) {
    && (s.loop.TaskRemoved? || (s.loop.Received? && !s.loop.e.kind.Terminal()))
    && loop' == if s.loop.e.kind.Update? then Head else Announcing(External(s.loop.e.record, s.loop.e.kind))
  }

  lemma ApplyKeepsQueue(s: State, loop': Loop)
    requires Inv(s) && MovesOn(s, loop') && s.loop.e.record in s.records
    ensures var s' := AfterApply(s, loop');
            && WorkerInv(s'.workers, s'.records, Queue(loop', s'.chan)) && OwnerInv(s'.workers, s'.records, s'.owner)
            && RecordInv(s'.records, s'.owner) && EventInv(s'.workers, loop', Queue(loop', s'.chan))
  {
    HeldApplied(s);
    TailKeepsEvents(s.workers, s.loop, loop', Queue(s.loop, s.chan));
    assert Queue(loop', s.chan) == Queue(s.loop, s.chan)[1..] == s.chan;
  }

  lemma ApplyKeepsTable(s: State, loop': Loop)
    requires Inv(s) && MovesOn(s, loop') && s.loop.e.record in s.records
    ensures var s' := AfterApply(s, loop');
            && TaskInv(s'.tasks, s'.workers, s'.submits, s'.records, loop')
            && BroadcastInv(s'.records, Announced(loop', s'.broadcasts)) && NoUpdates(Announced(loop', s'.broadcasts))
  {
    HeldIsKnown(s);
    ApplyKeepsBroadcasts(s);
    ApplyKeepsTasks(s.tasks, s.workers, s.submits, s.records, s.owner, s.loop, loop');
    assert Announced(s.loop, s.broadcasts) == s.broadcasts;
    assert s.loop.e.kind.Update? ==> Announced(loop', s.broadcasts) == s.broadcasts;
  }

  lemma ApplyKeeps(s: State, loop': Loop)
    requires Inv(s) && MovesOn(s, loop') && s.loop.e.record in s.records
    ensures Inv(AfterApply(s, loop'))
  {
    ApplyKeepsQueue(s, loop');
    ApplyKeepsTable(s, loop');
  }

  lemma HandleUpdateKeeps(s: State)
    requires Inv(s) && s.loop.Received? && !s.loop.e.kind.Terminal()
    ensures Inv(DoHandle(s))
  {
    HeldIsKnown(s);
    ApplyKeeps(s, DoHandle(s).loop);
  }

  lemma FinaliseKeeps(s: State)
    requires Inv(s) && CanFinalise(s)
    ensures Inv(DoFinalise(s))
  {
    assert s.loop.e.kind.Terminal();
    ApplyKeeps(s, DoFinalise(s).loop);
  }

  lemma OfferedKeeps(b: Subscriber, broadcasts: seq<External>, x: External)
    requires SubscriberOk(b, broadcasts)
    ensures SubscriberOk(Offered(b, x, |broadcasts|), broadcasts + [x])
  {
    BroadcastKeepsSubscriber(b, broadcasts, x);
    if |b.buffer| < BUFFER {
      AcceptKeepsSubscriber(b, broadcasts, x);
    }
  }

  lemma BroadcastKeepsSubscriber(b: Subscriber, broadcasts: seq<External>, x: External)
    requires SubscriberOk(b, broadcasts)
    ensures SubscriberOk(b, broadcasts + [x])
  {}

  lemma AcceptKeepsSubscriber(b: Subscriber, broadcasts: seq<External>, x: External)
    requires SubscriberOk(b, broadcasts) && |b.buffer| < BUFFER
    ensures SubscriberOk(b.(buffer := b.buffer + [x], marks := b.marks + [|broadcasts|]), broadcasts + [x])
  {
    var got, got' := b.consumed + b.buffer, b.consumed + (b.buffer + [x]);
    assert got' == got + [x];
    assert forall j | 0 <= j < |got| :: got'[j] == got[j];
  }

  lemma AnnounceKeeps(s: State)
    requires Inv(s) && s.loop.Announcing?
    ensures Inv(DoAnnounce(s))
  {
    var s' := DoAnnounce(s);
    assert Queue(s'.loop, s'.chan) == Queue(s.loop, s.chan);
    assert Announced(s'.loop, s'.broadcasts) == Announced(s.loop, s.broadcasts);
    forall i | 0 <= i < |s'.subscribers| ensures SubscriberOk(s'.subscribers[i], s'.broadcasts) {
      OfferedKeeps(s.subscribers[i], s.broadcasts, s.loop.x);
    }
  }

  lemma ConsumedOk(b: Subscriber, broadcasts: seq<External>)
    requires SubscriberOk(b, broadcasts) && b.buffer != []
    ensures SubscriberOk(b.(buffer := b.buffer[1..], consumed := b.consumed + [b.buffer[0]]), broadcasts)
  {
    assert (b.consumed + [b.buffer[0]]) + b.buffer[1..] == b.consumed + b.buffer;
  }

  lemma ConsumeKeeps(s: State, i: nat)
    requires Inv(s) && CanConsume(s, i)
    ensures Inv(DoConsume(s, i))
  {
    ConsumedOk(s.subscribers[i], s.broadcasts);
  }

  lemma SubscribeKeeps(s: State)
    requires Inv(s)
    ensures Inv(DoSubscribe(s))
  {}

  lemma StopLoopKeeps(s: State)
    requires Inv(s) && s.loop.Head?
    ensures Inv(s.(loop := Stopped))
  {
    assert Queue(Stopped, s.chan) == Queue(s.loop, s.chan);
    assert Announced(Stopped, s.broadcasts) == Announced(s.loop, s.broadcasts);
  }

  // ---------------------------------------------------------------------
  // All steps
  // ---------------------------------------------------------------------

  predicate IsLoopStep(step: Step) {
    step.Receive? || step.Handle? || step.Finalise? || step.Announce? || step.StopLoop?
  }

  lemma LoopStepKeeps(s: State, step: Step)
    requires Inv(s) && Enabled(s, step) && IsLoopStep(step)
    ensures Inv(Next(s, step))
  {
    match step
    case Receive => ReceiveKeeps(s);
    case Handle => if s.loop.e.kind.Terminal() { HandleRemovalKeeps(s); } else { HandleUpdateKeeps(s); }
    case Finalise => FinaliseKeeps(s);
    case Announce => AnnounceKeeps(s);
    case StopLoop => StopLoopKeeps(s);
  }

  lemma TaskStepKeeps(s: State, step: Step)
    requires Inv(s) && Enabled(s, step) && !IsLoopStep(step)
    ensures Inv(Next(s, step))
  {
    match step
    case AddTask(t) => AddTaskKeeps(s, t);
    case StoreRecord(t) => StoreRecordKeeps(s, t);
    case SendEarly(t, k) => SendEarlyKeeps(s, t, k);
    case StartCopy(t) => WorkerStepKeeps(s, step);
    case Write(t, n) => WorkerStepKeeps(s, step);
    case CopyDone(t) => WorkerStepKeeps(s, step);
    case CopyFailed(t, k) => CopyFailedKeeps(s, t, k);
    case Finish(t) => FinishKeeps(s, t);
    case Tick(t) => WorkerStepKeeps(s, step);
    case SendUpdate(t) => SendUpdateKeeps(s, t);
    case StopTicker(t) => WorkerStepKeeps(s, step);
    case Subscribe => SubscribeKeeps(s);
    case Consume(i) => ConsumeKeeps(s, i);
    case ShutdownDrain => OpKeepsDrain(s.tasks, DrainOnly);
    case _ =>
  }

  lemma StepKeeps(s: State, step: Step)
    requires Inv(s) && Enabled(s, step)
    ensures Inv(Next(s, step))
  {
    if IsLoopStep(step) {
      LoopStepKeeps(s, step);
    } else {
      TaskStepKeeps(s, step);
    }
  }
}
