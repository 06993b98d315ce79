/** Invariants of the downloader. */
module DownloaderInvariants {
  import opened Collections
  import opened DownloadEvents
  import opened DownloadRecords
  import opened Tasks
  import opened Downloader

  /** The event the loop holds, if its record has not been brought up to date. */
  function Held(loop: Loop): seq<Event> {
    if loop.Received? || loop.TaskRemoved? then [loop.e] else []
  }

  /** Everything sent and not yet applied, oldest first. */
  function Queue(loop: Loop, chan: seq<Event>): seq<Event> {
    Held(loop) + chan
  }

  function PhaseStage(p: Phase): Stage {
    match p
    case Preparing => Fresh
    case Over => Stage.Over
    case _ => Running
  }

  /** The last count the ticker has read or may still read. */
  function Reported(w: Worker): int {
    if w.ticker.Sending? then w.ticker.bytes else w.progress
  }

  /** A worker, its record, and the events between them: playing the events on
      the record's stage leads to the worker's, the counts climb towards the
      counter, and a completed record has the counter's value. */
  ghost predicate WorkerOk(w: Worker, r: Record, ks: seq<Kind>) {
    && After(StageOf(r.status), ks) == PhaseStage(w.phase)
    && 0 <= w.progress <= MAX_INT64 && Reported(w) <= w.progress
    && (w.phase.Preparing? || w.phase.Started? ==> w.ticker.Off? && w.progress == 0)
    && (forall i | 0 <= i < |ks| && ks[i].Complete? :: ks[i].total == w.progress && w.phase.Over?)
    && (!IsFinal(r.status) ==> Climbs(r.bytesDownloaded, ks, Reported(w)))
    && r.bytesDownloaded <= w.progress
    && (r.status.Completed? ==> r.bytesDownloaded == r.totalSize == w.progress && w.phase.Over?)
  }

  ghost predicate WorkerInv(workers: map<TaskId, Worker>, records: map<RecordId, Record>, q: seq<Event>) {
    forall t | t in workers :: workers[t].record in records && WorkerOk(workers[t], records[workers[t].record], Of(q, t))
  }

  /** Records and workers correspond one to one. */
  ghost predicate OwnerInv(workers: map<TaskId, Worker>, records: map<RecordId, Record>, owner: map<RecordId, TaskId>) {
    && (forall t | t in workers ::
          workers[t].record in records && workers[t].record in owner && owner[workers[t].record] == t)
    && (forall r | r in records :: r in owner && owner[r] in workers && workers[owner[r]].record == r)
  }

  ghost predicate RecordInv(records: map<RecordId, Record>, owner: map<RecordId, TaskId>) {
    forall r | r in records ::
      DoneOnce(records[r]) && (records[r].taskId.Some? ==> r in owner && records[r].taskId == Some(owner[r]))
  }

  ghost predicate EventInv(workers: map<TaskId, Worker>, loop: Loop, q: seq<Event>) {
    && (forall i | 0 <= i < |q| :: q[i].task in workers && q[i].record == workers[q[i].task].record)
    && (loop.TaskRemoved? ==> loop.e.kind.Terminal())
  }

  predicate Finalising(loop: Loop, t: TaskId) {
    loop.TaskRemoved? && loop.e.task == t
  }

  /** A started task is in the table exactly while its record is not final, but
      for the moment between its removal and the record's last transition. */
  ghost predicate TaskInv(tasks: Table, workers: map<TaskId, Worker>, submits: map<TaskId, Submit>,
                          records: map<RecordId, Record>, loop: Loop) {
    && (forall t | t in workers ::
          && t !in submits && workers[t].record in records
          && (t in tasks.entries <==> !IsFinal(records[workers[t].record].status) && !Finalising(loop, t))
          && (t in tasks.entries ==> tasks.entries[t] == workers[t].record))
    && (forall t | t in submits ::
          if submits[t].TaskAdded? then t in tasks.entries && tasks.entries[t] == submits[t].record else t !in tasks.entries)
    && (forall t | t in tasks.entries :: t in workers || t in submits)
  }

  /** The broadcasts about one download. */
  function About(xs: seq<External>, r: RecordId): seq<Kind>
    decreases |xs|
  {
    if xs == [] then []
    else About(xs[..|xs| - 1], r) + if xs[|xs| - 1].record == r then [xs[|xs| - 1].kind] else []
  }

  function Announced(loop: Loop, broadcasts: seq<External>): seq<External> {
    broadcasts + if loop.Announcing? then [loop.x] else []
  }

  ghost predicate BroadcastInv(records: map<RecordId, Record>, xs: seq<External>) {
    forall r :: After(Fresh, About(xs, r)) == if r in records then StageOf(records[r].status) else Fresh
  }

  ghost predicate NoUpdates(xs: seq<External>) {
    forall i | 0 <= i < |xs| :: !xs[i].kind.Update?
  }

  /** What a subscriber got is an order-preserving subsequence of the broadcasts
      since it subscribed. */
  ghost predicate SubscriberOk(b: Subscriber, broadcasts: seq<External>) {
    var got := b.consumed + b.buffer;
    && |b.buffer| <= BUFFER && |got| == |b.marks| && b.from <= |broadcasts|
    && (forall j | 0 <= j < |b.marks| :: b.from <= b.marks[j] < |broadcasts| && got[j] == broadcasts[b.marks[j]])
    && (forall i, j | 0 <= i < j < |b.marks| :: b.marks[i] < b.marks[j])
  }

  ghost predicate SubscriberInv(subscribers: seq<Subscriber>, broadcasts: seq<External>) {
    forall i | 0 <= i < |subscribers| :: SubscriberOk(subscribers[i], broadcasts)
  }

  ghost predicate Inv(s: State) {
    && WorkerInv(s.workers, s.records, Queue(s.loop, s.chan))
    && OwnerInv(s.workers, s.records, s.owner)
    && RecordInv(s.records, s.owner)
    && EventInv(s.workers, s.loop, Queue(s.loop, s.chan))
    && TaskInv(s.tasks, s.workers, s.submits, s.records, s.loop)
    && DrainExact(s.tasks)
    && |s.chan| <= EVENTS
    && BroadcastInv(s.records, Announced(s.loop, s.broadcasts))
    && NoUpdates(Announced(s.loop, s.broadcasts))
    && SubscriberInv(s.subscribers, s.broadcasts)
  }

  // ---------------------------------------------------------------------
  // One worker and its record
  // ---------------------------------------------------------------------

  /** Sending an event that moves the worker on. */
  lemma SendKeepsWorker(w: Worker, r: Record, ks: seq<Kind>, k: Kind, w': Worker)
    requires WorkerOk(w, r, ks)
    requires Advance(PhaseStage(w.phase), k) == PhaseStage(w'.phase) != Broken
    requires w'.progress == w.progress && Reported(w) <= Reported(w') <= w'.progress
    requires w'.phase.Started? ==> w'.ticker.Off? && w'.progress == 0
    requires !w'.phase.Preparing? && (w.phase.Over? ==> w'.phase.Over?)
    requires k.Update? ==> Reported(w) <= k.bytes <= Reported(w')
    requires k.Complete? ==> k.total == w.progress && w'.phase.Over?
    ensures WorkerOk(w', r, ks + [k])
  {
    AfterAppend(StageOf(r.status), ks, k);
    if !IsFinal(r.status) {
      ClimbsAppend(r.bytesDownloaded, ks, Reported(w), k, Reported(w'));
    }
  }

  /** A local move of the worker or its ticker. */
  lemma MoveKeepsWorker(w: Worker, r: Record, ks: seq<Kind>, w': Worker)
    requires WorkerOk(w, r, ks)
    requires PhaseStage(w'.phase) == PhaseStage(w.phase)
    requires 0 <= w.progress <= w'.progress <= MAX_INT64 && Reported(w) <= Reported(w') <= w'.progress
    requires w'.progress == w.progress || !w.phase.Over?
    requires w'.phase.Preparing? || w'.phase.Started? ==> w' == w
    requires w.phase.Over? <==> w'.phase.Over?
    ensures WorkerOk(w', r, ks)
  {
    if !IsFinal(r.status) {
      ClimbsAppend(r.bytesDownloaded, ks, Reported(w), Kind.Cancel, Reported(w'));
    }
  }

  /** Applying the oldest event to the record. */
  lemma ApplyKeepsWorker(w: Worker, r: Record, ks: seq<Kind>)
    requires WorkerOk(w, r, ks) && ks != []
    ensures Advance(StageOf(r.status), ks[0]) != Broken
    ensures WorkerOk(w, Applied(r, ks[0]), ks[1..])
    ensures r.bytesDownloaded <= Applied(r, ks[0]).bytesDownloaded
  {
    BrokenStays(ks[1..]);
    AppliedAdvances(r, ks[0]);
    if !IsFinal(r.status) {
      ClimbsBounds(r.bytesDownloaded, ks, Reported(w));
      if ks[0].Update? {
        ClimbsBounds(ks[0].bytes, ks[1..], Reported(w));
      }
    }
    assert forall i | 0 <= i < |ks[1..]| :: ks[1..][i] == ks[i + 1];
  }
}
