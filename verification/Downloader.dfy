/** The downloader as interleaved steps: submitting callers, workers and their
    progress tickers, one bounded event channel, the event loop, and shutdown. */
module Downloader {
  import opened DownloadEvents
  import opened DownloadRecords
  import opened Tasks

  /** Capacity of the events channel, and of a subscriber's channel. */
  const EVENTS: int := 10
  const BUFFER: int := 10

  datatype External = External(record: RecordId, kind: Kind)

  /** A worker's position in Execute. */
  datatype Phase = Preparing | Started | Copying | Copied | Over

  /** The ticker goroutine of a download: waiting for a tick, or blocked on
      sending the count it has read. */
  datatype Ticker = Off | Waiting | Sending(bytes: int)

  datatype Worker = Worker(record: RecordId, phase: Phase, progress: int, ticker: Ticker)

  /** SubmitDownload after its shutdown check, and after it has added the task. */
  datatype Submit = Checked(record: RecordId) | TaskAdded(record: RecordId)

  /** The event loop: at its head, with an event, after the task removal of a
      terminal event, about to broadcast, or gone. */
  datatype Loop = Head | Received(e: Event) | TaskRemoved(e: Event) | Announcing(x: External) | Stopped

  datatype Shutdown = NotCalled | Flagged | Graceful | Cancelling | Done

  /** `from` and `marks` are history: the broadcast at which the subscription
      began, and which broadcasts it accepted. */
  datatype Subscriber = Subscriber(buffer: seq<External>, consumed: seq<External>, from: nat, marks: seq<nat>)

  datatype State = State(
    records: map<RecordId, Record>,
    tasks: Table,
    workers: map<TaskId, Worker>,
    submits: map<TaskId, Submit>,
    canceled: set<TaskId>,           // tasks whose context is cancelled
    chan: seq<Event>,
    loop: Loop,
    shutdown: Shutdown,
    subscribers: seq<Subscriber>,
    // history
    owner: map<RecordId, TaskId>,    // the task a stored record was created with
    broadcasts: seq<External>)

  const INIT: State := State(map[], NEW, map[], map[], {}, [], Head, NotCalled, [], map[], [])

  datatype Step =
    | Check(t: TaskId, r: RecordId)
    | AddTask(t: TaskId)
    | StoreRecord(t: TaskId)
    | Cancel(t: TaskId)
    | SendEarly(t: TaskId, k: Kind)
    | StartCopy(t: TaskId)
    | Write(t: TaskId, n: nat)
    | CopyDone(t: TaskId)
    | CopyFailed(t: TaskId, k: Kind)
    | Finish(t: TaskId)
    | Tick(t: TaskId)
    | SendUpdate(t: TaskId)
    | StopTicker(t: TaskId)
    | Receive
    | Handle
    | Finalise
    | Announce
    | StopLoop
    | Subscribe
    | Consume(i: nat)
    | ShutdownFlag
    | ShutdownDrain
    | ShutdownCancelAll
    | ShutdownDone

  // ---------------------------------------------------------------------
  // Submitting
  // ---------------------------------------------------------------------

  predicate CanCheck(s: State, t: TaskId) {
    s.shutdown.NotCalled? && t !in s.workers && t !in s.submits && t !in s.tasks.entries
  }

  function DoCheck(s: State, t: TaskId, r: RecordId): State {
    s.(submits := s.submits[t := Checked(r)])
  }

  predicate CanAddTask(s: State, t: TaskId) {
    t in s.submits && s.submits[t].Checked?
  }

  /** The table may have entered drain mode in the meantime. */
  function DoAddTask(s: State, t: TaskId): State
    requires t in s.submits
  {
    var r := s.submits[t].record;
    if Accepts(s.tasks, t) then s.(tasks := Added(s.tasks, t, r), submits := s.submits[t := TaskAdded(r)])
    else s.(submits := s.submits - {t}, canceled := s.canceled + {t})
  }

  predicate CanStoreRecord(s: State, t: TaskId) {
    t in s.submits && s.submits[t].TaskAdded?
  }

  /** A taken record id rolls the task back; otherwise the worker starts. */
  function DoStoreRecord(s: State, t: TaskId): State
    requires t in s.submits
  {
    var r := s.submits[t].record;
    if r in s.records
    then s.(tasks := Removed(s.tasks, t), submits := s.submits - {t}, canceled := s.canceled + {t})
    else s.(records := s.records[r := New(t)], submits := s.submits - {t}, owner := s.owner[r := t],
            workers := s.workers[t := Worker(r, Preparing, 0, Off)])
  }

  // ---------------------------------------------------------------------
  // Workers
  // ---------------------------------------------------------------------

  predicate HasRoom(s: State) {
    |s.chan| < EVENTS
  }

  predicate InPhase(s: State, t: TaskId, p: Phase) {
    t in s.workers && s.workers[t].phase == p
  }

  /** A failure is reported as Cancel only under a cancelled context. */
  predicate FailureKind(s: State, t: TaskId, k: Kind) {
    k.Error? || (k.Cancel? && t in s.canceled)
  }

  predicate CanSendEarly(s: State, t: TaskId, k: Kind) {
    InPhase(s, t, Preparing) && HasRoom(s) && (k.Start? || FailureKind(s, t, k))
  }

  function Sent(s: State, t: TaskId, k: Kind, w: Worker): State
    requires t in s.workers
  {
    s.(workers := s.workers[t := w], chan := s.chan + [Event(t, s.workers[t].record, k)])
  }

  function DoSendEarly(s: State, t: TaskId, k: Kind): State
    requires t in s.workers
  {
    Sent(s, t, k, s.workers[t].(phase := if k.Start? then Started else Phase.Over))
  }

  /** Reset the counter, then start the ticker and the copy. */
  function DoStartCopy(s: State, t: TaskId): State
    requires t in s.workers
  {
    s.(workers := s.workers[t := s.workers[t].(phase := Copying, progress := 0, ticker := Waiting)])
  }

  predicate CanWrite(s: State, t: TaskId, n: nat) {
    InPhase(s, t, Copying) && s.workers[t].progress + n <= MAX_INT64
  }

  function DoWrite(s: State, t: TaskId, n: nat): State
    requires t in s.workers
  {
    s.(workers := s.workers[t := s.workers[t].(progress := s.workers[t].progress + n)])
  }

  function DoCopyDone(s: State, t: TaskId): State
    requires t in s.workers
  {
    s.(workers := s.workers[t := s.workers[t].(phase := Copied)])
  }

  predicate CanCopyFailed(s: State, t: TaskId, k: Kind) {
    InPhase(s, t, Copying) && HasRoom(s) && FailureKind(s, t, k)
  }

  function DoCopyFailed(s: State, t: TaskId, k: Kind): State
    requires t in s.workers
  {
    Sent(s, t, k, s.workers[t].(phase := Phase.Over))
  }

  predicate CanFinish(s: State, t: TaskId) {
    InPhase(s, t, Copied) && HasRoom(s)
  }

  function DoFinish(s: State, t: TaskId): State
    requires t in s.workers
  {
    Sent(s, t, Complete(s.workers[t].progress), s.workers[t].(phase := Phase.Over))
  }

  predicate CanTick(s: State, t: TaskId) {
    t in s.workers && s.workers[t].ticker.Waiting?
  }

  function DoTick(s: State, t: TaskId): State
    requires t in s.workers
  {
    s.(workers := s.workers[t := s.workers[t].(ticker := Sending(s.workers[t].progress))])
  }

  predicate CanSendUpdate(s: State, t: TaskId) {
    t in s.workers && s.workers[t].ticker.Sending? && HasRoom(s)
  }

  function DoSendUpdate(s: State, t: TaskId): State
    requires t in s.workers && s.workers[t].ticker.Sending?
  {
    Sent(s, t, Update(s.workers[t].ticker.bytes), s.workers[t].(ticker := Waiting))
  }

  /** Its context ends with the copy or with the task's own. */
  predicate CanStopTicker(s: State, t: TaskId) {
    t in s.workers && s.workers[t].ticker.Waiting? && (!s.workers[t].phase.Copying? || t in s.canceled)
  }

  function DoStopTicker(s: State, t: TaskId): State
    requires t in s.workers
  {
    s.(workers := s.workers[t := s.workers[t].(ticker := Off)])
  }

  // ---------------------------------------------------------------------
  // The event loop
  // ---------------------------------------------------------------------

  predicate CanReceive(s: State) {
    s.loop.Head? && s.chan != []
  }

  function DoReceive(s: State): State
    requires s.chan != []
  {
    s.(loop := Received(s.chan[0]), chan := s.chan[1..])
  }

  /** Up to the first point where other goroutines see a difference. */
  function DoHandle(s: State): State
    requires s.loop.Received?
  {
    var e := s.loop.e;
    if e.record !in s.records then s.(loop := Announcing(External(e.record, Error(0))))
    else if e.kind.Terminal() then
      s.(tasks := Removed(s.tasks, e.task), loop := TaskRemoved(e),
         canceled := if !e.kind.Cancel? && e.task in s.tasks.entries then s.canceled + {e.task} else s.canceled)
    else
      s.(records := s.records[e.record := Applied(s.records[e.record], e.kind)],
         loop := if e.kind.Start? then Announcing(External(e.record, e.kind)) else Head)
  }

  predicate CanFinalise(s: State) {
    s.loop.TaskRemoved? && s.loop.e.record in s.records
  }

  function DoFinalise(s: State): State
    requires CanFinalise(s)
  {
    var e := s.loop.e;
    s.(records := s.records[e.record := Applied(s.records[e.record], e.kind)],
       loop := Announcing(External(e.record, e.kind)))
  }

  /** A subscriber's buffered channel after a non-blocking send. */
  function Accept(buffer: seq<External>, x: External): seq<External> {
    if |buffer| < BUFFER then buffer + [x] else buffer
  }

  /** A full subscriber is skipped. */
  function Offered(b: Subscriber, x: External, index: nat): Subscriber {
    b.(buffer := Accept(b.buffer, x), marks := if |b.buffer| < BUFFER then b.marks + [index] else b.marks)
  }

  function DoAnnounce(s: State): State
    requires s.loop.Announcing?
  {
    s.(broadcasts := s.broadcasts + [s.loop.x], loop := Head,
       subscribers := seq(|s.subscribers|, i requires 0 <= i < |s.subscribers| =>
                            Offered(s.subscribers[i], s.loop.x, |s.broadcasts|)))
  }

  function DoSubscribe(s: State): State {
    s.(subscribers := s.subscribers + [Subscriber([], [], |s.broadcasts|, [])])
  }

  predicate CanConsume(s: State, i: nat) {
    i < |s.subscribers| && s.subscribers[i].buffer != []
  }

  function DoConsume(s: State, i: nat): State
    requires CanConsume(s, i)
  {
    var b := s.subscribers[i];
    s.(subscribers := s.subscribers[i := b.(buffer := b.buffer[1..], consumed := b.consumed + [b.buffer[0]])])
  }

  // ---------------------------------------------------------------------
  // Shutdown; both waits may end by timeout
  // ---------------------------------------------------------------------

  predicate Drained(s: State) {
    s.tasks.drainedCloses > 0
  }

  function DoShutdownDrain(s: State): State {
    s.(tasks := Draining(s.tasks), shutdown := Graceful)
  }

  function DoShutdownCancelAll(s: State): State {
    s.(canceled := s.canceled + s.tasks.entries.Keys, shutdown := Cancelling)
  }

  /** Either a drained table lets both waits pass, or the second one ends. */
  predicate CanShutdownDone(s: State) {
    (s.shutdown.Graceful? && Drained(s)) || s.shutdown.Cancelling?
  }

  predicate Enabled(s: State, step: Step) {
    match step
    case Check(t, r) => CanCheck(s, t)
    case AddTask(t) => CanAddTask(s, t)
    case StoreRecord(t) => CanStoreRecord(s, t)
    case Cancel(t) => true
    case SendEarly(t, k) => CanSendEarly(s, t, k)
    case StartCopy(t) => InPhase(s, t, Started)
    case Write(t, n) => CanWrite(s, t, n)
    case CopyDone(t) => InPhase(s, t, Copying)
    case CopyFailed(t, k) => CanCopyFailed(s, t, k)
    case Finish(t) => CanFinish(s, t)
    case Tick(t) => CanTick(s, t)
    case SendUpdate(t) => CanSendUpdate(s, t)
    case StopTicker(t) => CanStopTicker(s, t)
    case Receive => CanReceive(s)
    case Handle => s.loop.Received?
    case Finalise => CanFinalise(s)
    case Announce => s.loop.Announcing?
    case StopLoop => s.loop.Head? && s.shutdown.Done?
    case Subscribe => true
    case Consume(i) => CanConsume(s, i)
    case ShutdownFlag => s.shutdown.NotCalled?
    case ShutdownDrain => s.shutdown.Flagged?
    case ShutdownCancelAll => s.shutdown.Graceful?
    case ShutdownDone => CanShutdownDone(s)
  }

  function Next(s: State, step: Step): State
    requires Enabled(s, step)
  {
    match step
    case Check(t, r) => DoCheck(s, t, r)
    case AddTask(t) => DoAddTask(s, t)
    case StoreRecord(t) => DoStoreRecord(s, t)
    case Cancel(t) => s.(canceled := s.canceled + {t})
    case SendEarly(t, k) => DoSendEarly(s, t, k)
    case StartCopy(t) => DoStartCopy(s, t)
    case Write(t, n) => DoWrite(s, t, n)
    case CopyDone(t) => DoCopyDone(s, t)
    case CopyFailed(t, k) => DoCopyFailed(s, t, k)
    case Finish(t) => DoFinish(s, t)
    case Tick(t) => DoTick(s, t)
    case SendUpdate(t) => DoSendUpdate(s, t)
    case StopTicker(t) => DoStopTicker(s, t)
    case Receive => DoReceive(s)
    case Handle => DoHandle(s)
    case Finalise => DoFinalise(s)
    case Announce => DoAnnounce(s)
    case StopLoop => s.(loop := Stopped)
    case Subscribe => DoSubscribe(s)
    case Consume(i) => DoConsume(s, i)
    case ShutdownFlag => s.(shutdown := Flagged)
    case ShutdownDrain => DoShutdownDrain(s)
    case ShutdownCancelAll => DoShutdownCancelAll(s)
    case ShutdownDone => s.(shutdown := Done)
  }
}
