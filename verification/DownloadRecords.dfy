/** Download records: guarded transitions between statuses. */
module DownloadRecords {
  import opened Collections
  import opened DownloadEvents

  datatype Status = Requested | InProgress | Failed | Canceled | Completed

  /** `doneCloses` counts how often the `done` channel was closed; Go panics on
      the second time. */
  datatype Record = Record(
    taskId: Option<TaskId>,
    status: Status,
    bytesDownloaded: int,
    expectedSize: int,
    totalSize: int,
    cause: Option<Cause>,
    doneCloses: nat)

  function New(t: TaskId): Record {
    Record(Some(t), Requested, 0, -1, 0, None, 0)
  }

  predicate IsFinal(st: Status) {
    st.Completed? || st.Canceled? || st.Failed?
  }

  function StageOf(st: Status): Stage {
    match st
    case Requested => Fresh
    case InProgress => Running
    case _ => Over
  }

  /** What the event loop does to the record of an event. */
  function Applied(r: Record, k: Kind): Record {
    match k
    case Start(size) =>
      if r.status != Requested then r else r.(status := InProgress, expectedSize := size)
    case Update(bytes) =>
      if r.status != InProgress then r else r.(bytesDownloaded := bytes)
    case Cancel =>
      if IsFinal(r.status) then r else r.(status := Canceled, taskId := None, doneCloses := r.doneCloses + 1)
    case Error(cause) =>
      if IsFinal(r.status) then r
      else r.(status := Failed, cause := Some(cause), taskId := None, doneCloses := r.doneCloses + 1)
    case Complete(total) =>
      if IsFinal(r.status) then r
      else r.(status := Completed, bytesDownloaded := total, totalSize := total, taskId := None,
              doneCloses := r.doneCloses + 1)
  }

  /** `done` is closed exactly in the final states, exactly once, and the task
      link is dropped at the same moment. */
  ghost predicate DoneOnce(r: Record) {
    && r.doneCloses == (if IsFinal(r.status) then 1 else 0)
    && (r.taskId.None? <==> IsFinal(r.status))
  }

  lemma ApplyKeepsDoneOnce(r: Record, k: Kind)
    requires DoneOnce(r)
    ensures DoneOnce(Applied(r, k))
    ensures r.taskId.Some? && Applied(r, k).taskId.Some? ==> Applied(r, k).taskId == r.taskId
  {}

  ghost function AppliedAll(r: Record, ks: seq<Kind>): Record
    decreases |ks|
  {
    if ks == [] then r else Applied(AppliedAll(r, ks[..|ks| - 1]), ks[|ks| - 1])
  }

  /** Whatever events arrive, in whatever order: `done` is closed at most once,
      and a final record never changes again. */
  lemma {:induction false} FinalIsAbsorbing(r: Record, ks: seq<Kind>)
    requires DoneOnce(r)
    ensures DoneOnce(AppliedAll(r, ks))
    ensures IsFinal(r.status) ==> AppliedAll(r, ks) == r
    decreases |ks|
  {
    if ks != [] {
      FinalIsAbsorbing(r, ks[..|ks| - 1]);
      ApplyKeepsDoneOnce(AppliedAll(r, ks[..|ks| - 1]), ks[|ks| - 1]);
    }
  }

  /** The record follows the task's stage as long as events come in order. */
  lemma AppliedAdvances(r: Record, k: Kind)
    requires Advance(StageOf(r.status), k) != Broken
    ensures StageOf(Applied(r, k).status) == Advance(StageOf(r.status), k)
  {}

  class DownloadRecord {
    var taskId: Option<TaskId>
    var status: Status
    var bytesDownloaded: int
    var expectedSize: int
    var totalSize: int
    var cause: Option<Cause>
    var doneCloses: nat

    ghost function Value(): Record
      reads this
    {
      Record(taskId, status, bytesDownloaded, expectedSize, totalSize, cause, doneCloses)
    }

    constructor (t: TaskId)
      ensures Value() == New(t)
    {
      taskId, status, cause := Some(t), Requested, None;
      bytesDownloaded, expectedSize, totalSize, doneCloses := 0, -1, 0, 0;
    }

    predicate InFinalState()
      reads this
    {
      status == Completed || status == Canceled || status == Failed
    }

    method Start(size: int)
      modifies this
      ensures Value() == Applied(old(Value()), Kind.Start(size))
    {
      if status != Requested {
        return;
      }
      status, expectedSize := InProgress, size;
    }

    method SetBytesDownloaded(bytes: int)
      modifies this
      ensures Value() == Applied(old(Value()), Update(bytes))
    {
      if status != InProgress {
        return;
      }
      bytesDownloaded := bytes;
    }

    method Cancel()
      modifies this
      ensures Value() == Applied(old(Value()), Kind.Cancel)
    {
      if InFinalState() {
        return;
      }
      status, taskId := Canceled, None;
      doneCloses := doneCloses + 1;
    }

    method Fail(cause: Cause)
      modifies this
      ensures Value() == Applied(old(Value()), Error(cause))
    {
      if InFinalState() {
        return;
      }
      status, taskId := Failed, None;
      this.cause := Some(cause);
      doneCloses := doneCloses + 1;
    }

    method Complete(total: int)
      modifies this
      ensures Value() == Applied(old(Value()), Kind.Complete(total))
    {
      if InFinalState() {
        return;
      }
      status, taskId := Completed, None;
      bytesDownloaded, totalSize := total, total;
      doneCloses := doneCloses + 1;
    }
  }
}
