/** The downloader object: submitting, handling one event, broadcasting. Its
    methods run the steps of the interleaved model back to back. */
module DownloaderService {
  import opened Collections
  import opened DownloadEvents
  import opened DownloadRecords
  import opened Tasks
  import opened Downloader

  class Channel {
    var buffer: seq<External>

    constructor ()
      ensures buffer == []
    {
      buffer := [];
    }
  }

  datatype SubmitResult = Submitted(record: RecordId) | Refused

  class DownloadManager {
    var records: map<RecordId, DownloadRecord>
    const tasks: TasksStore
    var subscribers: seq<Channel>
    var shuttingDown: bool

    /** Records, and subscriber channels, are separate objects. */
    ghost predicate Valid()
      reads this, tasks
    {
      && tasks.Valid()
      && (forall r, q | r in records && q in records && records[r] == records[q] :: r == q)
      && (forall i, j | 0 <= i < j < |subscribers| :: subscribers[i] != subscribers[j])
    }

    ghost function Channels(): set<Channel>
      reads this
    {
      set i | 0 <= i < |subscribers| :: subscribers[i]
    }

    constructor ()
      ensures Valid() && fresh(tasks) && tasks.Value() == NEW
      ensures records == map[] && subscribers == [] && !shuttingDown
    {
      records, subscribers, shuttingDown := map[], [], false;
      tasks := new TasksStore();
    }

    method Subscribe() returns (ch: Channel)
      requires Valid()
      modifies this`subscribers
      ensures Valid() && fresh(ch) && ch.buffer == [] && subscribers == old(subscribers) + [ch]
    {
      ch := new Channel();
      subscribers := subscribers + [ch];
    }

    /** Every subscriber is offered the event once. */
    method BroadcastPublic(x: External)
      requires Valid()
      modifies Channels()
      ensures Valid()
      ensures forall i | 0 <= i < |subscribers| ::
                subscribers[i].buffer ==
                if |old(subscribers[i].buffer)| < 10 then old(subscribers[i].buffer) + [x] else old(subscribers[i].buffer)
    {
      for i := 0 to |subscribers|
        invariant forall j | 0 <= j < |subscribers| ::
          subscribers[j].buffer == if j < i then Accept(old(subscribers[j].buffer), x) else old(subscribers[j].buffer)
      {
        var sub := subscribers[i];
        assert sub in Channels();
        if |sub.buffer| < BUFFER {
          sub.buffer := sub.buffer + [x];
        }
      }
    }

    method HandleTaskRemoval(t: TaskId, withCancel: bool)
      requires Valid()
      modifies tasks, tasks.entries.Values
      ensures Valid() && tasks.Value() == Removed(old(tasks.Value()), t)
      ensures forall x | x in old(tasks.entries.Values) :: x.canceled ==
                (old(x.canceled) || (withCancel && t in old(tasks.entries) && x == old(tasks.entries)[t]))
    {
      var entry := tasks.Remove(t);
      if entry.Some? && withCancel {
        entry.value.Cancel();
      }
    }

    /** The task is removed before the record is finished, and the broadcast
        comes last. No other record changes. */
    method HandleDownloadEvent(e: Event, download: DownloadRecord)
      requires Valid() && e.record in records && records[e.record] == download
      modifies download, tasks, Channels(), tasks.entries.Values
      ensures Valid()
      ensures download.Value() == Applied(old(download.Value()), e.kind)
      ensures tasks.Value() == if e.kind.Terminal() then Removed(old(tasks.Value()), e.task) else old(tasks.Value())
      ensures forall x | x in old(tasks.entries.Values) :: x.canceled ==
                (old(x.canceled) ||
                 ((e.kind.Error? || e.kind.Complete?) && e.task in old(tasks.entries) && x == old(tasks.entries)[e.task]))
      ensures forall i | 0 <= i < |subscribers| ::
                subscribers[i].buffer ==
                if e.kind.Update? then old(subscribers[i].buffer)
                else Accept(old(subscribers[i].buffer), External(e.record, e.kind))
    {
      match e.kind
      case Start(size) =>
        download.Start(size);
        BroadcastPublic(External(e.record, e.kind));
      case Update(bytes) =>
        download.SetBytesDownloaded(bytes);
      case Cancel =>
        HandleTaskRemoval(e.task, false);
        download.Cancel();
        BroadcastPublic(External(e.record, e.kind));
      case Error(cause) =>
        HandleTaskRemoval(e.task, true);
        download.Fail(cause);
        BroadcastPublic(External(e.record, e.kind));
      case Complete(total) =>
        HandleTaskRemoval(e.task, true);
        download.Complete(total);
        BroadcastPublic(External(e.record, e.kind));
    }

    /** `t` and `r` are the fresh ids of the new task and record. */
    method SubmitDownload(t: TaskId, r: RecordId) returns (result: SubmitResult)
      requires Valid()
      modifies this`records, tasks
      ensures Valid()
      ensures result.Submitted? <==> !shuttingDown && Accepts(old(tasks.Value()), t) && r !in old(records)
      ensures result.Submitted? ==>
                && result.record == r && tasks.Value() == Added(old(tasks.Value()), t, r)
                && r in records && records == old(records)[r := records[r]]
                && fresh(records[r]) && records[r].Value() == New(t)
      ensures result.Refused? ==> records == old(records) && tasks.Value().entries == old(tasks.Value()).entries
      ensures result.Refused? && DrainExact(old(tasks.Value())) ==> tasks.Value() == old(tasks.Value())
    {
      if shuttingDown {
        return Refused;
      }
      var download := new DownloadRecord(t);
      var entry := new TaskEntry(t, r);
      var ok := tasks.Add(entry);
      if !ok {
        return Refused;
      }
      if r in records {
        // rollback
        var _ := tasks.Remove(t);
        entry.Cancel();
        return Refused;
      }
      records := records[r := download];
      return Submitted(r);
    }

    method CancelDownload(r: RecordId) returns (ok: bool)
      requires Valid()
      modifies tasks.entries.Values
      ensures ok <==> r in records && records[r].taskId.Some? && records[r].taskId.value in tasks.entries
      ensures forall x | x in tasks.entries.Values :: x.canceled ==
                (old(x.canceled) || (ok && x == tasks.entries[records[r].taskId.value]))
    {
      if r !in records {
        return false;
      }
      var t := records[r].taskId;
      if t.None? || t.value !in tasks.entries {
        return false;
      }
      var entry := tasks.entries[t.value];
      assert entry in tasks.entries.Values;
      entry.Cancel();
      return true;
    }
  }

  /** The two loop steps of a terminal event, run back to back and announced,
      are what HandleDownloadEvent does; likewise the single step of the others. */
  lemma StepsOfOneEvent(s: State)
    requires s.loop.Received? && s.loop.e.record in s.records
    ensures var e := s.loop.e;
            var s1 := DoHandle(s);
            var s2 := if s1.loop.TaskRemoved? then DoFinalise(s1) else s1;
            var s3 := if s2.loop.Announcing? then DoAnnounce(s2) else s2;
            && s3.loop.Head?
            && s3.records == s.records[e.record := Applied(s.records[e.record], e.kind)]
            && s3.tasks == (if e.kind.Terminal() then Removed(s.tasks, e.task) else s.tasks)
            && (e.kind.Error? || e.kind.Complete? ==> e.task in s.tasks.entries ==> e.task in s3.canceled)
            && |s3.subscribers| == |s.subscribers|
            && (forall i | 0 <= i < |s.subscribers| ::
                  s3.subscribers[i].buffer ==
                  if e.kind.Update? then s.subscribers[i].buffer
                  else Accept(s.subscribers[i].buffer, External(e.record, e.kind)))
  {}
}
