/** The table of running tasks and its drain mode. */
module Tasks {
  import opened Collections
  import opened DownloadEvents

  /** `drainedCloses` counts how often the drained channel was closed. */
  datatype Table = Table(entries: map<TaskId, RecordId>, drainOnly: bool, drainedCloses: nat)

  const NEW: Table := Table(map[], false, 0)

  predicate Accepts(s: Table, t: TaskId) {
    !s.drainOnly && t !in s.entries
  }

  function Added(s: Table, t: TaskId, r: RecordId): Table {
    if Accepts(s, t) then s.(entries := s.entries[t := r]) else s
  }

  /** closeOnce: the drained channel is closed unless it already is. */
  function ClosedOnce(s: Table): Table {
    if s.drainedCloses == 0 then s.(drainedCloses := 1) else s
  }

  function Removed(s: Table, t: TaskId): Table {
    if t !in s.entries then s
    else
      var s' := s.(entries := s.entries - {t});
      if s'.drainOnly && s'.entries == map[] then ClosedOnce(s') else s'
  }

  function Draining(s: Table): Table {
    var s' := s.(drainOnly := true);
    if s'.entries == map[] then ClosedOnce(s') else s'
  }

  /** The drained channel is closed exactly when drain mode is on and the table
      is empty, and it is never closed twice. */
  ghost predicate DrainExact(s: Table) {
    s.drainedCloses == if s.drainOnly && s.entries == map[] then 1 else 0
  }

  /** In drain mode the table can only lose entries, and drain mode is for good. */
  ghost predicate Drains(s: Table, s': Table) {
    s.drainOnly ==> s'.drainOnly && s'.entries.Keys <= s.entries.Keys && s'.drainedCloses >= s.drainedCloses
  }

  datatype Op = Add(t: TaskId, r: RecordId) | Remove(t: TaskId) | DrainOnly

  ghost function Do(s: Table, op: Op): Table {
    match op
    case Add(t, r) => Added(s, t, r)
    case Remove(t) => Removed(s, t)
    case DrainOnly => Draining(s)
  }

  lemma OpKeepsDrain(s: Table, op: Op)
    requires DrainExact(s)
    ensures DrainExact(Do(s, op)) && Drains(s, Do(s, op))
  {}

  ghost function DoAll(s: Table, ops: seq<Op>): Table
    decreases |ops|
  {
    if ops == [] then s else Do(DoAll(s, ops[..|ops| - 1]), ops[|ops| - 1])
  }

  /** Over any sequence of calls, Submit's rollback among them; once the drained
      channel is closed the table stays empty. */
  lemma {:induction false} RunKeepsDrain(s: Table, ops: seq<Op>)
    requires DrainExact(s)
    ensures DrainExact(DoAll(s, ops)) && Drains(s, DoAll(s, ops))
    ensures s.drainedCloses == 1 ==> DoAll(s, ops).entries == map[] && DoAll(s, ops).drainedCloses == 1
    decreases |ops|
  {
    if ops != [] {
      RunKeepsDrain(s, ops[..|ops| - 1]);
      OpKeepsDrain(DoAll(s, ops[..|ops| - 1]), ops[|ops| - 1]);
    }
  }

  // ---------------------------------------------------------------------
  // The object
  // ---------------------------------------------------------------------

  class TaskEntry {
    const task: TaskId
    const record: RecordId
    var canceled: bool   // the entry's context

    constructor (task: TaskId, record: RecordId)
      ensures this.task == task && this.record == record && !canceled
    {
      this.task, this.record, canceled := task, record, false;
    }

    method Cancel()
      modifies this
      ensures canceled
    {
      canceled := true;
    }
  }

  function RecordsOf(entries: map<TaskId, TaskEntry>): map<TaskId, RecordId> {
    map t | t in entries :: entries[t].record
  }

  lemma RecordsOfRemove(entries: map<TaskId, TaskEntry>, t: TaskId)
    ensures RecordsOf(entries - {t}) == RecordsOf(entries) - {t}
    ensures RecordsOf(entries).Keys == entries.Keys
    ensures t !in entries ==> entries - {t} == entries
  {}

  class TasksStore {
    var entries: map<TaskId, TaskEntry>
    var drainOnly: bool
    var drainedCloses: nat

    ghost function Value(): Table
      reads this
    {
      Table(RecordsOf(entries), drainOnly, drainedCloses)
    }

    ghost predicate Valid()
      reads this
    {
      forall t | t in entries :: entries[t].task == t
    }

    constructor ()
      ensures Valid() && Value() == NEW && entries == map[]
    {
      entries, drainOnly, drainedCloses := map[], false, 0;
    }

    method CloseDrained()
      modifies this`drainedCloses
      ensures Value() == ClosedOnce(old(Value()))
    {
      if drainedCloses == 0 {
        drainedCloses := 1;
      }
    }

    method DrainOnly()
      requires Valid()
      modifies this
      ensures Valid() && Value() == Draining(old(Value())) && entries == old(entries)
    {
      drainOnly := true;
      if |entries| == 0 {
        assert Value().entries == map[];
        CloseDrained();
      } else {
        assert Value().entries.Keys == entries.Keys;
      }
    }

    /** Every context in the table is cancelled, no other is touched. */
    method CancelAll()
      requires Valid()
      modifies entries.Values
      ensures forall t | t in entries :: entries[t].canceled
    {
      var rest := entries.Keys;
      while rest != {}
        invariant rest <= entries.Keys
        invariant forall t | t in entries.Keys - rest :: entries[t].canceled
        decreases |rest|
      {
        ghost var some := Element(rest);
        var t :| t in rest;
        entries[t].Cancel();
        rest := rest - {t};
      }
    }

    method Remove(t: TaskId) returns (entry: Option<TaskEntry>)
      requires Valid()
      modifies this
      ensures Valid() && Value() == Removed(old(Value()), t) && entries == old(entries) - {t}
      ensures entry == if t in old(entries) then Some(old(entries)[t]) else None
    {
      RecordsOfRemove(entries, t);
      if t !in entries {
        return None;
      }
      entry := Some(entries[t]);
      entries := entries - {t};
      RecordsOfRemove(entries, t);
      if drainOnly && |entries| == 0 {
        CloseDrained();
      }
    }

    method Add(entry: TaskEntry) returns (ok: bool)
      requires Valid()
      modifies this
      ensures Valid() && Value() == Added(old(Value()), entry.task, entry.record)
      ensures ok <==> Accepts(old(Value()), entry.task)
      ensures entries == if ok then old(entries)[entry.task := entry] else old(entries)
    {
      if drainOnly {
        return false;
      }
      if entry.task in entries {
        return false;
      }
      entries := entries[entry.task := entry];
      return true;
    }
  }
}
