/** What a record says about its download, told from the events alone. */
module RecordHistory {
  import opened Collections
  import opened DownloadEvents
  import opened DownloadRecords

  /** Position of the first terminal event, or the length if there is none. */
  function FirstTerminal(ks: seq<Kind>): (i: nat)
    ensures i <= |ks| && (i < |ks| ==> ks[i].Terminal())
    ensures forall j | 0 <= j < i :: !ks[j].Terminal()
    decreases |ks|
  {
    if ks == [] || ks[0].Terminal() then 0 else 1 + FirstTerminal(ks[1..])
  }

  /** The same for Start. */
  function FirstStart(ks: seq<Kind>): (i: nat)
    ensures i <= |ks| && (i < |ks| ==> ks[i].Start?)
    ensures forall j | 0 <= j < i :: !ks[j].Start?
    decreases |ks|
  {
    if ks == [] || ks[0].Start? then 0 else 1 + FirstStart(ks[1..])
  }

  /** The count of the last Update, if there is one. */
  function LastCount(ks: seq<Kind>): Option<int> {
    if ks == [] then None
    else if ks[|ks| - 1].Update? then Some(ks[|ks| - 1].bytes)
    else LastCount(ks[..|ks| - 1])
  }

  /** The events up to the first terminal one. */
  function Live(ks: seq<Kind>): seq<Kind> {
    ks[..FirstTerminal(ks)]
  }

  /** The record of a download to which the events `ks` were applied, in any order:
      the first terminal event decides how it ends, and the counts are those of
      the updates between the first Start and that end. */
  ghost predicate Tells(r: Record, ks: seq<Kind>) {
    var live := Live(ks);
    && (r.status.Requested? <==> live == ks && FirstStart(live) == |live|)
    && (r.status.InProgress? <==> live == ks && FirstStart(live) < |live|)
    && (FirstTerminal(ks) < |ks| ==> TellsEnd(r, ks[FirstTerminal(ks)]))
    && (FirstTerminal(ks) == |ks| ==> r.totalSize == 0 && r.cause.None?)
    && r.expectedSize == (if FirstStart(live) < |live| then live[FirstStart(live)].size else -1)
    && (!r.status.Completed? ==> r.bytesDownloaded == Counted(live))
  }

  ghost predicate TellsEnd(r: Record, k: Kind) {
    match k
    case Complete(total) => r.status.Completed? && r.bytesDownloaded == r.totalSize == total && r.cause.None?
    case Error(cause) => r.status.Failed? && r.cause == Some(cause) && r.totalSize == 0
    case Cancel => r.status.Canceled? && r.cause.None? && r.totalSize == 0
    case _ => false
  }

  /** The last count after the first Start. */
  function Counted(live: seq<Kind>): int {
    var s := FirstStart(live);
    if s == |live| then 0
    else
      match LastCount(live[s + 1..])
      case None => 0
      case Some(bytes) => bytes
  }

  // ---------------------------------------------------------------------
  // One more event
  // ---------------------------------------------------------------------

  lemma {:induction false} TerminalAppend(ks: seq<Kind>, k: Kind)
    ensures FirstTerminal(ks + [k]) ==
            if FirstTerminal(ks) < |ks| then FirstTerminal(ks) else if k.Terminal() then |ks| else |ks| + 1
    decreases |ks|
  {
    if ks == [] {
      assert [k][1..] == [];
    } else {
      TerminalAppend(ks[1..], k);
      assert (ks + [k])[1..] == ks[1..] + [k];
    }
  }

  lemma {:induction false} StartedAppend(ks: seq<Kind>, k: Kind)
    ensures FirstStart(ks + [k]) ==
            if FirstStart(ks) < |ks| then FirstStart(ks) else if k.Start? then |ks| else |ks| + 1
    decreases |ks|
  {
    if ks == [] {
      assert [k][1..] == [];
    } else {
      StartedAppend(ks[1..], k);
      assert (ks + [k])[1..] == ks[1..] + [k];
    }
  }

  lemma CountedAppend(live: seq<Kind>, k: Kind)
    ensures Counted(live + [k]) == if FirstStart(live) < |live| && k.Update? then k.bytes else Counted(live)
  {
    StartedAppend(live, k);
    if FirstStart(live) < |live| {
      CountedAfterStart(live, k);
    } else if k.Start? {
      assert (live + [k])[|live| + 1..] == [];
    }
  }

  lemma CountedAfterStart(live: seq<Kind>, k: Kind)
    requires FirstStart(live) < |live| && FirstStart(live + [k]) == FirstStart(live)
    ensures Counted(live + [k]) == if k.Update? then k.bytes else Counted(live)
  {
    var s := FirstStart(live);
    assert (live + [k])[s + 1..] == live[s + 1..] + [k];
    LastCountAppend(live[s + 1..], k);
  }

  lemma LastCountAppend(ks: seq<Kind>, k: Kind)
    ensures LastCount(ks + [k]) == if k.Update? then Some(k.bytes) else LastCount(ks)
  {
    assert (ks + [k])[..|ks|] == ks && (ks + [k])[|ks|] == k;
  }

  lemma LiveAppend(ks: seq<Kind>, k: Kind)
    ensures Live(ks + [k]) == if FirstTerminal(ks) < |ks| then Live(ks) else if k.Terminal() then ks else ks + [k]
  {
    TerminalAppend(ks, k);
  }

  /** Nothing reaches a final record any more. */
  lemma TellsAfterEnd(r: Record, ks: seq<Kind>, k: Kind)
    requires Tells(r, ks) && FirstTerminal(ks) < |ks|
    ensures Applied(r, k) == r && Tells(r, ks + [k])
  {
    TerminalAppend(ks, k);
    LiveAppend(ks, k);
    assert Live(ks) != ks && IsFinal(r.status);
    assert Live(ks + [k]) != ks + [k];
  }

  /** The first terminal event. */
  lemma TellsTheEnd(r: Record, ks: seq<Kind>, k: Kind)
    requires Tells(r, ks) && FirstTerminal(ks) == |ks| && k.Terminal()
    ensures Tells(Applied(r, k), ks + [k])
  {
    TerminalAppend(ks, k);
    LiveAppend(ks, k);
    assert Live(ks) == ks && Live(ks + [k]) == ks != ks + [k];
    assert !IsFinal(r.status);
  }

  /** A Start or an Update before the end. */
  lemma TellsBeforeEnd(r: Record, ks: seq<Kind>, k: Kind)
    requires Tells(r, ks) && FirstTerminal(ks) == |ks| && !k.Terminal()
    ensures Tells(Applied(r, k), ks + [k])
  {
    TerminalAppend(ks, k);
    LiveAppend(ks, k);
    StartedAppend(ks, k);
    CountedAppend(ks, k);
    assert Live(ks) == ks && Live(ks + [k]) == ks + [k];
  }

  lemma TellsOn(r: Record, ks: seq<Kind>, k: Kind)
    requires Tells(r, ks)
    ensures Tells(Applied(r, k), ks + [k])
  {
    if FirstTerminal(ks) < |ks| {
      TellsAfterEnd(r, ks, k);
    } else if k.Terminal() {
      TellsTheEnd(r, ks, k);
    } else {
      TellsBeforeEnd(r, ks, k);
    }
  }

  /** Whatever events a new record is given, in whatever order, this is what it
      says afterwards. */
  lemma {:induction false} RecordTells(t: TaskId, ks: seq<Kind>)
    ensures Tells(AppliedAll(New(t), ks), ks)
    decreases |ks|
  {
    if ks != [] {
      var init, k := ks[..|ks| - 1], ks[|ks| - 1];
      RecordTells(t, init);
      TellsOn(AppliedAll(New(t), init), init, k);
      assert ks == init + [k];
    }
  }
}
