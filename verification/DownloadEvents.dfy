/** The events a download task may send, and the one order in which it sends them. */
module DownloadEvents {

  type TaskId = int
  type RecordId = int
  type Cause = int

  const MAX_INT64: int := 0x7FFF_FFFF_FFFF_FFFF

  datatype Kind =
    | Start(size: int)
    | Update(bytes: int)
    | Cancel
    | Error(cause: Cause)
    | Complete(total: int)
  {
    predicate Terminal() { Cancel? || Error? || Complete? }
  }

  datatype Event = Event(task: TaskId, record: RecordId, kind: Kind)

  /** How far a download has come, as its events tell it. */
  datatype Stage = Fresh | Running | Over | Broken

  function Advance(st: Stage, k: Kind): Stage {
    match st
    case Fresh => if k.Start? then Running else if k.Error? || k.Cancel? then Over else Broken
    case Running => if k.Update? then Running else if k.Terminal() then Over else Broken
    case Over => if k.Update? then Over else Broken
    case Broken => Broken
  }

  function After(st: Stage, ks: seq<Kind>): Stage
    decreases |ks|
  {
    if ks == [] then st else After(Advance(st, ks[0]), ks[1..])
  }

  lemma {:induction false} AfterAppend(st: Stage, ks: seq<Kind>, k: Kind)
    ensures After(st, ks + [k]) == Advance(After(st, ks), k)
    decreases |ks|
  {
    if ks == [] {
      assert [k][1..] == [];
    } else {
      AfterAppend(Advance(st, ks[0]), ks[1..], k);
      assert (ks + [k])[1..] == ks[1..] + [k];
    }
  }

  lemma {:induction false} BrokenStays(ks: seq<Kind>)
    ensures After(Broken, ks) == Broken
  {
    if ks != [] {
      BrokenStays(ks[1..]);
    }
  }

  /** After the terminal event only late updates can come. */
  lemma {:induction false} OverMeansUpdates(ks: seq<Kind>)
    requires After(Over, ks) == Over
    ensures forall i | 0 <= i < |ks| :: ks[i].Update?
  {
    if ks != [] {
      BrokenStays(ks[1..]);
      OverMeansUpdates(ks[1..]);
      assert forall i | 1 <= i < |ks| :: ks[i] == ks[1..][i - 1];
    }
  }

  /** What the automaton means: the first event is Start, Error or Cancel, there
      is no later Start, and a terminal event is followed by updates only. */
  ghost predicate WellOrdered(ks: seq<Kind>) {
    && (ks != [] ==> ks[0].Start? || ks[0].Error? || ks[0].Cancel?)
    && (forall i | 0 < i < |ks| :: !ks[i].Start?)
    && (forall i, j | 0 <= i < j < |ks| && ks[i].Terminal() :: ks[j].Update?)
  }

  ghost predicate HasTerminal(ks: seq<Kind>) {
    exists i :: 0 <= i < |ks| && ks[i].Terminal()
  }

  lemma WellOrderedAppend(ks: seq<Kind>, k: Kind)
    ensures HasTerminal(ks + [k]) <==> HasTerminal(ks) || k.Terminal()
    ensures WellOrdered(ks + [k]) <==>
      && WellOrdered(ks)
      && (if ks == [] then k.Start? || k.Error? || k.Cancel? else !k.Start?)
      && (HasTerminal(ks) ==> k.Update?)
  {
    var all := ks + [k];
    assert forall i | 0 <= i < |ks| :: all[i] == ks[i];
    assert all[|ks|] == k;
  }

  lemma {:induction false} UnbrokenIsWellOrdered(ks: seq<Kind>)
    ensures After(Fresh, ks) != Broken <==> WellOrdered(ks)
    ensures WellOrdered(ks) ==> (After(Fresh, ks) == Over <==> HasTerminal(ks)) && (After(Fresh, ks) == Fresh <==> ks == [])
    decreases |ks|
  {
    if ks != [] {
      var init, k := ks[..|ks| - 1], ks[|ks| - 1];
      UnbrokenIsWellOrdered(init);
      assert ks == init + [k];
      AfterAppend(Fresh, init, k);
      WellOrderedAppend(init, k);
    }
  }

  // ---------------------------------------------------------------------
  // One task's share of a queue
  // ---------------------------------------------------------------------

  function Of(q: seq<Event>, t: TaskId): seq<Kind>
    decreases |q|
  {
    if q == [] then [] else (if q[0].task == t then [q[0].kind] else []) + Of(q[1..], t)
  }

  lemma {:induction false} OfAppend(q: seq<Event>, e: Event, t: TaskId)
    ensures Of(q + [e], t) == Of(q, t) + if e.task == t then [e.kind] else []
    decreases |q|
  {
    if q == [] {
      assert [e][1..] == [];
    } else {
      OfAppend(q[1..], e, t);
      var head := if q[0].task == t then [q[0].kind] else [];
      var last := if e.task == t then [e.kind] else [];
      assert (q + [e])[1..] == q[1..] + [e];
      assert Of(q + [e], t) == head + (Of(q[1..], t) + last);
      assert head + (Of(q[1..], t) + last) == (head + Of(q[1..], t)) + last;
    }
  }

  lemma {:induction false} OfContains(q: seq<Event>, t: TaskId)
    ensures forall i | 0 <= i < |q| && q[i].task == t :: q[i].kind in Of(q, t)
    decreases |q|
  {
    if q != [] {
      OfContains(q[1..], t);
      assert forall i | 1 <= i < |q| :: q[i] == q[1..][i - 1];
    }
  }

  // ---------------------------------------------------------------------
  // The byte counts a task reports
  // ---------------------------------------------------------------------

  /** Starting from `lo`, the reported counts never go back, and end below `hi`. */
  ghost predicate Climbs(lo: int, ks: seq<Kind>, hi: int)
    decreases |ks|
  {
    if ks == [] then lo <= hi
    else if ks[0].Update? then lo <= ks[0].bytes && Climbs(ks[0].bytes, ks[1..], hi)
    else Climbs(lo, ks[1..], hi)
  }

  lemma {:induction false} ClimbsBounds(lo: int, ks: seq<Kind>, hi: int)
    requires Climbs(lo, ks, hi)
    ensures lo <= hi
    decreases |ks|
  {
    if ks != [] {
      ClimbsBounds(if ks[0].Update? then ks[0].bytes else lo, ks[1..], hi);
    }
  }

  lemma {:induction false} ClimbsAppend(lo: int, ks: seq<Kind>, hi: int, k: Kind, hi': int)
    requires Climbs(lo, ks, hi) && hi <= hi' && (k.Update? ==> hi <= k.bytes <= hi')
    ensures Climbs(lo, ks + [k], hi') && Climbs(lo, ks, hi')
    decreases |ks|
  {
    if ks == [] {
      assert [k][1..] == [];
    } else {
      ClimbsAppend(if ks[0].Update? then ks[0].bytes else lo, ks[1..], hi, k, hi');
      assert (ks + [k])[1..] == ks[1..] + [k];
    }
  }
}
