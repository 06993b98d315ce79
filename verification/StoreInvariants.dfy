/** What holds of the message tables after every run of the service's
    repository calls, whatever their order and arguments. */
module StoreInvariants {
  import opened Collections
  import opened MessageStore

  ghost predicate StoredIffPending(t: Tables) {
    forall m :: m in t.messages <==> exists u :: IsPending(t, m, u)
  }

  /** Ack rows are never removed and a time, once set, is never changed. */
  ghost predicate TimesKept(t: Tables, t': Tables) {
    forall k | k in t.acks ::
      && k in t'.acks
      && (t.acks[k].deliveredAt.Some? ==> t'.acks[k].deliveredAt == t.acks[k].deliveredAt)
      && (t.acks[k].readAt.Some? ==> t'.acks[k].readAt == t.acks[k].readAt)
  }

  /** The rows SendMessage builds for a message: one per recipient, no times. */
  ghost predicate FreshRows(message: Message, rows: seq<NewAck>) {
    forall i | 0 <= i < |rows| ::
      && rows[i].key.msg == message.id
      && rows[i].key.user != message.sender
      && rows[i].row == AckRow(message.chat, None, None)
  }

  // ---------------------------------------------------------------------
  // Single transactions
  // ---------------------------------------------------------------------

  /** The service's guard against an empty recipient list is exactly what the
      insert needs: without rows the message would be stored and never waited for. */
  lemma InsertKeepsIff(t: Tables, message: Message, rows: seq<NewAck>)
    requires StoredIffPending(t) && Insertable(t, message, rows) && FreshRows(message, rows)
    ensures StoredIffPending(Inserted(t, message, rows)) <==> rows != []
    ensures TimesKept(t, Inserted(t, message, rows))
  {
    var t' := Inserted(t, message, rows);
    AddRowsKeys(t.acks, rows);
    if rows == [] {
      assert forall u :: !IsPending(t, message.id, u);
      assert t'.acks == t.acks;
      assert forall u :: IsPending(t', message.id, u) <==> IsPending(t, message.id, u);
      assert message.id in t'.messages;
    } else {
      forall m ensures m in t'.messages <==> exists u :: IsPending(t', m, u) {
        if m == message.id {
          assert rows[0].key == AckKey(m, rows[0].key.user);
          assert IsPending(t', m, rows[0].key.user);
        } else {
          assert forall u :: IsPending(t', m, u) <==> IsPending(t, m, u);
        }
      }
    }
  }

  lemma PendingAfterAck(t: Tables, m: MsgId, u: UserId, at: Time)
    ensures forall n, v :: IsPending(Acknowledged(t, m, u, at), n, v) <==> IsPending(t, n, v) && !(n == m && v == u)
  {}

  lemma AckKeeps(t: Tables, m: MsgId, u: UserId, at: Time)
    requires StoredIffPending(t)
    ensures StoredIffPending(Acknowledged(t, m, u, at))
    ensures TimesKept(t, Acknowledged(t, m, u, at))
  {
    var d := Delivered(t, m, u, at);
    var t' := Acknowledged(t, m, u, at);
    PendingAfterAck(t, m, u, at);
    PendingWaits(d, m);
    assert forall v :: IsPending(t', m, v) <==> IsPending(d, m, v);
    forall n ensures n in t'.messages <==> exists v :: IsPending(t', n, v) {
      if n != m {
        assert forall v :: IsPending(t', n, v) <==> IsPending(t, n, v);
      } else if v :| IsPending(t', n, v) {
        assert IsPending(t, n, v);
      }
    }
  }

  /** A second ack of the same message by the same user changes nothing. */
  lemma AckIsIdempotent(t: Tables, m: MsgId, u: UserId, at: Time, again: Time)
    requires StoredIffPending(t)
    ensures var t' := Acknowledged(t, m, u, at); Acknowledged(t', m, u, again) == t'
  {
    var t' := Acknowledged(t, m, u, at);
    AckKeeps(t, m, u, at);
    PendingAfterAck(t, m, u, at);
    PendingWaits(t', m);
    if Waiting(t', m) == {} {
      assert t'.messages - {m} == t'.messages;
    }
  }

  /** Nor does an ack from somebody who was never a recipient. */
  lemma StrayAckChangesNothing(t: Tables, m: MsgId, u: UserId, at: Time)
    requires StoredIffPending(t) && !IsPending(t, m, u)
    ensures Acknowledged(t, m, u, at) == t
  {
    PendingWaits(t, m);
    if Waiting(t, m) == {} {
      assert t.messages - {m} == t.messages;
    }
  }

  lemma ReadKeeps(t: Tables, ids: set<MsgId>, u: UserId, at: Time)
    ensures StoredIffPending(t) ==> StoredIffPending(MarkedRead(t, ids, u, at))
    ensures TimesKept(t, MarkedRead(t, ids, u, at))
    ensures forall m, v :: IsPending(MarkedRead(t, ids, u, at), m, v) <==> IsPending(t, m, v)
  {
    var t' := MarkedRead(t, ids, u, at);
    assert forall m, v :: IsPending(t', m, v) <==> IsPending(t, m, v);
  }

  // ---------------------------------------------------------------------
  // Runs
  // ---------------------------------------------------------------------

  /** Calls the service makes on the repository; acks and read marks carry
      arbitrary messages and users. */
  datatype Call =
    | Send(message: Message, rows: seq<NewAck>)
    | Ack(m: MsgId, u: UserId, at: Time)
    | Read(ids: set<MsgId>, u: UserId, at: Time)

  ghost predicate ServiceCall(c: Call) {
    c.Send? ==> c.rows != [] && FreshRows(c.message, c.rows)
  }

  ghost function Effect(t: Tables, c: Call): Tables {
    match c
    case Send(message, rows) => if Insertable(t, message, rows) then Inserted(t, message, rows) else t
    case Ack(m, u, at) => Acknowledged(t, m, u, at)
    case Read(ids, u, at) => MarkedRead(t, ids, u, at)
  }

  ghost function Effects(t: Tables, calls: seq<Call>): Tables
    decreases |calls|
  {
    if calls == [] then t else Effect(Effects(t, calls[..|calls| - 1]), calls[|calls| - 1])
  }

  lemma CallKeeps(t: Tables, c: Call)
    requires StoredIffPending(t) && ServiceCall(c)
    ensures StoredIffPending(Effect(t, c)) && TimesKept(t, Effect(t, c))
  {
    match c
    case Send(message, rows) =>
      if Insertable(t, message, rows) {
        InsertKeepsIff(t, message, rows);
      }
    case Ack(m, u, at) => AckKeeps(t, m, u, at);
    case Read(ids, u, at) => ReadKeeps(t, ids, u, at);
  }

  lemma {:induction false} RunKeepsTables(t: Tables, calls: seq<Call>)
    requires StoredIffPending(t)
    requires forall i | 0 <= i < |calls| :: ServiceCall(calls[i])
    ensures StoredIffPending(Effects(t, calls)) && TimesKept(t, Effects(t, calls))
  {
    if calls != [] {
      RunKeepsTables(t, calls[..|calls| - 1]);
      CallKeeps(Effects(t, calls[..|calls| - 1]), calls[|calls| - 1]);
    }
  }

  // ---------------------------------------------------------------------
  // Where the times come from
  // ---------------------------------------------------------------------

  /** The two times of an ack row. */
  datatype Mark = ReadMark | DeliveryMark

  function TimeOf(row: AckRow, mark: Mark): Option<Time> {
    if mark.ReadMark? then row.readAt else row.deliveredAt
  }

  /** A read mark of the row's own user that lists the message, or that user's ack of it. */
  predicate Marks(c: Call, mark: Mark, k: AckKey) {
    match mark
    case ReadMark => c.Read? && c.u == k.user && k.msg in c.ids
    case DeliveryMark => c.Ack? && c.u == k.user && c.m == k.msg
  }

  /** The row is there when call `i` comes. */
  ghost predicate Before(calls: seq<Call>, i: nat, k: AckKey)
    requires i <= |calls|
  {
    k in Effects(EMPTY, calls[..i]).acks
  }

  ghost predicate MarksAt(calls: seq<Call>, mark: Mark, i: nat, k: AckKey) {
    i < |calls| && Marks(calls[i], mark, k) && Before(calls, i, k)
  }

  /** Call `i` is the first that marks the row since it exists. */
  ghost predicate FirstMark(calls: seq<Call>, mark: Mark, i: nat, k: AckKey) {
    MarksAt(calls, mark, i, k) && forall j: nat | j < i :: !MarksAt(calls, mark, j, k)
  }

  lemma {:induction false} FirstExists(calls: seq<Call>, mark: Mark, i: nat, k: AckKey)
    requires MarksAt(calls, mark, i, k)
    ensures exists j: nat :: j <= i && FirstMark(calls, mark, j, k)
  {
    if j: nat :| j < i && MarksAt(calls, mark, j, k) {
      FirstExists(calls, mark, j, k);
    } else {
      assert FirstMark(calls, mark, i, k);
    }
  }

  /** What one call does to one row. */
  lemma CallOnRow(t: Tables, c: Call, mark: Mark, k: AckKey)
    requires ServiceCall(c) && k in t.acks
    ensures k in Effect(t, c).acks && Effect(t, c).acks[k].chat == t.acks[k].chat
    ensures TimeOf(Effect(t, c).acks[k], mark) ==
            if Marks(c, mark, k) && TimeOf(t.acks[k], mark).None? then Some(c.at) else TimeOf(t.acks[k], mark)
  {
    if c.Send? && Insertable(t, c.message, c.rows) {
      AddRowsKeys(t.acks, c.rows);
    }
  }

  /** A row comes without times. */
  lemma NewRow(t: Tables, c: Call, mark: Mark, k: AckKey)
    requires ServiceCall(c) && k !in t.acks && k in Effect(t, c).acks
    ensures TimeOf(Effect(t, c).acks[k], mark).None?
  {
    if c.Send? && Insertable(t, c.message, c.rows) {
      AddRowsKeys(t.acks, c.rows);
    }
  }

  lemma {:induction false} RowStays(calls: seq<Call>, i: nat, k: AckKey)
    requires forall j | 0 <= j < |calls| :: ServiceCall(calls[j])
    requires i <= |calls| && Before(calls, i, k)
    ensures k in Effects(EMPTY, calls).acks
  {
    if i == |calls| {
      assert calls[..i] == calls;
    } else {
      var init := calls[..|calls| - 1];
      assert init[..i] == calls[..i];
      RowStays(init, i, k);
      CallOnRow(Effects(EMPTY, init), calls[|calls| - 1], ReadMark, k);
    }
  }

  lemma EarlierMarks(calls: seq<Call>, mark: Mark, k: AckKey)
    requires calls != []
    ensures var init := calls[..|calls| - 1];
            && (forall i: nat | i < |init| :: MarksAt(calls, mark, i, k) <==> MarksAt(init, mark, i, k))
            && (forall i: nat | i < |init| :: FirstMark(calls, mark, i, k) <==> FirstMark(init, mark, i, k))
  {
    var init := calls[..|calls| - 1];
    forall i: nat | i < |init| ensures MarksAt(calls, mark, i, k) <==> MarksAt(init, mark, i, k) {
      assert init[..i] == calls[..i];
    }
  }

  /** Over every run from empty tables a row has a read time, or a delivery time,
      exactly if a call of its own user has marked it since it exists, and then
      the time of the first such call. */
  lemma {:induction false} TimesComeFrom(calls: seq<Call>, mark: Mark, k: AckKey)
    requires forall i | 0 <= i < |calls| :: ServiceCall(calls[i])
    requires k in Effects(EMPTY, calls).acks
    ensures forall i: nat | FirstMark(calls, mark, i, k) ::
              TimeOf(Effects(EMPTY, calls).acks[k], mark) == Some(calls[i].at)
    ensures TimeOf(Effects(EMPTY, calls).acks[k], mark).None? <==> forall i: nat :: !FirstMark(calls, mark, i, k)
  {
    if calls != [] {
      var n := |calls| - 1;
      var init, c := calls[..n], calls[n];
      var t := Effects(EMPTY, init);
      EarlierMarks(calls, mark, k);
      if k in t.acks {
        TimesComeFrom(init, mark, k);
        CallOnRow(t, c, mark, k);
        LastMark(calls, mark, k);
      } else {
        NewRow(t, c, mark, k);
        forall i: nat | i <= n ensures !MarksAt(calls, mark, i, k) {
          if Before(calls, i, k) {
            assert init[..i] == calls[..i];
            RowStays(init, i, k);
          }
        }
      }
    }
  }

  /** The last call marks first exactly if it marks and none has before. */
  lemma LastMark(calls: seq<Call>, mark: Mark, k: AckKey)
    requires calls != [] && k in Effects(EMPTY, calls[..|calls| - 1]).acks
    ensures var n := |calls| - 1;
            FirstMark(calls, mark, n, k) <==>
            Marks(calls[n], mark, k) && forall i: nat | i < n :: !FirstMark(calls, mark, i, k)
  {
    var n := |calls| - 1;
    if i: nat :| i < n && MarksAt(calls, mark, i, k) {
      FirstExists(calls, mark, i, k);
    }
  }
}
