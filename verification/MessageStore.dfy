/** The server's message tables: what each transaction of the messaging
    repository does to them, and the invariants those transactions keep. */
module MessageStore {
  import opened Collections

  // UUIDs and user ids are opaque identifiers.
  type MsgId = int
  type UserId = int
  type ChatId = int
  type Time = int

  datatype Message = Message(id: MsgId, chat: ChatId, sender: UserId, content: seq<int>, sentAt: Time)

  /** Primary key of `message_acks`. */
  datatype AckKey = AckKey(msg: MsgId, user: UserId)

  datatype AckRow = AckRow(chat: ChatId, deliveredAt: Option<Time>, readAt: Option<Time>)

  /** A row as handed to the insert: the key and the columns. */
  datatype NewAck = NewAck(key: AckKey, row: AckRow)

  datatype Tables = Tables(messages: map<MsgId, Message>, acks: map<AckKey, AckRow>)

  const EMPTY: Tables := Tables(map[], map[])

  /** LIMIT of the undelivered-messages query. */
  const BATCH: int := 100

  predicate IsPending(t: Tables, m: MsgId, u: UserId) {
    AckKey(m, u) in t.acks && t.acks[AckKey(m, u)].deliveredAt.None?
  }

  // ---------------------------------------------------------------------
  // Transactions
  // ---------------------------------------------------------------------

  ghost predicate KeysDistinct(rows: seq<NewAck>) {
    forall i, j | 0 <= i < j < |rows| :: rows[i].key != rows[j].key
  }

  /** Neither primary key is violated. */
  ghost predicate Insertable(t: Tables, message: Message, rows: seq<NewAck>) {
    && message.id !in t.messages
    && KeysDistinct(rows)
    && (forall i | 0 <= i < |rows| :: rows[i].key !in t.acks)
  }

  function AddRows(acks: map<AckKey, AckRow>, rows: seq<NewAck>): map<AckKey, AckRow> {
    if rows == [] then acks
    else AddRows(acks, rows[..|rows| - 1])[rows[|rows| - 1].key := rows[|rows| - 1].row]
  }

  /** The insert of a message with its ack rows, committed. */
  function Inserted(t: Tables, message: Message, rows: seq<NewAck>): Tables {
    Tables(t.messages[message.id := message], AddRows(t.acks, rows))
  }

  function Delivered(t: Tables, m: MsgId, u: UserId, at: Time): Tables {
    if IsPending(t, m, u)
    then t.(acks := t.acks[AckKey(m, u) := t.acks[AckKey(m, u)].(deliveredAt := Some(at))])
    else t
  }

  /** Ack rows of `m` that still wait for delivery. */
  function Waiting(t: Tables, m: MsgId): set<AckKey> {
    set k | k in t.acks && k.msg == m && t.acks[k].deliveredAt.None?
  }

  /** Set the delivery time, then drop the message when nobody waits for it. */
  function Acknowledged(t: Tables, m: MsgId, u: UserId, at: Time): Tables {
    var d := Delivered(t, m, u, at);
    if Waiting(d, m) == {} then d.(messages := d.messages - {m}) else d
  }

  function MarkedRead(t: Tables, ids: set<MsgId>, u: UserId, at: Time): Tables {
    t.(acks := map k | k in t.acks ::
      if k.user == u && k.msg in ids && t.acks[k].readAt.None?
      then t.acks[k].(readAt := Some(at)) else t.acks[k])
  }

  /** Messages the undelivered query joins for a user. */
  ghost function Undelivered(t: Tables, u: UserId): set<MsgId> {
    set m | m in t.messages && IsPending(t, m, u)
  }

  ghost function Ids(r: seq<Message>): set<MsgId> {
    set i | 0 <= i < |r| :: r[i].id
  }

  /** What the query may return: at most BATCH undelivered messages, each once,
      oldest first, none younger than one that was left out. Ties are free. */
  ghost predicate IsBatch(t: Tables, u: UserId, r: seq<Message>) {
    && (forall i | 0 <= i < |r| :: r[i].id in Undelivered(t, u) && r[i] == t.messages[r[i].id])
    && (forall i, j | 0 <= i < j < |r| :: r[i].id != r[j].id)
    && (forall i, j | 0 <= i < j < |r| :: r[i].sentAt <= r[j].sentAt)
    && (forall m, i | m in Undelivered(t, u) - Ids(r) && 0 <= i < |r| :: r[i].sentAt <= t.messages[m].sentAt)
    && |r| == Min(BATCH, |Undelivered(t, u)|)
  }

  // ---------------------------------------------------------------------
  // The repository
  // ---------------------------------------------------------------------

  class SqliteRepository {
    var messages: map<MsgId, Message>
    var acks: map<AckKey, AckRow>

    ghost function State(): Tables reads this { Tables(messages, acks) }

    /** A row stands under its own primary key. */
    ghost predicate Valid() reads this { forall m | m in messages :: messages[m].id == m }

    constructor ()
      ensures Valid() && State() == EMPTY
    {
      messages, acks := map[], map[];
    }

    /** One transaction, rolled back as a whole by a key that is taken, by a chat
        that is none of `chats`, or by anything else the database objects to: a
        missing content, a lock or disk error, a timeout. */
    method InsertMessageWithAcks(message: Message, rows: seq<NewAck>, chats: set<ChatId>, fails: bool) returns (ok: bool)
      requires Valid()
      modifies this
      ensures Valid()
      ensures ok <==> Insertable(old(State()), message, rows) && message.chat in chats && !fails
      ensures State() == if ok then Inserted(old(State()), message, rows) else old(State())
    {
      if message.id in messages || message.chat !in chats {
        return false;
      }
      var acks' := acks;
      for i := 0 to |rows|
        invariant acks' == AddRows(acks, rows[..i])
        invariant forall j | 0 <= j < i :: rows[j].key !in acks
        invariant forall j, k | 0 <= j < k < i :: rows[j].key != rows[k].key
        invariant Valid() && State() == old(State())
      {
        AddRowsKeys(acks, rows[..i]);
        if rows[i].key in acks' {
          return false;
        }
        assert rows[..i + 1][..i] == rows[..i];
        acks' := acks'[rows[i].key := rows[i].row];
      }
      assert rows[..|rows|] == rows;
      if fails {
        return false;
      }
      messages, acks := messages[message.id := message], acks';
      return true;
    }

    method AcknowledgeAndCleanupMessage(m: MsgId, u: UserId, at: Time)
      requires Valid()
      modifies this
      ensures Valid() && State() == Acknowledged(old(State()), m, u, at)
      // without that function: one row gets the time, and who is waited for decides
      ensures acks.Keys == old(acks).Keys
      ensures forall k | k in old(acks) ::
                && acks[k].chat == old(acks)[k].chat && acks[k].readAt == old(acks)[k].readAt
                && acks[k].deliveredAt ==
                   if k == AckKey(m, u) && old(acks)[k].deliveredAt.None? then Some(at) else old(acks)[k].deliveredAt
      ensures messages ==
              if exists v :: AckKey(m, v) in acks && acks[AckKey(m, v)].deliveredAt.None? then old(messages)
              else old(messages) - {m}
    {
      // mark this user's delivery
      var key := AckKey(m, u);
      if key in acks && acks[key].deliveredAt.None? {
        acks := acks[key := acks[key].(deliveredAt := Some(at))];
      }
      // count who still waits
      var waiting := set k | k in acks && k.msg == m && acks[k].deliveredAt.None?;
      assert waiting == Waiting(State(), m);
      PendingWaits(State(), m);
      assert forall v :: IsPending(State(), m, v) <==> AckKey(m, v) in acks && acks[AckKey(m, v)].deliveredAt.None?;
      if |waiting| == 0 {
        messages := messages - {m};
      }
    }

    /** The rows come out one by one in ascending `sentAt`, until the limit. */
    method GetUndeliveredMessages(u: UserId) returns (r: seq<Message>)
      requires Valid()
      ensures IsBatch(State(), u, r)
    {
      var rest := set m | m in messages && AckKey(m, u) in acks && acks[AckKey(m, u)].deliveredAt.None?;
      assert rest == Undelivered(State(), u);
      r := [];
      while rest != {} && |r| < BATCH
        invariant |r| <= BATCH && Taken(State(), u, r, rest)
        decreases |rest|
      {
        OldestExists(messages, rest);
        var m :| m in rest && forall n | n in rest :: messages[m].sentAt <= messages[n].sentAt;
        TakeOldest(State(), u, r, rest, m);
        r, rest := r + [messages[m]], rest - {m};
      }
      TakenIsBatch(State(), u, r, rest);
    }

    method SetMessagesRead(ids: seq<MsgId>, u: UserId, at: Time)
      requires Valid()
      modifies this
      ensures Valid() && State() == MarkedRead(old(State()), (set m | m in ids), u, at)
      // without that function: which rows get the time, and that nothing else changes
      ensures messages == old(messages) && acks.Keys == old(acks).Keys
      ensures forall k | k in old(acks) ::
                && acks[k].chat == old(acks)[k].chat && acks[k].deliveredAt == old(acks)[k].deliveredAt
                && acks[k].readAt ==
                   if k.user == u && k.msg in ids && old(acks)[k].readAt.None? then Some(at) else old(acks)[k].readAt
    {
      if |ids| == 0 {
        assert acks == MarkedRead(State(), (set m | m in ids), u, at).acks;
        return;
      }
      acks := map k | k in acks ::
        if k.user == u && k.msg in ids && acks[k].readAt.None?
        then acks[k].(readAt := Some(at)) else acks[k];
    }
  }

  /** The count of waiting rows is zero exactly when no recipient is pending. */
  lemma PendingWaits(t: Tables, m: MsgId)
    ensures Waiting(t, m) == {} <==> forall v :: !IsPending(t, m, v)
  {
    forall v | IsPending(t, m, v) ensures AckKey(m, v) in Waiting(t, m) {}
    forall k | k in Waiting(t, m) ensures IsPending(t, m, k.user) {
      assert k == AckKey(m, k.user);
    }
  }

  lemma {:induction false} AddRowsKeys(acks: map<AckKey, AckRow>, rows: seq<NewAck>)
    ensures forall k :: k in AddRows(acks, rows) <==> k in acks || exists i :: 0 <= i < |rows| && rows[i].key == k
    ensures forall k | k in acks && (forall i | 0 <= i < |rows| :: rows[i].key != k) :: AddRows(acks, rows)[k] == acks[k]
    ensures KeysDistinct(rows) ==> forall i | 0 <= i < |rows| :: AddRows(acks, rows)[rows[i].key] == rows[i].row
  {
    if rows != [] {
      var init := rows[..|rows| - 1];
      AddRowsKeys(acks, init);
      assert rows == init + [rows[|rows| - 1]];
    }
  }

  /** The query is under way: `r` has come out, `rest` is still to come. */
  ghost predicate Taken(t: Tables, u: UserId, r: seq<Message>, rest: set<MsgId>) {
    Split(t, u, r, rest) && Ordered(t, u, r, rest)
  }

  /** Every undelivered message is in exactly one of the two, and once. */
  ghost predicate Split(t: Tables, u: UserId, r: seq<Message>, rest: set<MsgId>) {
    && (forall m :: m in Undelivered(t, u) <==> m in rest || m in Ids(r))
    && (forall i | 0 <= i < |r| :: r[i].id in Undelivered(t, u) && r[i].id !in rest && r[i] == t.messages[r[i].id])
    && (forall i, j | 0 <= i < j < |r| :: r[i].id != r[j].id)
    && |r| + |rest| == |Undelivered(t, u)|
  }

  ghost predicate Ordered(t: Tables, u: UserId, r: seq<Message>, rest: set<MsgId>) {
    && rest <= Undelivered(t, u)
    && (forall i, j | 0 <= i < j < |r| :: r[i].sentAt <= r[j].sentAt)
    && (forall i, m | 0 <= i < |r| && m in rest :: r[i].sentAt <= t.messages[m].sentAt)
  }

  lemma IdsAppend(r: seq<Message>, x: Message)
    ensures Ids(r + [x]) == Ids(r) + {x.id}
  {
    assert (r + [x])[|r|] == x;
    forall i | 0 <= i < |r| ensures r[i].id in Ids(r + [x]) {
      assert (r + [x])[i] == r[i];
    }
  }

  lemma TakeOldest(t: Tables, u: UserId, r: seq<Message>, rest: set<MsgId>, m: MsgId)
    requires Taken(t, u, r, rest) && m in rest && t.messages[m].id == m
    requires forall n | n in rest :: t.messages[m].sentAt <= t.messages[n].sentAt
    ensures Taken(t, u, r + [t.messages[m]], rest - {m})
  {
    TakeKeepsSplit(t, u, r, rest, m);
  }

  lemma TakeKeepsSplit(t: Tables, u: UserId, r: seq<Message>, rest: set<MsgId>, m: MsgId)
    requires Split(t, u, r, rest) && m in rest && m in t.messages && t.messages[m].id == m
    ensures Split(t, u, r + [t.messages[m]], rest - {m})
  {
    IdsAppend(r, t.messages[m]);
  }

  lemma TakenIsBatch(t: Tables, u: UserId, r: seq<Message>, rest: set<MsgId>)
    requires Taken(t, u, r, rest) && |r| <= BATCH && (rest == {} || |r| >= BATCH)
    ensures IsBatch(t, u, r)
  {
    if rest == {} {
      assert |rest| == 0;
    }
  }

  lemma {:induction false} OldestExists(messages: map<MsgId, Message>, rest: set<MsgId>)
    requires |rest| > 0 && forall m | m in rest :: m in messages
    ensures exists m :: m in rest && forall n | n in rest :: messages[m].sentAt <= messages[n].sentAt
  {
    var x := Element(rest);
    var others := rest - {x};
    if |others| == 0 {
      assert rest == {x};
    } else {
      OldestExists(messages, others);
      var m :| m in others && forall n | n in others :: messages[m].sentAt <= messages[n].sentAt;
      var oldest := if messages[x].sentAt <= messages[m].sentAt then x else m;
      assert forall n | n in rest :: n == x || n in others;
      assert oldest in rest && forall n | n in rest :: messages[oldest].sentAt <= messages[n].sentAt;
    }
  }
}
