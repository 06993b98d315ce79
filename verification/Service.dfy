/** SendMessage's own computation: one ack row per recipient. */
module Service {
  import opened Collections
  import opened MessageStore
  import opened StoreInvariants

  function RowFor(message: Message, u: UserId): NewAck {
    NewAck(AckKey(message.id, u), AckRow(message.chat, None, None))
  }

  function Rows(message: Message, members: seq<UserId>): seq<NewAck> {
    if members == [] then []
    else
      var u := members[|members| - 1];
      Rows(message, members[..|members| - 1]) + if u == message.sender then [] else [RowFor(message, u)]
  }

  /** Every member but the sender gets a row, and gets it once. */
  lemma {:induction false} RowsCoverRecipients(message: Message, members: seq<UserId>)
    requires Distinct(members)
    ensures FreshRows(message, Rows(message, members)) && KeysDistinct(Rows(message, members))
    ensures forall u ::
              (exists i :: 0 <= i < |Rows(message, members)| && Rows(message, members)[i].key == AckKey(message.id, u))
              <==> u in members && u != message.sender
  {
    if members != [] {
      var init, u := members[..|members| - 1], members[|members| - 1];
      RowsCoverRecipients(message, init);
      assert members == init + [u];
      var before, rows := Rows(message, init), Rows(message, members);
      assert forall i | 0 <= i < |before| :: rows[i] == before[i];
      forall i | 0 <= i < |before| ensures before[i].key != AckKey(message.id, u) {
        var w := before[i].key.user;
        assert before[i].key == AckKey(message.id, w);
        assert w in init && u !in init;
      }
      forall w
        ensures (exists i :: 0 <= i < |rows| && rows[i].key == AckKey(message.id, w)) <==> w in members && w != message.sender
      {
        if w in init && w != message.sender {
          var i :| 0 <= i < |before| && before[i].key == AckKey(message.id, w);
          assert rows[i].key == AckKey(message.id, w);
        } else if w == u && w != message.sender {
          assert rows[|before|].key == AckKey(message.id, w);
        }
      }
    }
  }

  datatype SendResult = Stored | NothingToStore | PermissionDenied | MembersUnknown | StoreFailed

  class MessagingService {
    const repo: SqliteRepository

    constructor (repo: SqliteRepository)
      ensures this.repo == repo
    {
      this.repo := repo;
    }

    /** Everything SendMessage does before it starts the publish. `queried` is
        what the membership query returned, if it succeeded. */
    method SendMessage(message: Message, queried: Option<seq<UserId>>, chats: set<ChatId>, fails: bool)
      returns (result: SendResult, acks: seq<NewAck>)
      requires repo.Valid()
      modifies repo
      ensures repo.Valid() && acks == if queried.Some? then Rows(message, queried.value) else []
      ensures result.MembersUnknown? <==> queried.None?
      ensures result.PermissionDenied? <==> queried.Some? && message.sender !in queried.value
      ensures result.NothingToStore? <==> queried.Some? && message.sender in queried.value && acks == []
      ensures result.Stored? <==>
        && queried.Some? && message.sender in queried.value && acks != []
        && Insertable(old(repo.State()), message, acks) && message.chat in chats && !fails
      ensures repo.State() ==
              if result.Stored? then Inserted(old(repo.State()), message, acks) else old(repo.State())
    {
      acks := [];
      if queried.None? {
        return MembersUnknown, acks;
      }
      var userIsPartOfChat;
      userIsPartOfChat, acks := BuildAcks(message, queried.value);
      if !userIsPartOfChat {
        return PermissionDenied, acks;
      }
      if |acks| == 0 {
        return NothingToStore, acks;
      }
      var ok := repo.InsertMessageWithAcks(message, acks, chats, fails);
      if !ok {
        return StoreFailed, acks;
      }
      return Stored, acks;
    }

    /** The loop over the members. */
    method BuildAcks(message: Message, members: seq<UserId>) returns (userIsPartOfChat: bool, acks: seq<NewAck>)
      ensures userIsPartOfChat <==> message.sender in members
      ensures acks == Rows(message, members)
    {
      userIsPartOfChat, acks := false, [];
      for i := 0 to |members|
        invariant acks == Rows(message, members[..i])
        invariant userIsPartOfChat <==> message.sender in members[..i]
      {
        assert members[..i + 1][..i] == members[..i];
        assert members[..i + 1] == members[..i] + [members[i]];
        if members[i] == message.sender {
          userIsPartOfChat := true;
          continue;
        }
        acks := acks + [RowFor(message, members[i])];
      }
      assert members[..|members|] == members;
    }
  }
}
