/** Chat membership: creating, extending and leaving chats. A direct chat is
    one between exactly two users. */
module Chats {
  import opened Collections
  import opened Text

  type UserId = string
  type ChatId = string

  datatype Chat = Chat(name: string, isGroup: bool)

  /** `members` holds, per chat, the users with a membership row. */
  datatype Tables = Tables(chats: map<ChatId, Chat>, members: map<ChatId, set<UserId>>)

  /** The calls a handler makes; any of them may fail without an effect. */
  datatype Operation = Verify | Lookup | ReadMembers | ReadChat | WriteRows

  datatype Reply = Ok(chat: ChatId) | InvalidArgument | PermissionDenied | AlreadyExists | NotFound | Internal

  function MembersOf(t: Tables, c: ChatId): set<UserId> {
    if c in t.members then t.members[c] else {}
  }

  // ---------------------------------------------------------------------
  // Row operations
  // ---------------------------------------------------------------------

  function WithChat(t: Tables, c: ChatId, chat: Chat, users: set<UserId>): Tables {
    Tables(t.chats[c := chat], t.members[c := users])
  }

  function WithMember(t: Tables, c: ChatId, u: UserId): Tables {
    t.(members := t.members[c := MembersOf(t, c) + {u}])
  }

  function WithoutMember(t: Tables, c: ChatId, u: UserId): Tables {
    t.(members := t.members[c := MembersOf(t, c) - {u}])
  }

  // ---------------------------------------------------------------------
  // What each handler may answer, and the tables it leaves
  // ---------------------------------------------------------------------

  /** Rows of the direct-chat query. */
  predicate DirectMatch(t: Tables, c: ChatId, a: UserId, b: UserId) {
    c in t.chats && !t.chats[c].isGroup && a in MembersOf(t, c) && b in MembersOf(t, c)
  }

  ghost predicate CreateDirect(t: Tables, user: UserId, target: UserId, known: set<UserId>, fails: set<Operation>,
                               id: ChatId, reply: Reply, t': Tables) {
    if user == target then reply == InvalidArgument && t' == t
    else if Verify in fails then reply == Internal && t' == t
    else if target !in known then reply == InvalidArgument && t' == t
    else if Lookup in fails then reply == Internal && t' == t
    else if exists c :: DirectMatch(t, c, user, target)
    then reply.Ok? && DirectMatch(t, reply.chat, user, target) && t' == t
    else if WriteRows in fails then reply == Internal && t' == t
    else reply == Ok(id) && t' == WithChat(t, id, Chat("", false), {user, target})
  }

  /** The creator, then every further id once, in the order given. */
  function Cleaned(creator: UserId, raw: seq<string>): seq<UserId> {
    if raw == [] then [creator]
    else
      var before := Cleaned(creator, raw[..|raw| - 1]);
      var id := TrimSpace(raw[|raw| - 1]);
      if id != "" && id !in before then before + [id] else before
  }

  ghost predicate CreateGroup(t: Tables, creator: UserId, name: string, raw: seq<string>, known: set<UserId>,
                              fails: set<Operation>, id: ChatId, reply: Reply, t': Tables) {
    var users := set u | u in Cleaned(creator, raw);
    if !(1 <= ByteLength(TrimSpace(name)) <= 100) then reply == InvalidArgument && t' == t
    else if Verify in fails then reply == Internal && t' == t
    else if !(users <= known) then reply == InvalidArgument && t' == t
    else if WriteRows in fails then reply == Internal && t' == t
    else reply == Ok(id) && t' == WithChat(t, id, Chat(TrimSpace(name), true), users)
  }

  ghost predicate AddMember(t: Tables, caller: UserId, c: ChatId, raw: string, known: set<UserId>,
                            fails: set<Operation>, reply: Reply, t': Tables) {
    var target := TrimSpace(raw);
    if target == "" then reply == InvalidArgument && t' == t
    else if ReadMembers in fails then reply == Internal && t' == t
    else if caller !in MembersOf(t, c) then reply == PermissionDenied && t' == t
    else if target in MembersOf(t, c) then reply == AlreadyExists && t' == t
    else if ReadChat in fails || c !in t.chats then reply == Internal && t' == t
    else if !t.chats[c].isGroup then reply == InvalidArgument && t' == t
    else if Verify in fails then reply == Internal && t' == t
    else if target !in known then reply == NotFound && t' == t
    else if WriteRows in fails then reply == Internal && t' == t
    else reply == Ok(c) && t' == WithMember(t, c, target)
  }

  ghost predicate Leave(t: Tables, caller: UserId, c: ChatId, fails: set<Operation>, reply: Reply, t': Tables) {
    if ReadChat in fails || c !in t.chats then reply == Internal && t' == t
    else if !t.chats[c].isGroup then reply == InvalidArgument && t' == t
    else if WriteRows in fails then reply == Internal && t' == t
    else reply == Ok(c) && t' == WithoutMember(t, c, caller)
  }

  // ---------------------------------------------------------------------
  // The handlers
  // ---------------------------------------------------------------------

  class ChatService {
    var chats: map<ChatId, Chat>
    var members: map<ChatId, set<UserId>>

    ghost function State(): Tables reads this { Tables(chats, members) }

    constructor ()
      ensures State() == Tables(map[], map[])
    {
      chats, members := map[], map[];
    }

    method InsertChat(c: ChatId, chat: Chat, users: seq<UserId>, fails: bool) returns (ok: bool)
      modifies this
      ensures ok == !fails
      ensures State() == if ok then WithChat(old(State()), c, chat, set u | u in users) else old(State())
    {
      if fails {
        return false;
      }
      chats := chats[c := chat];
      members := members[c := set u | u in users];
      return true;
    }

    /** `id` is the fresh id a new chat would get, `known` the existing profiles. */
    method CreateDirectChat(user: UserId, target: UserId, known: set<UserId>, fails: set<Operation>, id: ChatId)
      returns (reply: Reply)
      requires id !in chats
      modifies this
      ensures CreateDirect(old(State()), user, target, known, fails, id, reply, State())
    {
      if user == target {
        return InvalidArgument;
      }
      if Verify in fails {
        return Internal;
      }
      if target !in known {
        return InvalidArgument;
      }
      if Lookup in fails {
        return Internal;
      }
      var found := set c | c in chats && !chats[c].isGroup && c in members && user in members[c] && target in members[c];
      assert forall c :: c in found <==> DirectMatch(State(), c, user, target);
      if found != {} {
        var c :| c in found;
        return Ok(c);
      }
      var ok := InsertChat(id, Chat("", false), [user, target], WriteRows in fails);
      assert (set u | u in [user, target]) == {user, target};
      if !ok {
        return Internal;
      }
      return Ok(id);
    }

    method CleanMembers(creator: UserId, raw: seq<string>) returns (memberIds: seq<UserId>)
      ensures memberIds == Cleaned(creator, raw)
    {
      var seen := {creator};
      memberIds := [creator];
      for i := 0 to |raw|
        invariant memberIds == Cleaned(creator, raw[..i])
        invariant seen == set u | u in memberIds
      {
        assert raw[..i + 1][..i] == raw[..i];
        var trimmed := TrimSpace(raw[i]);
        if trimmed != "" && trimmed !in seen {
          seen := seen + {trimmed};
          memberIds := memberIds + [trimmed];
        }
      }
      assert raw[..|raw|] == raw;
    }

    method CreateGroupChat(creator: UserId, name: string, raw: seq<string>, known: set<UserId>,
                           fails: set<Operation>, id: ChatId)
      returns (reply: Reply)
      requires id !in chats
      modifies this
      ensures CreateGroup(old(State()), creator, name, raw, known, fails, id, reply, State())
    {
      var groupName := TrimSpace(name);
      if ByteLength(groupName) < 1 || ByteLength(groupName) > 100 {
        return InvalidArgument;
      }
      var memberIds := CleanMembers(creator, raw);
      if Verify in fails {
        return Internal;
      }
      // the profile service returns those of the distinct ids that exist
      var existing := set u | u in memberIds && u in known;
      CleanedIsDistinct(creator, raw);
      DistinctCount(memberIds);
      SubsetCount(existing, set u | u in memberIds);
      if |existing| != |memberIds| {
        assert existing != (set u | u in memberIds);
        return InvalidArgument;
      }
      var ok := InsertChat(id, Chat(groupName, true), memberIds, WriteRows in fails);
      if !ok {
        return Internal;
      }
      return Ok(id);
    }

    method AddChatMember(caller: UserId, c: ChatId, raw: string, known: set<UserId>, fails: set<Operation>)
      returns (reply: Reply)
      modifies this
      ensures AddMember(old(State()), caller, c, raw, known, fails, reply, State())
    {
      var target := TrimSpace(raw);
      if target == "" {
        return InvalidArgument;
      }
      if ReadMembers in fails {
        return Internal;
      }
      var present := if c in members then members[c] else {};
      if caller !in present {
        return PermissionDenied;
      }
      if target in present {
        return AlreadyExists;
      }
      if ReadChat in fails || c !in chats {
        return Internal;
      }
      if !chats[c].isGroup {
        return InvalidArgument;
      }
      if Verify in fails {
        return Internal;
      }
      if target !in known {
        return NotFound;
      }
      if WriteRows in fails {
        return Internal;
      }
      members := members[c := present + {target}];
      return Ok(c);
    }

    method LeaveChat(caller: UserId, c: ChatId, fails: set<Operation>) returns (reply: Reply)
      modifies this
      ensures Leave(old(State()), caller, c, fails, reply, State())
    {
      if ReadChat in fails || c !in chats {
        return Internal;
      }
      if !chats[c].isGroup {
        return InvalidArgument;
      }
      if WriteRows in fails {
        return Internal;
      }
      members := members[c := (if c in members then members[c] else {}) - {caller}];
      return Ok(c);
    }
  }

  /** The member list of a new group names everybody once, its creator first. */
  lemma {:induction false} CleanedIsDistinct(creator: UserId, raw: seq<string>)
    ensures Distinct(Cleaned(creator, raw)) && [creator] <= Cleaned(creator, raw)
    ensures forall u :: u in Cleaned(creator, raw) <==>
              u == creator || exists i :: 0 <= i < |raw| && TrimSpace(raw[i]) == u != ""
  {
    if raw != [] {
      var init := raw[..|raw| - 1];
      CleanedIsDistinct(creator, init);
      forall u ensures u in Cleaned(creator, raw) <==>
                       u == creator || exists i :: 0 <= i < |raw| && TrimSpace(raw[i]) == u != "" {
        if i :| 0 <= i < |init| && TrimSpace(init[i]) == u != "" {
          assert TrimSpace(raw[i]) == u;
        }
      }
    }
  }

  // ---------------------------------------------------------------------
  // Who is a member of what, after each handler
  // ---------------------------------------------------------------------

  /** Nothing but chat `c` differs. */
  ghost predicate OnlyIn(t: Tables, c: ChatId, t': Tables) {
    && (forall d | d != c :: (d in t'.chats <==> d in t.chats) && (d in t.chats ==> t'.chats[d] == t.chats[d]))
    && (forall d, u | d != c :: u in MembersOf(t', d) <==> u in MembersOf(t, d))
  }

  /** A direct chat is opened exactly for two different users, the other one known,
      that have none yet; it has these two members and no name. */
  lemma CreateDirectEffect(t: Tables, user: UserId, target: UserId, known: set<UserId>, fails: set<Operation>,
                           id: ChatId, reply: Reply, t': Tables)
    requires CreateDirect(t, user, target, known, fails, id, reply, t') && id !in t.chats
    ensures t' != t || (reply.Ok? && reply.chat == id) ==>
      && reply == Ok(id) && user != target && target in known && OnlyIn(t, id, t')
      && (forall c | c in t.chats && !t.chats[c].isGroup :: !(user in MembersOf(t, c) && target in MembersOf(t, c)))
      && id in t'.chats && t'.chats[id] == Chat("", false)
      && (forall u :: u in MembersOf(t', id) <==> u == user || u == target)
    ensures reply.Ok? && t' == t ==>
      && reply.chat in t.chats && !t.chats[reply.chat].isGroup
      && user in MembersOf(t, reply.chat) && target in MembersOf(t, reply.chat)
    ensures fails == {} && user != target && target in known ==> reply.Ok?
    ensures reply.InvalidArgument? <==> user == target || (Verify !in fails && target !in known)
    ensures !reply.Ok? ==> t' == t && (reply.InvalidArgument? || reply.Internal?)
  {
    if c :| DirectMatch(t, c, user, target) {
      assert c in t.chats;
    } else {
      forall c | c in t.chats && !t.chats[c].isGroup ensures !(user in MembersOf(t, c) && target in MembersOf(t, c)) {
        assert !DirectMatch(t, c, user, target);
      }
    }
  }

  /** A group is opened exactly with a name of 1 to 100 bytes and known members;
      it has the creator and the named users as members. */
  lemma CreateGroupEffect(t: Tables, creator: UserId, name: string, raw: seq<string>, known: set<UserId>,
                          fails: set<Operation>, id: ChatId, reply: Reply, t': Tables)
    requires CreateGroup(t, creator, name, raw, known, fails, id, reply, t') && id !in t.chats
    ensures reply.Ok? <==>
              && fails !! {Verify, WriteRows} && 1 <= ByteLength(TrimSpace(name)) <= 100 && creator in known
              && forall i | 0 <= i < |raw| && TrimSpace(raw[i]) != "" :: TrimSpace(raw[i]) in known
    ensures reply.Ok? ==>
      && reply.chat == id && OnlyIn(t, id, t') && id in t'.chats && t'.chats[id] == Chat(TrimSpace(name), true)
      && (forall u :: u in MembersOf(t', id) <==> u == creator || exists i :: 0 <= i < |raw| && TrimSpace(raw[i]) == u != "")
    ensures !reply.Ok? ==> t' == t && (reply.InvalidArgument? || reply.Internal?)
    ensures reply.Internal? ==> fails != {}
  {
    CleanedIsDistinct(creator, raw);
    var users := set u | u in Cleaned(creator, raw);
    assert forall u :: u in users <==> u in Cleaned(creator, raw);
    if users <= known {
      forall i | 0 <= i < |raw| && TrimSpace(raw[i]) != "" ensures TrimSpace(raw[i]) in known {
        assert TrimSpace(raw[i]) in users;
      }
    }
  }

  /** Exactly a member of a group can add exactly a known user that is no member,
      and then exactly that user is added. */
  lemma AddMemberEffect(t: Tables, caller: UserId, c: ChatId, raw: string, known: set<UserId>,
                        fails: set<Operation>, reply: Reply, t': Tables)
    requires AddMember(t, caller, c, raw, known, fails, reply, t')
    ensures reply.Ok? <==>
      && fails !! {ReadMembers, ReadChat, Verify, WriteRows} && TrimSpace(raw) != "" && c in t.chats && t.chats[c].isGroup
      && caller in MembersOf(t, c) && TrimSpace(raw) !in MembersOf(t, c) && TrimSpace(raw) in known
    ensures reply.PermissionDenied? <==>
      TrimSpace(raw) != "" && ReadMembers !in fails && caller !in MembersOf(t, c)
    ensures reply.AlreadyExists? <==>
      TrimSpace(raw) != "" && ReadMembers !in fails && caller in MembersOf(t, c) && TrimSpace(raw) in MembersOf(t, c)
    ensures reply.NotFound? ==> TrimSpace(raw) !in known && caller in MembersOf(t, c)
    ensures reply.InvalidArgument? ==> TrimSpace(raw) == "" || (c in t.chats && !t.chats[c].isGroup)
    ensures reply.Internal? ==> fails != {} || c !in t.chats
    ensures t'.chats == t.chats && OnlyIn(t, c, t')
    ensures forall u :: u in MembersOf(t', c) <==> u in MembersOf(t, c) || (reply.Ok? && u == TrimSpace(raw))
  {}

  /** Exactly a group can be left, and then exactly the caller is no member any more. */
  lemma LeaveEffect(t: Tables, caller: UserId, c: ChatId, fails: set<Operation>, reply: Reply, t': Tables)
    requires Leave(t, caller, c, fails, reply, t')
    ensures reply.Ok? <==> fails !! {ReadChat, WriteRows} && c in t.chats && t.chats[c].isGroup
    ensures reply.InvalidArgument? <==> ReadChat !in fails && c in t.chats && !t.chats[c].isGroup
    ensures !reply.Ok? ==> reply.InvalidArgument? || reply.Internal?
    ensures t'.chats == t.chats && OnlyIn(t, c, t')
    ensures forall u :: u in MembersOf(t', c) <==> u in MembersOf(t, c) && !(reply.Ok? && u == caller)
  {}

  // ---------------------------------------------------------------------
  // The length of a group name
  // ---------------------------------------------------------------------

  /** A name of 1 to 100 characters is what the answer asks for; it is refused
      exactly when its encoding is longer than 100 bytes. */
  lemma NameIsRefusedIff(t: Tables, creator: UserId, name: string, raw: seq<string>, known: set<UserId>,
                         fails: set<Operation>, id: ChatId, reply: Reply, t': Tables)
    requires CreateGroup(t, creator, name, raw, known, fails, id, reply, t')
    requires 1 <= |TrimSpace(name)| <= 100 && forall u | u in Cleaned(creator, raw) :: u in known
    ensures reply.InvalidArgument? <==> ByteLength(TrimSpace(name)) > 100
  {
    assert (set u | u in Cleaned(creator, raw)) <= known;
  }

  /** 51 times the letter e with an acute accent. */
  const ACCENTED: string := seq(51, _ => '\U{00E9}')

  lemma AccentedNameIsRefused(t: Tables, creator: UserId, raw: seq<string>, known: set<UserId>,
                              fails: set<Operation>, id: ChatId, reply: Reply, t': Tables)
    requires CreateGroup(t, creator, ACCENTED, raw, known, fails, id, reply, t')
    ensures |TrimSpace(ACCENTED)| == 51 && reply == InvalidArgument && t' == t
  {
    BytesOfRepeated('\U{00E9}', 51);
    TrimmedIsKept(ACCENTED);
  }

  // ---------------------------------------------------------------------
  // Invariants
  // ---------------------------------------------------------------------

  /** Every direct chat has exactly two members. */
  ghost predicate DirectShape(t: Tables) {
    && t.chats.Keys == t.members.Keys
    && (forall c | c in t.chats && !t.chats[c].isGroup :: |t.members[c]| == 2)
  }

  /** There is at most one direct chat per pair of users. */
  ghost predicate DirectUnique(t: Tables) {
    forall c, d | c in t.chats && d in t.chats && !t.chats[c].isGroup && !t.chats[d].isGroup ::
      MembersOf(t, c) == MembersOf(t, d) ==> c == d
  }

  lemma PairMatches(t: Tables, c: ChatId, a: UserId, b: UserId)
    requires DirectShape(t) && c in t.chats && !t.chats[c].isGroup && a != b
    ensures DirectMatch(t, c, a, b) <==> MembersOf(t, c) == {a, b}
  {
    if DirectMatch(t, c, a, b) {
      SubsetCount({a, b}, t.members[c]);
    }
  }

  /** A direct chat may be inserted without losing uniqueness exactly while the
      lookup that preceded it would still find nothing. */
  lemma InsertKeepsUniqueIff(t: Tables, c: ChatId, a: UserId, b: UserId)
    requires DirectShape(t) && DirectUnique(t) && c !in t.chats && a != b
    ensures DirectUnique(WithChat(t, c, Chat("", false), {a, b})) <==> forall d :: !DirectMatch(t, d, a, b)
  {
    var t' := WithChat(t, c, Chat("", false), {a, b});
    forall d | d in t.chats && !t.chats[d].isGroup
      ensures DirectMatch(t, d, a, b) <==> MembersOf(t', d) == MembersOf(t', c) {
      PairMatches(t, d, a, b);
    }
  }

  // ---------------------------------------------------------------------
  // Handlers run one at a time
  // ---------------------------------------------------------------------

  datatype Call =
    | Direct(user: UserId, target: UserId, known: set<UserId>, fails: set<Operation>, id: ChatId)
    | Group(creator: UserId, name: string, raw: seq<string>, known: set<UserId>, fails: set<Operation>, id: ChatId)
    | Add(caller: UserId, c: ChatId, target: string, known: set<UserId>, fails: set<Operation>)
    | Quit(caller: UserId, c: ChatId, fails: set<Operation>)

  ghost predicate Handled(t: Tables, call: Call, reply: Reply, t': Tables) {
    match call
    case Direct(user, target, known, fails, id) =>
      id !in t.chats && CreateDirect(t, user, target, known, fails, id, reply, t')
    case Group(creator, name, raw, known, fails, id) =>
      id !in t.chats && CreateGroup(t, creator, name, raw, known, fails, id, reply, t')
    case Add(caller, c, target, known, fails) => AddMember(t, caller, c, target, known, fails, reply, t')
    case Quit(caller, c, fails) => Leave(t, caller, c, fails, reply, t')
  }

  ghost predicate IsSerialRun(ts: seq<Tables>, calls: seq<Call>, replies: seq<Reply>) {
    && |ts| == |calls| + 1 && |replies| == |calls| && ts[0] == Tables(map[], map[])
    && (forall i | 0 <= i < |calls| :: Handled(ts[i], calls[i], replies[i], ts[i + 1]))
  }

  /** Direct chats stay as they are. */
  ghost predicate DirectKept(t: Tables, t': Tables) {
    forall c | c in t.chats && !t.chats[c].isGroup ::
      c in t'.chats && !t'.chats[c].isGroup && MembersOf(t', c) == MembersOf(t, c)
  }

  lemma GroupKeeps(t: Tables, c: ChatId, chat: Chat, users: set<UserId>)
    requires DirectShape(t) && DirectUnique(t) && c !in t.chats && chat.isGroup
    ensures var t' := WithChat(t, c, chat, users); DirectShape(t') && DirectUnique(t') && DirectKept(t, t')
  {}

  lemma MembersKeep(t: Tables, c: ChatId, users: set<UserId>)
    requires DirectShape(t) && DirectUnique(t) && c in t.chats && t.chats[c].isGroup
    ensures var t' := t.(members := t.members[c := users]); DirectShape(t') && DirectUnique(t') && DirectKept(t, t')
  {}

  lemma CallKeeps(t: Tables, call: Call, reply: Reply, t': Tables)
    requires DirectShape(t) && DirectUnique(t) && Handled(t, call, reply, t')
    ensures DirectShape(t') && DirectUnique(t') && DirectKept(t, t')
  {
    if t' != t {
      match call
      case Direct(user, target, known, fails, id) => DirectKeeps(t, user, target, id);
      case Group(creator, name, raw, known, fails, id) =>
        GroupKeeps(t, id, Chat(TrimSpace(name), true), set u | u in Cleaned(creator, raw));
      case Add(caller, c, target, known, fails) => MembersKeep(t, c, MembersOf(t, c) + {TrimSpace(target)});
      case Quit(caller, c, fails) => MembersKeep(t, c, MembersOf(t, c) - {caller});
    }
  }

  lemma DirectKeeps(t: Tables, user: UserId, target: UserId, id: ChatId)
    requires DirectShape(t) && DirectUnique(t) && id !in t.chats && user != target
    requires forall c :: !DirectMatch(t, c, user, target)
    ensures var t' := WithChat(t, id, Chat("", false), {user, target});
            DirectShape(t') && DirectUnique(t') && DirectKept(t, t')
  {
    InsertKeepsUniqueIff(t, id, user, target);
  }

  lemma {:induction false} SerialRunKeeps(ts: seq<Tables>, calls: seq<Call>, replies: seq<Reply>, i: nat, j: nat)
    requires IsSerialRun(ts, calls, replies) && i <= j < |ts|
    ensures DirectShape(ts[j]) && DirectUnique(ts[j]) && DirectKept(ts[i], ts[j])
    decreases j
  {
    if j > 0 {
      SerialRunKeeps(ts, calls, replies, if i < j then i else 0, j - 1);
      CallKeeps(ts[j - 1], calls[j - 1], replies[j - 1], ts[j]);
    }
  }

  /** Creating a direct chat again, from either side and however much later,
      changes nothing, and answers with the same chat exactly when the target
      still has a profile and the calls for profile and lookup succeed. */
  lemma SameDirectChat(ts: seq<Tables>, calls: seq<Call>, replies: seq<Reply>, i: nat, j: nat)
    requires IsSerialRun(ts, calls, replies) && i < j < |calls|
    requires calls[i].Direct? && calls[j].Direct? && replies[i].Ok?
    requires {calls[j].user, calls[j].target} == {calls[i].user, calls[i].target}
    ensures ts[j + 1] == ts[j]
    ensures replies[j] == replies[i] <==>
              calls[j].target in calls[j].known && Verify !in calls[j].fails && Lookup !in calls[j].fails
  {
    var a, b, c := calls[i].user, calls[i].target, replies[i].chat;
    SerialRunKeeps(ts, calls, replies, i, i + 1);
    SerialRunKeeps(ts, calls, replies, i + 1, j);
    assert Handled(ts[i], calls[i], replies[i], ts[i + 1]);
    assert Handled(ts[j], calls[j], replies[j], ts[j + 1]);
    assert calls[j].user != calls[j].target by {
      assert a in {calls[j].user, calls[j].target} && b in {calls[j].user, calls[j].target};
    }
    assert DirectMatch(ts[i + 1], c, a, b);
    PairMatches(ts[i + 1], c, a, b);
    assert MembersOf(ts[j], c) == {a, b};
    assert DirectMatch(ts[j], c, calls[j].user, calls[j].target);
    if replies[j].Ok? {
      PairMatches(ts[j], replies[j].chat, calls[j].user, calls[j].target);
    }
  }
}
