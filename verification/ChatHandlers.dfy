/** The chat handlers interleaved: each database read and each write is a step of
    its own, and a write relies only on what its handler has read before. */
module ChatHandlers {
  import opened Text
  import opened Chats

  type HandlerId = int

  /** A handler between two of its steps, with what it has seen so far. */
  datatype Handler =
    | DirectStarted(user: UserId, target: UserId)
    | DirectMissing(user: UserId, target: UserId)             // the lookup found nothing
    | GroupReady(name: string, users: set<UserId>)
    | AddStarted(caller: UserId, c: ChatId, target: UserId)
    | AddAllowed(c: ChatId, target: UserId)                   // caller inside, target not
    | AddReady(c: ChatId, target: UserId)                     // and the chat is a group
    | LeaveStarted(caller: UserId, c: ChatId)
    | LeaveReady(caller: UserId, c: ChatId)                   // the chat is a group

  type Handlers = map<HandlerId, Handler>

  datatype State = State(tables: Tables, handlers: Handlers)

  const INIT: State := State(Tables(map[], map[]), map[])

  datatype Step =
    | Begin(h: HandlerId, first: Handler)
    | LookUp(h: HandlerId)
    | InsertDirect(h: HandlerId, id: ChatId)
    | InsertGroup(h: HandlerId, id: ChatId)
    | ReadMembers(h: HandlerId)
    | ReadChat(h: HandlerId)
    | InsertMember(h: HandlerId)
    | DeleteMember(h: HandlerId)
    | GiveUp(h: HandlerId)

  /** Where a handler starts, its arguments checked. */
  predicate IsFirst(p: Handler) {
    match p
    case DirectStarted(user, target) => user != target
    case GroupReady(name, users) => true
    case AddStarted(caller, c, target) => target != ""
    case LeaveStarted(caller, c) => true
    case _ => false
  }

  predicate Runs(s: State, h: HandlerId) {
    h in s.handlers
  }

  function Ended(s: State, h: HandlerId): State {
    s.(handlers := s.handlers - {h})
  }

  function Now(s: State, h: HandlerId, p: Handler): State {
    s.(handlers := s.handlers[h := p])
  }

  ghost function DoLookUp(s: State, h: HandlerId, user: UserId, target: UserId): State {
    if exists c :: DirectMatch(s.tables, c, user, target) then Ended(s, h) else Now(s, h, DirectMissing(user, target))
  }

  function DoReadMembers(s: State, h: HandlerId, caller: UserId, c: ChatId, target: UserId): State {
    if caller in MembersOf(s.tables, c) && target !in MembersOf(s.tables, c)
    then Now(s, h, AddAllowed(c, target)) else Ended(s, h)
  }

  /** Both AddChatMember and LeaveChat go on only for a group. */
  function DoReadChat(s: State, h: HandlerId, c: ChatId, ready: Handler): State {
    if c in s.tables.chats && s.tables.chats[c].isGroup then Now(s, h, ready) else Ended(s, h)
  }

  function DoWrite(s: State, h: HandlerId, tables: Tables): State {
    State(tables, s.handlers - {h})
  }

  /** New chat ids are fresh. */
  predicate Enabled(s: State, step: Step) {
    match step
    case Begin(h, first) => !Runs(s, h) && IsFirst(first)
    case LookUp(h) => Runs(s, h) && s.handlers[h].DirectStarted?
    case InsertDirect(h, id) => Runs(s, h) && s.handlers[h].DirectMissing? && id !in s.tables.chats
    case InsertGroup(h, id) => Runs(s, h) && s.handlers[h].GroupReady? && id !in s.tables.chats
    case ReadMembers(h) => Runs(s, h) && s.handlers[h].AddStarted?
    case ReadChat(h) => Runs(s, h) && (s.handlers[h].AddAllowed? || s.handlers[h].LeaveStarted?)
    case InsertMember(h) => Runs(s, h) && s.handlers[h].AddReady?
    case DeleteMember(h) => Runs(s, h) && s.handlers[h].LeaveReady?
    case GiveUp(h) => Runs(s, h)
  }

  ghost function Next(s: State, step: Step): State
    requires Enabled(s, step)
  {
    var t := s.tables;
    match step
    case Begin(h, first) => Now(s, h, first)
    case LookUp(h) => DoLookUp(s, h, s.handlers[h].user, s.handlers[h].target)
    case InsertDirect(h, id) =>
      DoWrite(s, h, WithChat(t, id, Chat("", false), {s.handlers[h].user, s.handlers[h].target}))
    case InsertGroup(h, id) => DoWrite(s, h, WithChat(t, id, Chat(s.handlers[h].name, true), s.handlers[h].users))
    case ReadMembers(h) => DoReadMembers(s, h, s.handlers[h].caller, s.handlers[h].c, s.handlers[h].target)
    case ReadChat(h) =>
      var p := s.handlers[h];
      DoReadChat(s, h, p.c, if p.AddAllowed? then AddReady(p.c, p.target) else LeaveReady(p.caller, p.c))
    case InsertMember(h) => DoWrite(s, h, WithMember(t, s.handlers[h].c, s.handlers[h].target))
    case DeleteMember(h) => DoWrite(s, h, WithoutMember(t, s.handlers[h].c, s.handlers[h].caller))
    case GiveUp(h) =>
      // a refusal by the profile service, a failed call or a cancelled request
      Ended(s, h)
  }

  ghost predicate IsRun(states: seq<State>, steps: seq<Step>) {
    && |states| == |steps| + 1 && states[0] == INIT
    && (forall i | 0 <= i < |steps| :: Enabled(states[i], steps[i]) && states[i + 1] == Next(states[i], steps[i]))
  }

  // ---------------------------------------------------------------------
  // What was read stays true until it is used
  // ---------------------------------------------------------------------

  predicate IsGroup(t: Tables, c: ChatId) {
    c in t.chats && t.chats[c].isGroup
  }

  /** What a handler has seen still holds, whatever happened since. */
  predicate StillRight(t: Tables, p: Handler) {
    match p
    case DirectStarted(user, target) => user != target
    case DirectMissing(user, target) => user != target
    case AddReady(c, target) => IsGroup(t, c)
    case LeaveReady(caller, c) => IsGroup(t, c)
    case _ => true
  }

  ghost predicate Inv(s: State) {
    DirectShape(s.tables) && forall h | h in s.handlers :: StillRight(s.tables, s.handlers[h])
  }

  /** Groups stay groups, and direct chats stay what they are. */
  ghost predicate ChatsKept(t: Tables, t': Tables) {
    (forall c | IsGroup(t, c) :: IsGroup(t', c)) && DirectKept(t, t')
  }

  lemma NewChatKeeps(t: Tables, id: ChatId, chat: Chat, users: set<UserId>)
    requires DirectShape(t) && id !in t.chats && (chat.isGroup || |users| == 2)
    ensures DirectShape(WithChat(t, id, chat, users)) && ChatsKept(t, WithChat(t, id, chat, users))
  {}

  lemma NewMembersKeep(t: Tables, c: ChatId, users: set<UserId>)
    requires DirectShape(t) && IsGroup(t, c)
    ensures var t' := t.(members := t.members[c := users]); DirectShape(t') && ChatsKept(t, t')
  {}

  lemma StepKeepsTables(s: State, step: Step)
    requires Inv(s) && Enabled(s, step)
    ensures DirectShape(Next(s, step).tables) && ChatsKept(s.tables, Next(s, step).tables)
  {
    match step
    case InsertDirect(h, id) =>
      assert StillRight(s.tables, s.handlers[h]);
      NewChatKeeps(s.tables, id, Chat("", false), {s.handlers[h].user, s.handlers[h].target});
    case InsertGroup(h, id) => NewChatKeeps(s.tables, id, Chat(s.handlers[h].name, true), s.handlers[h].users);
    case InsertMember(h) =>
      assert StillRight(s.tables, s.handlers[h]);
      NewMembersKeep(s.tables, s.handlers[h].c, MembersOf(s.tables, s.handlers[h].c) + {s.handlers[h].target});
    case DeleteMember(h) =>
      assert StillRight(s.tables, s.handlers[h]);
      NewMembersKeep(s.tables, s.handlers[h].c, MembersOf(s.tables, s.handlers[h].c) - {s.handlers[h].caller});
    case _ =>
  }

  /** A handler's own step leaves it with something that is right now; what the
      others have seen is untouched. */
  lemma StepKeepsSeen(s: State, step: Step, g: HandlerId)
    requires Inv(s) && Enabled(s, step) && g in Next(s, step).handlers
    requires ChatsKept(s.tables, Next(s, step).tables)
    ensures StillRight(Next(s, step).tables, Next(s, step).handlers[g])
  {
    if step.h != g {
      assert g in s.handlers && StillRight(s.tables, s.handlers[g]);
    } else if step.LookUp? {
      assert StillRight(s.tables, s.handlers[g]);
    }
  }

  lemma StepKeeps(s: State, step: Step)
    requires Inv(s) && Enabled(s, step)
    ensures Inv(Next(s, step)) && ChatsKept(s.tables, Next(s, step).tables)
  {
    StepKeepsTables(s, step);
    forall g | g in Next(s, step).handlers ensures StillRight(Next(s, step).tables, Next(s, step).handlers[g]) {
      StepKeepsSeen(s, step, g);
    }
  }

  lemma {:induction false} RunKeeps(states: seq<State>, steps: seq<Step>, i: nat)
    requires IsRun(states, steps) && i < |states|
    ensures Inv(states[i])
  {
    if i > 0 {
      RunKeeps(states, steps, i - 1);
      StepKeeps(states[i - 1], steps[i - 1]);
    }
  }

  /** Under any interleaving of the handlers' reads and writes, each direct chat
      has exactly two members. */
  lemma DirectChatsHaveTwoMembers(states: seq<State>, steps: seq<Step>, i: nat)
    requires IsRun(states, steps) && i < |states|
    ensures DirectShape(states[i].tables)
  {
    RunKeeps(states, steps, i);
  }

  lemma KeptOn(a: Tables, b: Tables, c: Tables)
    requires ChatsKept(a, b) && ChatsKept(b, c)
    ensures ChatsKept(a, c)
  {}

  lemma {:induction false} KeptAlong(states: seq<State>, i: nat, j: nat)
    requires i <= j < |states| && forall k | 0 <= k < |states| - 1 :: ChatsKept(states[k].tables, states[k + 1].tables)
    ensures ChatsKept(states[i].tables, states[j].tables)
    decreases j
  {
    if i < j {
      KeptAlong(states, i, j - 1);
      KeptOn(states[i].tables, states[j - 1].tables, states[j].tables);
    }
  }

  /** And those are the same two for good; nor does a group ever become a direct chat. */
  lemma DirectChatsNeverChange(states: seq<State>, steps: seq<Step>, i: nat, j: nat)
    requires IsRun(states, steps) && i <= j < |states|
    ensures ChatsKept(states[i].tables, states[j].tables)
  {
    forall k | 0 <= k < |steps| ensures ChatsKept(states[k].tables, states[k + 1].tables) {
      RunKeeps(states, steps, k);
      StepKeeps(states[k], steps[k]);
    }
    KeptAlong(states, i, j);
  }

  // ---------------------------------------------------------------------
  // Who is a member, told from the steps alone
  // ---------------------------------------------------------------------

  /** The step makes `u` a member of `c`: it opens the chat with `u`, or adds `u`. */
  predicate Joins(s: State, step: Step, c: ChatId, u: UserId) {
    match step
    case InsertDirect(h, id) =>
      id == c && Runs(s, h) && s.handlers[h].DirectMissing? && (u == s.handlers[h].user || u == s.handlers[h].target)
    case InsertGroup(h, id) => id == c && Runs(s, h) && s.handlers[h].GroupReady? && u in s.handlers[h].users
    case InsertMember(h) => Runs(s, h) && s.handlers[h] == AddReady(c, u)
    case _ => false
  }

  /** The step ends the membership of `u` in `c`: `u` leaves. */
  predicate Leaves(s: State, step: Step, c: ChatId, u: UserId) {
    step.DeleteMember? && Runs(s, step.h) && s.handlers[step.h] == LeaveReady(u, c)
  }

  lemma StepOnMembers(s: State, step: Step, c: ChatId, u: UserId)
    requires DirectShape(s.tables) && Enabled(s, step)
    ensures u in MembersOf(Next(s, step).tables, c) <==>
              Joins(s, step, c, u) || (u in MembersOf(s.tables, c) && !Leaves(s, step, c, u))
  {}

  /** `u` joined `c` at step `k` and has not left before step `n`. */
  ghost predicate StaysSince(states: seq<State>, steps: seq<Step>, k: nat, n: nat, c: ChatId, u: UserId)
    requires |states| == |steps| + 1
  {
    && k < n <= |steps| && Joins(states[k], steps[k], c, u)
    && forall m | k < m < n :: !Leaves(states[m], steps[m], c, u)
  }

  ghost predicate HasJoined(states: seq<State>, steps: seq<Step>, n: nat, c: ChatId, u: UserId)
    requires |states| == |steps| + 1
  {
    exists k: nat :: StaysSince(states, steps, k, n, c, u)
  }

  /** Over every run a user is a member of a chat exactly if the chat was opened with
      that user or the user was added, and the user has not left since. */
  lemma {:induction false} MemberIff(states: seq<State>, steps: seq<Step>, n: nat, c: ChatId, u: UserId)
    requires IsRun(states, steps) && n <= |steps|
    ensures u in MembersOf(states[n].tables, c) <==> exists k: nat :: StaysSince(states, steps, k, n, c, u)
    decreases n
  {
    if n > 0 {
      MemberIff(states, steps, n - 1, c, u);
      RunKeeps(states, steps, n - 1);
      StepOnMembers(states[n - 1], steps[n - 1], c, u);
      StaysOn(states, steps, n - 1, n, c, u);
      assert HasJoined(states, steps, n, c, u) <==> exists k: nat :: StaysSince(states, steps, k, n, c, u);
    }
  }

  lemma StaysOn(states: seq<State>, steps: seq<Step>, n: nat, n': nat, c: ChatId, u: UserId)
    requires |states| == |steps| + 1 && n < |steps| && n' == n + 1
    ensures HasJoined(states, steps, n', c, u) <==>
      Joins(states[n], steps[n], c, u) || (HasJoined(states, steps, n, c, u) && !Leaves(states[n], steps[n], c, u))
  {
    if Joins(states[n], steps[n], c, u) {
      assert StaysSince(states, steps, n, n', c, u);
    } else if k: nat :| StaysSince(states, steps, k, n', c, u) {
      assert k < n && StaysSince(states, steps, k, n, c, u);
    }
    if !Leaves(states[n], steps[n], c, u) {
      if k: nat :| StaysSince(states, steps, k, n, c, u) {
        assert StaysSince(states, steps, k, n', c, u);
      }
    }
  }

  // ---------------------------------------------------------------------
  // Only members add members
  // ---------------------------------------------------------------------

  /** The step reads the members of `c` for a handler whose caller is inside and
      whose target is not. */
  predicate Admits(s: State, step: Step, h: HandlerId, c: ChatId, target: UserId) {
    && step == Step.ReadMembers(h) && Runs(s, h) && s.handlers[h].AddStarted?
    && s.handlers[h].c == c && s.handlers[h].target == target
    && s.handlers[h].caller in MembersOf(s.tables, c) && target !in MembersOf(s.tables, c)
  }

  ghost predicate ReadAt(states: seq<State>, steps: seq<Step>, j: nat, n: nat, h: HandlerId, c: ChatId, target: UserId)
    requires |states| == |steps| + 1
  {
    j < n <= |steps| && Admits(states[j], steps[j], h, c, target)
  }

  ghost predicate Adding(s: State, h: HandlerId, c: ChatId, target: UserId) {
    Runs(s, h) && (s.handlers[h] == AddAllowed(c, target) || s.handlers[h] == AddReady(c, target))
  }

  lemma StepOnAdding(s: State, step: Step, h: HandlerId, c: ChatId, target: UserId)
    requires Enabled(s, step) && Adding(Next(s, step), h, c, target)
    ensures Adding(s, h, c, target) || Admits(s, step, h, c, target)
  {}

  lemma {:induction false} AddingHasRead(states: seq<State>, steps: seq<Step>, n: nat, h: HandlerId, c: ChatId, target: UserId)
    requires IsRun(states, steps) && n <= |steps| && Adding(states[n], h, c, target)
    ensures exists j: nat :: ReadAt(states, steps, j, n, h, c, target)
    decreases n
  {
    if n > 0 {
      StepOnAdding(states[n - 1], steps[n - 1], h, c, target);
      if Adding(states[n - 1], h, c, target) {
        AddingHasRead(states, steps, n - 1, h, c, target);
        var j: nat :| ReadAt(states, steps, j, n - 1, h, c, target);
        assert ReadAt(states, steps, j, n, h, c, target);
      } else {
        assert ReadAt(states, steps, n - 1, n, h, c, target);
      }
    }
  }

  /** Over every run a user is added only by a handler that has seen its caller inside
      the group, and the user not. */
  lemma AddedByMember(states: seq<State>, steps: seq<Step>, n: nat)
    requires IsRun(states, steps) && n < |steps| && steps[n].InsertMember?
    ensures var h := steps[n].h;
            && Runs(states[n], h) && states[n].handlers[h].AddReady?
            && IsGroup(states[n].tables, states[n].handlers[h].c)
            && exists j: nat :: ReadAt(states, steps, j, n, h, states[n].handlers[h].c, states[n].handlers[h].target)
  {
    RunKeeps(states, steps, n);
    var h := steps[n].h;
    assert StillRight(states[n].tables, states[n].handlers[h]);
    AddingHasRead(states, steps, n, h, states[n].handlers[h].c, states[n].handlers[h].target);
  }

  // ---------------------------------------------------------------------
  // One direct chat per pair
  // ---------------------------------------------------------------------

  /** Over any run, a step loses the uniqueness of direct chats exactly if it
      inserts one for a pair that meanwhile has one: its own lookup is stale. */
  lemma UniqueUnlessStale(states: seq<State>, steps: seq<Step>, i: nat)
    requires IsRun(states, steps) && i < |steps| && DirectUnique(states[i].tables)
    ensures DirectUnique(states[i + 1].tables) <==>
      !(steps[i].InsertDirect? &&
        var p := states[i].handlers[steps[i].h];
        exists d :: DirectMatch(states[i].tables, d, p.user, p.target))
  {
    RunKeeps(states, steps, i);
    var s, step := states[i], steps[i];
    if step.InsertDirect? {
      assert StillRight(s.tables, s.handlers[step.h]);
      InsertKeepsUniqueIff(s.tables, step.id, s.handlers[step.h].user, s.handlers[step.h].target);
    } else {
      OtherStepKeepsUnique(s, step);
    }
  }

  lemma OtherStepKeepsUnique(s: State, step: Step)
    requires Inv(s) && Enabled(s, step) && DirectUnique(s.tables) && !step.InsertDirect?
    ensures DirectUnique(Next(s, step).tables)
  {
    match step
    case InsertGroup(h, id) => GroupKeeps(s.tables, id, Chat(s.handlers[h].name, true), s.handlers[h].users);
    case InsertMember(h) =>
      assert StillRight(s.tables, s.handlers[h]);
      MembersKeep(s.tables, s.handlers[h].c, MembersOf(s.tables, s.handlers[h].c) + {s.handlers[h].target});
    case DeleteMember(h) =>
      assert StillRight(s.tables, s.handlers[h]);
      MembersKeep(s.tables, s.handlers[h].c, MembersOf(s.tables, s.handlers[h].c) - {s.handlers[h].caller});
    case _ =>
  }

  ghost predicate Reachable(s: State) {
    exists states: seq<State>, steps: seq<Step> :: IsRun(states, steps) && states[|steps|] == s
  }

  lemma ReachStep(s: State, step: Step)
    requires Reachable(s) && Enabled(s, step)
    ensures Reachable(Next(s, step))
  {
    var states: seq<State>, steps: seq<Step> :| IsRun(states, steps) && states[|steps|] == s;
    var states', steps' := states + [Next(s, step)], steps + [step];
    assert IsRun(states', steps') && states'[|steps'|] == Next(s, step);
  }

  /** Two handlers for one pair that have both looked up. */
  const BOTH_MISSING: State :=
    State(Tables(map[], map[]), map[1 := DirectMissing("a", "b"), 2 := DirectMissing("b", "a")])

  lemma BothMissingIsReachable()
    ensures Reachable(BOTH_MISSING)
  {
    assert IsRun([INIT], []) && [INIT][0] == INIT;
    ReachStep(INIT, Begin(1, DirectStarted("a", "b")));
    var s1 := Now(INIT, 1, DirectStarted("a", "b"));
    ReachStep(s1, Begin(2, DirectStarted("b", "a")));
    var s2 := Now(s1, 2, DirectStarted("b", "a"));
    ReachStep(s2, LookUp(1));
    var s3 := Now(s2, 1, DirectMissing("a", "b"));
    ReachStep(s3, LookUp(2));
    assert Now(s3, 2, DirectMissing("b", "a")) == BOTH_MISSING;
  }

  /** The missing transaction: two handlers that both look up before either
      inserts leave two direct chats for one pair. */
  lemma TwoDirectChats()
    ensures exists s :: Reachable(s) && !DirectUnique(s.tables)
  {
    BothMissingIsReachable();
    ReachStep(BOTH_MISSING, InsertDirect(1, "x"));
    var s1 := Next(BOTH_MISSING, InsertDirect(1, "x"));
    ReachStep(s1, InsertDirect(2, "y"));
    var s2 := Next(s1, InsertDirect(2, "y"));
    assert MembersOf(s2.tables, "x") == MembersOf(s2.tables, "y") == {"a", "b"} && "x" != "y";
  }

  // ---------------------------------------------------------------------
  // Undisturbed, the steps are the handler
  // ---------------------------------------------------------------------

  /** Look up and insert, run back to back, do what CreateDirectChat does. */
  lemma DirectInOneGo(s: State, h: HandlerId, user: UserId, target: UserId, known: set<UserId>, id: ChatId)
    requires !Runs(s, h) && user != target && target in known && id !in s.tables.chats
    ensures var s1 := Now(s, h, DirectStarted(user, target));
            var s2 := DoLookUp(s1, h, user, target);
            var s3 := if Runs(s2, h) then Next(s2, InsertDirect(h, id)) else s2;
            exists reply :: CreateDirect(s.tables, user, target, known, {}, id, reply, s3.tables)
  {
    if c :| DirectMatch(s.tables, c, user, target) {
      assert CreateDirect(s.tables, user, target, known, {}, id, Ok(c), s.tables);
    } else {
      assert CreateDirect(s.tables, user, target, known, {}, id, Ok(id),
                          WithChat(s.tables, id, Chat("", false), {user, target}));
    }
  }

  /** Both reads and the insert, run back to back, do what AddChatMember does. */
  lemma AddInOneGo(s: State, h: HandlerId, caller: UserId, c: ChatId, raw: string, known: set<UserId>)
    requires !Runs(s, h) && TrimSpace(raw) != "" && TrimSpace(raw) in known
    ensures var s1 := Now(s, h, AddStarted(caller, c, TrimSpace(raw)));
            var s2 := Next(s1, Step.ReadMembers(h));
            var s3 := if Runs(s2, h) then Next(s2, Step.ReadChat(h)) else s2;
            var s4 := if Runs(s3, h) then Next(s3, InsertMember(h)) else s3;
            exists reply :: AddMember(s.tables, caller, c, raw, known, {}, reply, s4.tables)
  {
    var t, target := s.tables, TrimSpace(raw);
    var reply :=
      if caller !in MembersOf(t, c) then PermissionDenied
      else if target in MembersOf(t, c) then AlreadyExists
      else if c !in t.chats then Internal
      else if !t.chats[c].isGroup then InvalidArgument
      else Ok(c);
    assert AddMember(t, caller, c, raw, known, {}, reply, if reply.Ok? then WithMember(t, c, target) else t);
  }

  /** The read and the delete, run back to back, do what LeaveChat does. */
  lemma LeaveInOneGo(s: State, h: HandlerId, caller: UserId, c: ChatId)
    requires !Runs(s, h)
    ensures var s1 := Now(s, h, LeaveStarted(caller, c));
            var s2 := Next(s1, Step.ReadChat(h));
            var s3 := if Runs(s2, h) then Next(s2, DeleteMember(h)) else s2;
            exists reply :: Leave(s.tables, caller, c, {}, reply, s3.tables)
  {
    var t := s.tables;
    var reply := if c !in t.chats then Internal else if !t.chats[c].isGroup then InvalidArgument else Ok(c);
    assert Leave(t, caller, c, {}, reply, if reply.Ok? then WithoutMember(t, c, caller) else t);
  }

  /** The insert does what CreateGroupChat does once its checks have passed. */
  lemma GroupInOneGo(s: State, h: HandlerId, creator: UserId, name: string, raw: seq<string>, known: set<UserId>, id: ChatId)
    requires !Runs(s, h) && id !in s.tables.chats && 1 <= ByteLength(TrimSpace(name)) <= 100
    requires forall u | u in Cleaned(creator, raw) :: u in known
    ensures var users := set u | u in Cleaned(creator, raw);
            var s1 := Now(s, h, GroupReady(TrimSpace(name), users));
            CreateGroup(s.tables, creator, name, raw, known, {}, id, Ok(id), Next(s1, InsertGroup(h, id)).tables)
  {
    assert (set u | u in Cleaned(creator, raw)) <= known;
  }
}
