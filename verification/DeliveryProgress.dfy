/** Delivery never gets stuck: from every reachable state a user's whole backlog
    of n messages can still be delivered, by ceil(n / 100) more subscriptions; and
    one subscription is not enough beyond 100. */
module DeliveryProgress {
  import opened Collections
  import opened MessageStore
  import opened StoreInvariants
  import opened Backlog
  import Broker
  import Service
  import opened Delivery
  import opened DeliverySafety
  import opened DeliveryTheorems

  /** Steps that lead from one state to another. */
  ghost predicate IsPath(states: seq<State>, steps: seq<Step>) {
    && |states| == |steps| + 1
    && (forall i | 0 <= i < |steps| :: Enabled(states[i], steps[i]) && states[i + 1] == Next(states[i], steps[i]))
  }

  /** How often a session is registered. */
  function Registrations(steps: seq<Step>): nat {
    if steps == [] then 0
    else Registrations(steps[..|steps| - 1]) + if steps[|steps| - 1].Register? then 1 else 0
  }

  /** `s'` can be reached from `s` with `k` new subscriptions. */
  ghost predicate CanReach(s: State, s': State, k: nat) {
    exists states: seq<State>, steps: seq<Step> ::
      IsPath(states, steps) && states[0] == s && states[|steps|] == s' && Registrations(steps) == k
  }

  lemma ReachSelf(s: State)
    ensures CanReach(s, s, 0)
  {
    var states: seq<State>, steps: seq<Step> := [s], [];
    assert IsPath(states, steps) && states[0] == s && states[|steps|] == s && Registrations(steps) == 0;
  }

  lemma ReachNext(s: State, s1: State, k: nat, step: Step)
    requires CanReach(s, s1, k) && Enabled(s1, step)
    ensures CanReach(s, Next(s1, step), k + if step.Register? then 1 else 0)
  {
    var states: seq<State>, steps: seq<Step> :|
      IsPath(states, steps) && states[0] == s && states[|steps|] == s1 && Registrations(steps) == k;
    var states', steps' := states + [Next(s1, step)], steps + [step];
    forall i | 0 <= i < |steps'| ensures Enabled(states'[i], steps'[i]) && states'[i + 1] == Next(states'[i], steps'[i]) {
      if i < |steps| {
        assert Enabled(states[i], steps[i]) && states[i + 1] == Next(states[i], steps[i]);
      }
    }
    assert steps'[..|steps|] == steps;
    assert IsPath(states', steps') && states'[0] == s && states'[|steps'|] == Next(s1, step);
  }

  /** A state that can be reached, and in which the invariant holds. */
  ghost predicate Ahead(s: State, s1: State, k: nat) {
    CanReach(s, s1, k) && Inv(s1)
  }

  lemma GoOn(s: State, s1: State, k: nat, step: Step)
    requires Ahead(s, s1, k) && Enabled(s1, step)
    ensures Ahead(s, Next(s1, step), k + if step.Register? then 1 else 0)
  {
    ReachNext(s, s1, k, step);
    StepKeeps(s1, step);
  }

  // ---------------------------------------------------------------------
  // What a new subscription needs
  // ---------------------------------------------------------------------

  lemma {:induction false} FreshId(used: set<int>) returns (x: int)
    ensures forall y | y in used :: y < x
    decreases |used|
  {
    if |used| == 0 {
      x := 0;
    } else {
      var y := Element(used);
      var z := FreshId(used - {y});
      x := if y < z then z else y + 1;
      forall w | w in used ensures w < x {
        assert w == y || w in used - {y};
      }
    }
  }

  /** The undelivered query always has an answer. */
  lemma {:induction false} BatchExists(t: Tables, u: UserId, r: seq<Message>, rest: set<MsgId>) returns (r': seq<Message>)
    requires Taken(t, u, r, rest) && |r| <= BATCH
    requires forall m | m in t.messages :: t.messages[m].id == m
    ensures IsBatch(t, u, r')
    decreases |rest|
  {
    if |rest| == 0 || |r| >= BATCH {
      TakenIsBatch(t, u, r, rest);
      return r;
    }
    OldestExists(t.messages, rest);
    var m :| m in rest && forall n | n in rest :: t.messages[m].sentAt <= t.messages[n].sentAt;
    TakeOldest(t, u, r, rest, m);
    r' := BatchExists(t, u, r + [t.messages[m]], rest - {m});
  }

  lemma NothingTaken(t: Tables, u: UserId)
    ensures Taken(t, u, [], Undelivered(t, u))
  {
    assert Ids([]) == {};
  }

  lemma AckTakesOne(t: Tables, m: MsgId, u: UserId, at: Time)
    requires StoredIffPending(t) && m in Undelivered(t, u)
    ensures Undelivered(Acknowledged(t, m, u, at), u) == Undelivered(t, u) - {m}
    ensures TimesKept(t, Acknowledged(t, m, u, at))
  {
    var t' := Acknowledged(t, m, u, at);
    AckKeeps(t, m, u, at);
    PendingAfterAck(t, m, u, at);
    forall n ensures n in Undelivered(t', u) <==> n in Undelivered(t, u) - {m} {
      assert IsPending(t', n, u) ==> n in t'.messages;
      assert IsPending(t, n, u) ==> n in t.messages;
    }
  }

  // ---------------------------------------------------------------------
  // One round
  // ---------------------------------------------------------------------

  /** A session that hands out its snapshot to a client that keeps up. */
  ghost predicate Delivering(s: State, sid: Broker.SessionId, u: UserId) {
    && sid in s.sessions && s.sessions[sid].phase.Live? && s.sessions[sid].device.user == u
    && s.sessions[sid].reading && s.sessions[sid].wire == [] && s.sessions[sid].unacked.None?
    && Outstanding(s.store, s.sessions[sid].rest, u)
  }

  ghost predicate Outstanding(t: Tables, rest: seq<Message>, u: UserId) {
    && (forall i | 0 <= i < |rest| :: rest[i].id in Undelivered(t, u))
    && (forall i, j | 0 <= i < j < |rest| :: rest[i].id != rest[j].id)
  }

  /** Registering a session and reading its snapshot. */
  lemma SnapshotOpens(s: State, sid: Broker.SessionId, u: UserId, batch: seq<Message>)
    requires sid !in s.sessions && IsBatch(s.store, u, batch)
    ensures var s1 := DoRegister(s, sid, Device(0, u));
            && CanSnapshot(s1, sid, batch)
            && var s2 := DoSnapshot(s1, sid, batch);
               && s2.store == s.store && s2.sent == s.sent && s2.sends == s.sends && s2.issued == s.issued
               && Delivering(s2, sid, u)
               && s2.sessions[sid].rest == s2.sessions[sid].snapshot == batch
               && s2.sessions[sid].box == Broker.Mailbox([], false) && s2.sessions[sid].enqueued == []
               && s2.sessions[sid].complete == (|Undelivered(s.store, u)| <= 100)
  {}

  /** A new session of the user with the snapshot read. */
  lemma Resubscribed(s0: State, s: State, k: nat, u: UserId) returns (s': State, sid: Broker.SessionId)
    requires Ahead(s0, s, k)
    ensures Ahead(s0, s', k + 1) && s'.store == s.store && s'.sent == s.sent
    ensures s'.sends == s.sends && s'.issued == s.issued && Delivering(s', sid, u)
    ensures IsBatch(s.store, u, s'.sessions[sid].rest) && s'.sessions[sid].rest == s'.sessions[sid].snapshot
    ensures s'.sessions[sid].box == Broker.Mailbox([], false) && s'.sessions[sid].enqueued == []
    ensures s'.sessions[sid].complete == (|Undelivered(s.store, u)| <= 100)
  {
    sid := FreshId(s.sessions.Keys);
    NothingTaken(s.store, u);
    var batch := BatchExists(s.store, u, [], Undelivered(s.store, u));
    SnapshotOpens(s, sid, u, batch);
    GoOn(s0, s, k, Register(sid, Device(0, u)));
    var s1 := DoRegister(s, sid, Device(0, u));
    GoOn(s0, s1, k + 1, Snapshot(sid, batch));
    s' := DoSnapshot(s1, sid, batch);
  }

  /** Flush, keep and issue the ack, for the first message. */
  lemma FirstSteps(s: State, sid: Broker.SessionId, u: UserId)
    requires Delivering(s, sid, u) && s.sessions[sid].rest != []
    ensures CanFlush(s, sid) && CanKeep(DoFlush(s, sid), sid) && CanIssueAck(DoKeep(DoFlush(s, sid), sid), sid)
    ensures var s' := DoIssueAck(DoKeep(DoFlush(s, sid), sid), sid);
            && s'.store == s.store && AckKey(s.sessions[sid].rest[0].id, u) in s'.issued
            && sid in s'.sessions && s'.sessions[sid].rest == s.sessions[sid].rest[1..]
            && s'.sessions[sid].phase.Live? && s'.sessions[sid].device.user == u && s'.sessions[sid].reading
            && s'.sessions[sid].wire == [] && s'.sessions[sid].unacked.None?
  {}

  /** The first message goes out, is stored, and its ack is issued. */
  lemma FirstStored(s0: State, s: State, k: nat, sid: Broker.SessionId, u: UserId) returns (s': State)
    requires Ahead(s0, s, k) && Delivering(s, sid, u) && s.sessions[sid].rest != []
    ensures Ahead(s0, s', k) && s'.store == s.store && AckKey(s.sessions[sid].rest[0].id, u) in s'.issued
    ensures sid in s'.sessions && s'.sessions[sid].rest == s.sessions[sid].rest[1..]
    ensures s'.sessions[sid].phase.Live? && s'.sessions[sid].device.user == u && s'.sessions[sid].reading
    ensures s'.sessions[sid].wire == [] && s'.sessions[sid].unacked.None?
  {
    FirstSteps(s, sid, u);
    GoOn(s0, s, k, Flush(sid));
    var s1 := DoFlush(s, sid);
    GoOn(s0, s1, k, Keep(sid));
    var s2 := DoKeep(s1, sid);
    GoOn(s0, s2, k, IssueAck(sid));
    s' := DoIssueAck(s2, sid);
  }

  /** And the ack arrives. */
  lemma FirstDelivered(s0: State, s: State, k: nat, sid: Broker.SessionId, u: UserId) returns (s': State)
    requires Ahead(s0, s, k) && Delivering(s, sid, u) && s.sessions[sid].rest != []
    ensures Ahead(s0, s', k) && Delivering(s', sid, u) && s'.sessions[sid].rest == s.sessions[sid].rest[1..]
    ensures TimesKept(s.store, s'.store)
    ensures Undelivered(s'.store, u) == Undelivered(s.store, u) - {s.sessions[sid].rest[0].id}
  {
    var m := s.sessions[sid].rest[0].id;
    var s1 := FirstStored(s0, s, k, sid, u);
    GoOn(s0, s1, k, Step.Ack(AckKey(m, u), 0));
    s' := DoAck(s1, AckKey(m, u), 0);
    AckTakesOne(s.store, m, u, 0);
    RestOutstanding(s.store, s'.store, s.sessions[sid].rest, u);
  }

  lemma RestOutstanding(t: Tables, t': Tables, rest: seq<Message>, u: UserId)
    requires Outstanding(t, rest, u) && rest != [] && Undelivered(t', u) == Undelivered(t, u) - {rest[0].id}
    ensures Outstanding(t', rest[1..], u)
  {}

  lemma IdsHead(r: seq<Message>)
    requires r != []
    ensures Ids(r) == {r[0].id} + Ids(r[1..])
  {
    assert r[0].id in Ids(r);
    forall i | 0 <= i < |r[1..]| ensures r[1..][i].id in Ids(r) {
      assert r[i + 1] == r[1..][i];
    }
    forall i | 0 < i < |r| ensures r[i].id in Ids(r[1..]) {
      assert r[1..][i - 1] == r[i];
    }
  }

  lemma {:induction false} RestDelivered(s0: State, s: State, k: nat, sid: Broker.SessionId, u: UserId) returns (s': State)
    requires Ahead(s0, s, k) && Delivering(s, sid, u)
    ensures Ahead(s0, s', k) && TimesKept(s.store, s'.store)
    ensures Undelivered(s'.store, u) == Undelivered(s.store, u) - Ids(s.sessions[sid].rest)
    decreases |s.sessions[sid].rest|
  {
    var rest := s.sessions[sid].rest;
    if rest == [] {
      assert Ids(rest) == {};
      s' := s;
    } else {
      var s1 := FirstDelivered(s0, s, k, sid, u);
      s' := RestDelivered(s0, s1, k, sid, u);
      IdsHead(rest);
    }
  }

  /** One more subscription brings the oldest min(100, n) messages to the client
      and their acks to the server. */
  lemma RoundDelivered(s0: State, s: State, k: nat, u: UserId) returns (s': State)
    requires Ahead(s0, s, k)
    ensures Ahead(s0, s', k + 1) && TimesKept(s.store, s'.store)
    ensures |Undelivered(s'.store, u)| == |Undelivered(s.store, u)| - Min(100, |Undelivered(s.store, u)|)
  {
    var s1, sid := Resubscribed(s0, s, k, u);
    var batch := s1.sessions[sid].rest;
    s' := RestDelivered(s0, s1, k + 1, sid, u);
    IdsCount(batch);
    BatchCount(s.store, u, batch);
  }

  lemma BatchCount(t: Tables, u: UserId, batch: seq<Message>)
    requires IsBatch(t, u, batch) && |Ids(batch)| == |batch|
    ensures |Undelivered(t, u) - Ids(batch)| == |Undelivered(t, u)| - Min(100, |Undelivered(t, u)|)
  {
    assert Ids(batch) <= Undelivered(t, u);
  }

  // ---------------------------------------------------------------------
  // The whole backlog
  // ---------------------------------------------------------------------

  function Needed(n: nat): nat {
    (n + 99) / 100
  }

  lemma NeededStep(n: nat)
    requires n > 0
    ensures Needed(n) == 1 + Needed(n - Min(100, n))
  {}

  lemma {:induction false} AllDelivered(s0: State, s: State, k: nat, u: UserId) returns (s': State)
    requires Ahead(s0, s, k)
    ensures Ahead(s0, s', k + Needed(|Undelivered(s.store, u)|))
    ensures TimesKept(s.store, s'.store) && Undelivered(s'.store, u) == {}
    decreases |Undelivered(s.store, u)|
  {
    if |Undelivered(s.store, u)| == 0 {
      s' := s;
    } else {
      NeededStep(|Undelivered(s.store, u)|);
      var s1 := RoundDelivered(s0, s, k, u);
      s' := AllDelivered(s0, s1, k + 1, u);
      TimesKeptOn(s.store, s1.store, s'.store);
    }
  }

  lemma TimesKeptOn(a: Tables, b: Tables, c: Tables)
    requires TimesKept(a, b) && TimesKept(b, c)
    ensures TimesKept(a, c)
  {}

  /** From every state of every run in which n messages are pending for the user
      there is a continuation with ceil(n / 100) new subscriptions after which
      nothing is pending for the user, and everything that was is stored,
      unchanged, on one of the user's devices. */
  lemma BacklogCanAlwaysBeDelivered(states: seq<State>, steps: seq<Step>, i: nat, u: UserId)
    requires IsRun(states, steps) && i < |states|
    ensures exists s' ::
      && CanReach(states[i], s', Needed(|Undelivered(states[i].store, u)|))
      && Undelivered(s'.store, u) == {}
      && forall m | IsPending(states[i].store, m, u) :: exists d: Device :: d.user == u && Holds(s'.local, s'.sent, d, m)
  {
    RunKeeps(states, steps, i);
    var s := states[i];
    ReachSelf(s);
    var s' := AllDelivered(s, s, 0, u);
    forall m | IsPending(s.store, m, u) ensures exists d: Device :: d.user == u && Holds(s'.local, s'.sent, d, m) {
      DeliveredIsHeld(s.store, s', m, u);
    }
  }

  lemma DeliveredIsHeld(t: Tables, s': State, m: MsgId, u: UserId)
    requires IsPending(t, m, u) && TimesKept(t, s'.store) && Inv(s') && Undelivered(s'.store, u) == {}
    ensures exists d: Device :: d.user == u && Holds(s'.local, s'.sent, d, m)
  {
    var k := AckKey(m, u);
    assert k in s'.store.acks;
    assert !IsPending(s'.store, m, u) by {
      assert m !in Undelivered(s'.store, u);
    }
    assert k in s'.issued && s'.issued[k].user == u && Holds(s'.local, s'.sent, s'.issued[k], m);
  }

  // ---------------------------------------------------------------------
  // One subscription is not enough beyond the limit
  // ---------------------------------------------------------------------

  /** `n` messages were sent to user 1 while nobody was subscribed. */
  ghost predicate Sent(s: State, n: nat) {
    && (forall m :: m in s.sent || m in s.sends <==> 0 <= m < n)
    && (forall m | m in s.sends :: s.sends[m].Sending? && s.sends[m].targets == [])
    && s.reg == map[] && s.issued == map[] && |Undelivered(s.store, 1)| == n
  }

  function Note(n: nat): Message {
    Message(n, 0, 0, [], 0)
  }

  lemma NoteRows(n: nat)
    ensures Service.Rows(Note(n), [0, 1]) == [Service.RowFor(Note(n), 1)]
  {
    assert [0, 1][..1] == [0] && [0][..0] == [];
    assert Service.Rows(Note(n), [0]) == [];
  }

  lemma NoteIsPending(t: Tables, n: nat)
    requires Insertable(t, Note(n), [Service.RowFor(Note(n), 1)]) && StoredIffPending(t)
    ensures Undelivered(Inserted(t, Note(n), [Service.RowFor(Note(n), 1)]), 1) == Undelivered(t, 1) + {n}
  {
    var rows := [Service.RowFor(Note(n), 1)];
    assert rows[..0] == [];
    assert AddRows(t.acks, rows) == t.acks[AckKey(n, 1) := rows[0].row];
  }

  lemma NoteIsNew(s: State, n: nat)
    requires StoreInv(s.store, s.sent) && n !in s.sent
    ensures Insertable(s.store, Note(n), [Service.RowFor(Note(n), 1)]) && n !in Undelivered(s.store, 1)
  {}

  /** Prepare, commit and collect, with nobody registered. */
  lemma NoteSteps(s: State, n: nat)
    requires Sent(s, n) && Insertable(s.store, Note(n), [Service.RowFor(Note(n), 1)])
    requires StoredIffPending(s.store) && n !in Undelivered(s.store, 1)
    ensures CanPrepare(s, Note(n), [0, 1])
    ensures var s1 := DoPrepare(s, Note(n), [0, 1]);
            && CanCommit(s1, n)
            && var s2 := DoCommit(s1, n);
               CanCollect(s2, n) && Sent(DoCollect(s2, n), n + 1)
  {
    NoteRows(n);
    NoteIsPending(s.store, n);
    var rows := [Service.RowFor(Note(n), 1)];
    assert rows[..0] == [];
    assert Broker.Targets(map[], rows) == [];
  }

  lemma OneMoreSent(s: State, n: nat) returns (s': State)
    requires Ahead(INIT, s, 0) && Sent(s, n)
    ensures Ahead(INIT, s', 0) && Sent(s', n + 1)
  {
    NoteIsNew(s, n);
    NoteSteps(s, n);
    GoOn(INIT, s, 0, Prepare(Note(n), [0, 1]));
    var s1 := DoPrepare(s, Note(n), [0, 1]);
    GoOn(INIT, s1, 0, Commit(n));
    var s2 := DoCommit(s1, n);
    GoOn(INIT, s2, 0, Collect(n));
    s' := DoCollect(s2, n);
  }

  lemma {:induction false} AllSent(n: nat) returns (s: State)
    ensures Ahead(INIT, s, 0) && Sent(s, n)
  {
    if n == 0 {
      s := INIT;
      ReachSelf(INIT);
      assert Undelivered(s.store, 1) == {};
    } else {
      var s1 := AllSent(n - 1);
      s := OneMoreSent(s1, n - 1);
    }
  }

  /** With 101 messages pending there is a run in which a subscriber has read its
      snapshot, is still open, and misses one: it is pending, not in the
      snapshot, not queued, and no publish will bring it. */
  lemma SnapshotMissesOne()
    ensures exists s, sid, m ::
      && CanReach(INIT, s, 1)
      && sid in s.sessions && s.sessions[sid].phase.Live? && !s.sessions[sid].box.done
      && IsPending(s.store, m, s.sessions[sid].device.user)
      && |Undelivered(s.store, s.sessions[sid].device.user)| == 101
      && !Reaches(s.sessions[sid], s.sends, m, sid)
  {
    var s := AllSent(101);
    var s', sid := Resubscribed(INIT, s, 0, 1);
    var c := s'.sessions[sid];
    assert Ids(c.enqueued) == {};
    BatchIsCompleteIff(s'.store, 1, c.snapshot);
    var m :| IsPending(s'.store, m, 1) && m !in Ids(c.snapshot);
    assert !Reaches(c, s'.sends, m, sid);
  }

  /** Nothing is under way to the session, and its client has neither acked nor
      will ever ack the pending message it took last, if it quits now. */
  ghost predicate Silent(s: State, sid: Broker.SessionId, m: MsgId) {
    && sid in s.sessions && Fed(s.sessions[sid])
    && s.sessions[sid].rest == s.sessions[sid].box.queue == s.sessions[sid].wire == []
    && (forall n :: !OnItsWay(s.sends, n, sid))
    && IsPending(s.store, m, s.sessions[sid].device.user)
    && AckKey(m, s.sessions[sid].device.user) !in s.issued
    && s.sessions[sid].unacked.Some? && s.sessions[sid].unacked.value.id == m
  }

  lemma KeptInSilence(s: State, sid: Broker.SessionId)
    requires Delivering(s, sid, 1) && Sent(s.(reg := map[]), 1) && Fed(s.sessions[sid])
    requires |s.sessions[sid].rest| == 1 && s.sessions[sid].box.queue == []
    ensures CanFlush(s, sid) && CanKeep(DoFlush(s, sid), sid)
    ensures Silent(DoKeep(DoFlush(s, sid), sid), sid, s.sessions[sid].rest[0].id)
  {
    var m := s.sessions[sid].rest[0].id;
    assert m in Undelivered(s.store, 1);
  }

  lemma UnackedIsHeld(s: State, sid: Broker.SessionId, m: MsgId)
    requires Inv(s) && Silent(s, sid, m)
    ensures Holds(s.local, s.sent, s.sessions[sid].device, m)
  {
    assert s.sessions[sid].unacked.value in s.sessions[sid].taken;
  }

  /** A client that quits between storing a message and starting its ack leaves
      such a session: the message is on the device, and no ack was ever issued. */
  lemma StoredButNotAcked()
    ensures exists s, sid, m ::
      CanReach(INIT, s, 1) && Silent(s, sid, m) && Holds(s.local, s.sent, s.sessions[sid].device, m)
  {
    var s0 := AllSent(1);
    var s1, sid := Resubscribed(INIT, s0, 0, 1);
    KeptInSilence(s1, sid);
    var m := s1.sessions[sid].rest[0].id;
    GoOn(INIT, s1, 1, Flush(sid));
    var s2 := DoFlush(s1, sid);
    GoOn(INIT, s2, 1, Keep(sid));
    UnackedIsHeld(DoKeep(s2, sid), sid, m);
  }
}
