/** What the delivery protocol guarantees over every run. */
module DeliveryTheorems {
  import opened Collections
  import opened MessageStore
  import opened StoreInvariants
  import opened Broker
  import opened Service
  import opened Delivery
  import opened DeliverySafety

  lemma StepKeeps(s: State, step: Step)
    requires Inv(s) && Enabled(s, step)
    ensures Inv(Next(s, step))
  {
    match step
    case Prepare(x, members) => PrepareKeeps(s, x, members);
    case Abandon(m) => AbandonKeeps(s, m);
    case Commit(m) => CommitKeeps(s, m);
    case Collect(m) => CollectKeeps(s, m);
    case Offer(m, box') => OfferKeeps(s, m, box');
    case Register(sid, device) => RegisterKeeps(s, sid, device);
    case Snapshot(sid, batch) => SnapshotKeeps(s, sid, batch);
    case Flush(sid) => FlushKeeps(s, sid);
    case Forward(sid) => ForwardKeeps(s, sid);
    case End(sid) => EndKeeps(s, sid);
    case Keep(sid) => KeepKeeps(s, sid);
    case IssueAck(sid) => IssueAckKeeps(s, sid);
    case StopReading(sid) => StopReadingKeeps(s, sid);
    case Ack(key, at) => AckStepKeeps(s, key, at);
    case Read(ids, u, at) => ReadStepKeeps(s, ids, u, at);
    case Restart => RestartKeeps(s);
  }

  /** Any interleaving of any number of senders, sessions and clients. */
  ghost predicate IsRun(states: seq<State>, steps: seq<Step>) {
    && |states| == |steps| + 1
    && states[0] == INIT
    && (forall i | 0 <= i < |steps| :: Enabled(states[i], steps[i]) && states[i + 1] == Next(states[i], steps[i]))
  }

  lemma InitInv()
    ensures Inv(INIT)
  {}

  lemma {:induction false} InvAlong(states: seq<State>, i: nat)
    requires i < |states| && Inv(states[0])
    requires forall k | 0 <= k < |states| - 1 :: Inv(states[k]) ==> Inv(states[k + 1])
    ensures Inv(states[i])
  {
    if i > 0 {
      InvAlong(states, i - 1);
    }
  }

  lemma RunKeeps(states: seq<State>, steps: seq<Step>, i: nat)
    requires IsRun(states, steps) && i < |states|
    ensures Inv(states[i])
  {
    InitInv();
    forall k | 0 <= k < |steps| && Inv(states[k]) ensures Inv(states[k + 1]) {
      StepKeeps(states[k], steps[k]);
    }
    InvAlong(states, i);
  }

  // ---------------------------------------------------------------------
  // No message is lost
  // ---------------------------------------------------------------------

  /** For every recipient of every message ever committed: either the server
      still stores the message and waits for the recipient, or one of the
      recipient's devices has stored exactly that message. */
  ghost predicate NoLoss(s: State) {
    forall k | k in s.store.acks ::
      && k.msg in s.sent
      && if s.store.acks[k].deliveredAt.None?
         then k.msg in s.store.messages && s.store.messages[k.msg] == s.sent[k.msg]
         else exists d: Device :: d.user == k.user && Holds(s.local, s.sent, d, k.msg)
  }

  lemma NoMessageLoss(states: seq<State>, steps: seq<Step>, i: nat)
    requires IsRun(states, steps) && i < |states|
    ensures NoLoss(states[i])
    ensures StoredIffPending(states[i].store)
    ensures forall k | k in states[i].store.acks :: k.user != states[i].sent[k.msg].sender
  {
    RunKeeps(states, steps, i);
    var s := states[i];
    forall k | k in s.store.acks && s.store.acks[k].deliveredAt.None? ensures k.msg in s.store.messages {
      assert k == AckKey(k.msg, k.user) && IsPending(s.store, k.msg, k.user);
    }
    forall k | k in s.store.acks && s.store.acks[k].deliveredAt.Some?
      ensures exists d: Device :: d.user == k.user && Holds(s.local, s.sent, d, k.msg) {
      assert k in s.issued && s.issued[k].user == k.user;
    }
  }

  /** What can only grow: committed messages, ack rows with their times, local copies. */
  ghost predicate Grows(s: State, s': State) {
    && TimesKept(s.store, s'.store)
    && (forall m | m in s.sent :: m in s'.sent && s'.sent[m] == s.sent[m])
    && (forall d, m | Holds(s.local, s.sent, d, m) :: Holds(s'.local, s'.sent, d, m))
    && (forall sid | sid in s.sessions :: sid in s'.sessions && (s.sessions[sid].box.done ==> s'.sessions[sid].box.done))
  }

  lemma CommitGrows(s: State, m: MsgId)
    requires Inv(s) && CanCommit(s, m)
    ensures Grows(s, DoCommit(s, m))
  {
    var p := s.sends[m];
    assert SendOk(m, p, s.store, s.sent);
    InsertKeepsIff(s.store, p.message, p.rows);
  }

  lemma KeepGrows(s: State, sid: SessionId)
    requires Inv(s) && CanKeep(s, sid)
    ensures Grows(s, DoKeep(s, sid))
  {
    WireIsGenuine(s, sid);
    KeptHolds(s, s.sessions[sid].device, s.sessions[sid].wire[0]);
  }

  lemma StepGrows(s: State, step: Step)
    requires Inv(s) && Enabled(s, step)
    ensures Grows(s, Next(s, step))
  {
    match step
    case Commit(m) => CommitGrows(s, m);
    case Keep(sid) => KeepGrows(s, sid);
    case Ack(key, at) => AckKeeps(s.store, key.msg, key.user, at);
    case Read(ids, u, at) => ReadKeeps(s.store, ids, u, at);
    case _ => OtherStepGrows(s, step);
  }

  lemma OtherStepGrows(s: State, step: Step)
    requires Enabled(s, step) && !step.Commit? && !step.Keep? && !step.Ack? && !step.Read?
    ensures Grows(s, Next(s, step))
  {}

  /** Delivery and read times never change once set, a stored copy stays, and a
      closed session stays closed. */
  lemma RunGrows(states: seq<State>, steps: seq<Step>, i: nat, j: nat)
    requires IsRun(states, steps) && i <= j < |states|
    ensures Grows(states[i], states[j])
  {
    forall k | 0 <= k < |steps| ensures Grows(states[k], states[k + 1]) {
      RunKeeps(states, steps, k);
      StepGrows(states[k], steps[k]);
    }
    GrowsAlong(states, i, j);
  }

  lemma {:induction false} GrowsAlong(states: seq<State>, i: nat, j: nat)
    requires i <= j < |states| && forall k | 0 <= k < |states| - 1 :: Grows(states[k], states[k + 1])
    ensures Grows(states[i], states[j])
    decreases j
  {
    if i < j {
      GrowsAlong(states, i, j - 1);
      GrowsOn(states[i], states[j - 1], states[j]);
    }
  }

  lemma GrowsOn(a: State, b: State, c: State)
    requires Grows(a, b) && Grows(b, c)
    ensures Grows(a, c)
  {}

  // ---------------------------------------------------------------------
  // No gap between the snapshot and the live stream
  // ---------------------------------------------------------------------

  /** Registering before reading the snapshot leaves no gap: whatever is still
      pending for the user of a fed session is in its snapshot, was enqueued to
      it, or belongs to a publish that will still reach it. */
  lemma NoGapAtSubscription(states: seq<State>, steps: seq<Step>, i: nat, sid: SessionId, m: MsgId)
    requires IsRun(states, steps) && i < |states|
    requires sid in states[i].sessions && Fed(states[i].sessions[sid])
    requires IsPending(states[i].store, m, states[i].sessions[sid].device.user)
    ensures m in Ids(states[i].sessions[sid].snapshot)
         || m in Ids(states[i].sessions[sid].enqueued)
         || OnItsWay(states[i].sends, m, sid)
  {
    RunKeeps(states, steps, i);
    assert Reaches(states[i].sessions[sid], states[i].sends, m, sid);
  }

  /** Nothing is under way towards the session: no publish, no unflushed or
      queued message, nothing on the wire, and no stored message still to be acked. */
  ghost predicate Quiet(s: State, sid: SessionId) {
    && sid in s.sessions
    && s.sessions[sid].rest == s.sessions[sid].box.queue == s.sessions[sid].wire == []
    && s.sessions[sid].unacked.None?
    && (forall m :: !OnItsWay(s.sends, m, sid))
  }

  /** A fed and quiet session has brought its device everything: whatever is
      still pending for the user is stored on the device and its ack is issued. */
  lemma QuietMeansCaughtUp(states: seq<State>, steps: seq<Step>, i: nat, sid: SessionId)
    requires IsRun(states, steps) && i < |states| && Quiet(states[i], sid) && Fed(states[i].sessions[sid])
    ensures var s, d := states[i], states[i].sessions[sid].device;
            forall m | IsPending(s.store, m, d.user) :: Holds(s.local, s.sent, d, m) && AckKey(m, d.user) in s.issued
  {
    var s, c := states[i], states[i].sessions[sid];
    RunKeeps(states, steps, i);
    assert StreamOk(c);
    assert c.taken == c.snapshot + c.enqueued by {
      assert c.taken + c.wire == c.taken;
      assert c.forwarded + c.rest + c.box.queue == c.forwarded;
    }
    forall m | IsPending(s.store, m, c.device.user)
      ensures Holds(s.local, s.sent, c.device, m) && AckKey(m, c.device.user) in s.issued {
      assert Reaches(c, s.sends, m, sid);
      var x :| (x in c.snapshot || x in c.enqueued) && x.id == m;
      assert x in c.taken;
    }
  }

  /** Once the issued acks have arrived as well, nothing is pending for the user. */
  lemma AcksArrivedMeansDrained(states: seq<State>, steps: seq<Step>, i: nat, sid: SessionId)
    requires IsRun(states, steps) && i < |states| && Quiet(states[i], sid) && Fed(states[i].sessions[sid])
    requires forall k | k in states[i].issued && k in states[i].store.acks :: states[i].store.acks[k].deliveredAt.Some?
    ensures Undelivered(states[i].store, states[i].sessions[sid].device.user) == {}
  {
    QuietMeansCaughtUp(states, steps, i, sid);
  }

  // ---------------------------------------------------------------------
  // The broker
  // ---------------------------------------------------------------------

  /** No send aimed at an open session is dropped, queues are bounded, and what
      a client has stored is a prefix of snapshot and sends, in that order. */
  lemma BrokerNeverDropsSilently(states: seq<State>, steps: seq<Step>, i: nat, sid: SessionId)
    requires IsRun(states, steps) && i < |states| && sid in states[i].sessions
    ensures var c := states[i].sessions[sid];
            && |c.box.queue| <= 30
            && (!c.box.done ==> c.enqueued == To(states[i].log, sid))
            && c.taken <= c.snapshot + c.enqueued
  {
    RunKeeps(states, steps, i);
    var c := states[i].sessions[sid];
    assert StreamOk(c);
    assert c.snapshot + c.enqueued == c.taken + (c.wire + c.rest + c.box.queue) by {
      assert c.snapshot + c.enqueued == (c.taken + c.wire) + c.rest + c.box.queue;
    }
  }

  /** A session is closed only by a send that found its queue full. */
  lemma ClosedOnlyWhenFull(s: State, step: Step, sid: SessionId)
    requires Inv(s) && Enabled(s, step)
    requires sid in s.sessions && !s.sessions[sid].box.done
    requires sid in Next(s, step).sessions && Next(s, step).sessions[sid].box.done
    ensures step.Offer? && s.sends[step.m].targets[0] == sid && |s.sessions[sid].box.queue| == 30
    ensures Next(s, step).sessions[sid].box.queue == s.sessions[sid].box.queue
  {
    assert StreamOk(s.sessions[sid]);
    OnlyOffersClose(s, step, sid);
  }

  lemma OnlyOffersClose(s: State, step: Step, sid: SessionId)
    requires Enabled(s, step) && sid in s.sessions && !s.sessions[sid].box.done
    ensures sid in Next(s, step).sessions
    ensures Next(s, step).sessions[sid].box.done ==>
      && step.Offer? && s.sends[step.m].targets[0] == sid && |s.sessions[sid].box.queue| >= 30
      && Next(s, step).sessions[sid].box.queue == s.sessions[sid].box.queue
  {}
}
