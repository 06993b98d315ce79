/** Every step of the delivery protocol keeps the invariants. */
module DeliverySafety {
  import opened Collections
  import opened MessageStore
  import opened StoreInvariants
  import opened Backlog
  import opened Broker
  import opened Service
  import opened Delivery

  // ---------------------------------------------------------------------
  // Sending
  // ---------------------------------------------------------------------

  lemma PrepareKeeps(s: State, x: Message, members: seq<UserId>)
    requires Inv(s) && CanPrepare(s, x, members)
    ensures Inv(DoPrepare(s, x, members))
  {
    RowsCoverRecipients(x, members);
  }

  lemma AbandonKeeps(s: State, m: MsgId)
    requires Inv(s) && CanAbandon(s, m)
    ensures Inv(DoAbandon(s, m))
  {}

  lemma InsertedAcks(t: Tables, x: Message, rows: seq<NewAck>)
    requires Insertable(t, x, rows) && FreshRows(x, rows)
    ensures var acks := Inserted(t, x, rows).acks;
            && (forall k :: k in acks <==> k in t.acks || HasRow(rows, k))
            && (forall k | k in t.acks :: acks[k] == t.acks[k])
            && (forall k | HasRow(rows, k) :: k.msg == x.id && k.user != x.sender && acks[k].deliveredAt.None?)
  {
    AddRowsKeys(t.acks, rows);
  }

  lemma CommitKeepsStore(s: State, m: MsgId)
    requires Inv(s) && CanCommit(s, m)
    ensures var s' := DoCommit(s, m); StoreInv(s'.store, s'.sent) && DeliveredInv(s'.store, s'.issued)
  {
    var p := s.sends[m];
    assert SendOk(m, p, s.store, s.sent);
    InsertedAcks(s.store, p.message, p.rows);
    InsertKeepsIff(s.store, p.message, p.rows);
  }

  lemma CommitKeepsSends(s: State, m: MsgId)
    requires Inv(s) && CanCommit(s, m)
    ensures var s' := DoCommit(s, m);
            SendInv(s'.sends, s'.store, s'.sent) && TargetInv(s'.sends, s'.store, s'.sessions)
  {
    var s', p := DoCommit(s, m), s.sends[m];
    assert SendOk(m, p, s.store, s.sent);
    InsertedAcks(s.store, p.message, p.rows);
    forall n | n in s'.sends ensures SendOk(n, s'.sends[n], s'.store, s'.sent) {
      assert SendOk(n, s.sends[n], s.store, s.sent);
      if n == m {
        assert forall u :: AckKey(m, u) !in s.store.acks;
      } else {
        assert forall u :: AckKey(n, u) in s'.store.acks <==> AckKey(n, u) in s.store.acks;
      }
    }
    forall n, sid | n in s'.sends && s'.sends[n].Sending? && sid in s'.sends[n].targets
      ensures TargetOk(n, sid, s'.store, s'.sessions) {
      assert TargetOk(n, sid, s.store, s.sessions);
    }
  }

  lemma CommitKeepsRest(s: State, m: MsgId)
    requires Inv(s) && CanCommit(s, m)
    ensures var s' := DoCommit(s, m);
            && GenuineInv(s'.sessions, s'.store, s'.sent) && LocalInv(s'.local, s'.sent)
            && IssuedInv(s'.issued, s'.local, s'.sent) && TakenInv(s'.sessions, s'.local, s'.issued, s'.sent)
  {
    var s', p := DoCommit(s, m), s.sends[m];
    assert SendOk(m, p, s.store, s.sent);
    InsertedAcks(s.store, p.message, p.rows);
    forall sid, x | sid in s.sessions && (x in s.sessions[sid].snapshot || x in s.sessions[sid].enqueued)
      ensures Genuine(x, s.sessions[sid].device.user, s'.store, s'.sent) {
      assert Genuine(x, s.sessions[sid].device.user, s.store, s.sent);
    }
    forall d, n | Holds(s.local, s.sent, d, n) ensures Holds(s'.local, s'.sent, d, n) {}
  }

  lemma CommitKeepsNoGap(s: State, m: MsgId)
    requires Inv(s) && CanCommit(s, m)
    ensures var s' := DoCommit(s, m); NoGap(s'.sessions, s'.store, s'.sends)
  {
    var s', p := DoCommit(s, m), s.sends[m];
    assert SendOk(m, p, s.store, s.sent);
    InsertedAcks(s.store, p.message, p.rows);
    forall sid, n | sid in s.sessions && Fed(s.sessions[sid]) && IsPending(s'.store, n, s.sessions[sid].device.user)
      ensures Reaches(s.sessions[sid], s'.sends, n, sid) {
      if n != m {
        assert IsPending(s.store, n, s.sessions[sid].device.user);
        assert Reaches(s.sessions[sid], s.sends, n, sid);
      }
    }
  }

  lemma CommitKeeps(s: State, m: MsgId)
    requires Inv(s) && CanCommit(s, m)
    ensures Inv(DoCommit(s, m))
  {
    CommitKeepsStore(s, m);
    CommitKeepsSends(s, m);
    CommitKeepsRest(s, m);
    CommitKeepsNoGap(s, m);
  }

  /** The copied targets are exactly the sessions then registered for a
      recipient, each of them once. */
  lemma CollectsRecipients(s: State, m: MsgId)
    requires Inv(s) && CanCollect(s, m)
    ensures Distinct(Targets(s.reg, s.sends[m].rows))
    ensures forall sid :: sid in Targets(s.reg, s.sends[m].rows) <==>
              && sid in s.sessions && !s.sessions[sid].phase.Ended?
              && AckKey(m, s.sessions[sid].device.user) in s.store.acks
  {
    var rows := s.sends[m].rows;
    assert SendOk(m, s.sends[m], s.store, s.sent);
    assert forall i | 0 <= i < |rows| :: rows[i].key == AckKey(m, rows[i].key.user);
    TargetsExactlyOnce(s.reg, rows);
    forall sid | sid in Targets(s.reg, rows)
      ensures sid in s.sessions && !s.sessions[sid].phase.Ended? && AckKey(m, s.sessions[sid].device.user) in s.store.acks {
      var i :| 0 <= i < |rows| && Registers(s.reg, rows[i].key.user, sid);
      assert HasRow(rows, rows[i].key);
    }
    forall sid | sid in s.sessions && !s.sessions[sid].phase.Ended? && AckKey(m, s.sessions[sid].device.user) in s.store.acks
      ensures sid in Targets(s.reg, rows) {
      var u := s.sessions[sid].device.user;
      assert HasRow(rows, AckKey(m, u)) && Registers(s.reg, u, sid);
    }
  }

  lemma CollectKeeps(s: State, m: MsgId)
    requires Inv(s) && CanCollect(s, m)
    ensures Inv(DoCollect(s, m))
  {
    var s' := DoCollect(s, m);
    CollectsRecipients(s, m);
    forall n, sid | n in s'.sends && s'.sends[n].Sending? && sid in s'.sends[n].targets
      ensures TargetOk(n, sid, s'.store, s'.sessions) {
      assert n != m ==> TargetOk(n, sid, s.store, s.sessions);
    }
    forall sid, n | sid in s.sessions && Fed(s.sessions[sid]) && IsPending(s.store, n, s.sessions[sid].device.user)
      ensures Reaches(s.sessions[sid], s'.sends, n, sid) {
      assert Reaches(s.sessions[sid], s.sends, n, sid);
    }
  }

  // ---------------------------------------------------------------------
  // Offering to one session
  // ---------------------------------------------------------------------

  lemma OfferKeepsSends(s: State, m: MsgId, box': Mailbox)
    requires Inv(s) && CanOffer(s, m, box')
    ensures var s' := DoOffer(s, m, box');
            && SendInv(s'.sends, s'.store, s'.sent) && TargetInv(s'.sends, s'.store, s'.sessions)
            && RegInv(s'.reg, s'.sessions)
  {
    var s', p := DoOffer(s, m, box'), s.sends[m];
    assert SendOk(m, p, s.store, s.sent);
    forall n, sid | n in s'.sends && s'.sends[n].Sending? && sid in s'.sends[n].targets
      ensures TargetOk(n, sid, s'.store, s'.sessions) {
      assert sid in s.sends[n].targets;
      assert TargetOk(n, sid, s.store, s.sessions);
    }
  }

  lemma OfferedStream(c: Session, x: Message, box': Mailbox)
    requires StreamOk(c) && Offered(c.box, x, box')
    ensures StreamOk(AfterOffer(c, x, box'))
  {
    var c' := AfterOffer(c, x, box');
    if |box'.queue| > |c.box.queue| {
      assert c.forwarded + c.rest + box'.queue == (c.forwarded + c.rest + c.box.queue) + [x];
      assert c.snapshot + c'.enqueued == (c.snapshot + c.enqueued) + [x];
    } else {
      assert c'.enqueued == c.enqueued;
    }
  }

  lemma OfferKeepsGenuine(s: State, m: MsgId, box': Mailbox)
    requires GenuineInv(s.sessions, s.store, s.sent) && HasTarget(s, m)
    requires Genuine(s.sends[m].message, s.sessions[s.sends[m].targets[0]].device.user, s.store, s.sent)
    ensures GenuineInv(DoOffer(s, m, box').sessions, s.store, s.sent)
  {
    var s' := DoOffer(s, m, box');
    forall d, x | d in s'.sessions && (x in s'.sessions[d].snapshot || x in s'.sessions[d].enqueued)
      ensures Genuine(x, s'.sessions[d].device.user, s.store, s.sent) {
      if x in s.sessions[d].snapshot || x in s.sessions[d].enqueued {
        assert Genuine(x, s.sessions[d].device.user, s.store, s.sent);
      }
    }
  }

  lemma OfferKeepsSessions(s: State, m: MsgId, box': Mailbox)
    requires Inv(s) && CanOffer(s, m, box')
    ensures var s' := DoOffer(s, m, box');
            && StreamInv(s'.sessions) && GenuineInv(s'.sessions, s'.store, s'.sent)
            && TakenInv(s'.sessions, s'.local, s'.issued, s'.sent)
  {
    var p := s.sends[m];
    assert SendOk(m, p, s.store, s.sent) && TargetOk(m, p.targets[0], s.store, s.sessions);
    OfferedStream(s.sessions[p.targets[0]], p.message, box');
    OfferKeepsGenuine(s, m, box');
  }

  lemma OfferKeepsNoGap(s: State, m: MsgId, box': Mailbox)
    requires Inv(s) && CanOffer(s, m, box')
    ensures var s' := DoOffer(s, m, box'); NoGap(s'.sessions, s'.store, s'.sends)
  {
    var s', p := DoOffer(s, m, box'), s.sends[m];
    var sid := p.targets[0];
    assert SendOk(m, p, s.store, s.sent);
    forall d, n | d in s'.sessions && Fed(s'.sessions[d]) && IsPending(s.store, n, s'.sessions[d].device.user)
      ensures Reaches(s'.sessions[d], s'.sends, n, d) {
      assert Reaches(s.sessions[d], s.sends, n, d);
      if d == sid {
        assert s'.sessions[d].enqueued == s.sessions[d].enqueued + [p.message];
        IdsAppend(s.sessions[d].enqueued, p.message);
      } else if n == m && d in p.targets {
        assert d in p.targets[1..];
      }
    }
  }

  lemma OfferKeepsLog(s: State, m: MsgId, box': Mailbox)
    requires Inv(s) && CanOffer(s, m, box')
    ensures var s' := DoOffer(s, m, box'); NoSilentDrop(s'.sessions, s'.log)
  {
    var s', e := DoOffer(s, m, box'), Entry(s.sends[m].message, s.sends[m].targets[0]);
    assert s'.log[..|s'.log| - 1] == s.log;
  }

  lemma OfferKeeps(s: State, m: MsgId, box': Mailbox)
    requires Inv(s) && CanOffer(s, m, box')
    ensures Inv(DoOffer(s, m, box'))
  {
    OfferKeepsSends(s, m, box');
    OfferKeepsSessions(s, m, box');
    OfferKeepsNoGap(s, m, box');
    OfferKeepsLog(s, m, box');
  }

  // ---------------------------------------------------------------------
  // Subscriptions
  // ---------------------------------------------------------------------

  lemma {:induction false} ToNobody(log: seq<Entry>, sid: SessionId)
    requires forall i | 0 <= i < |log| :: log[i].to != sid
    ensures To(log, sid) == []
  {
    if log != [] {
      ToNobody(log[..|log| - 1], sid);
    }
  }

  lemma RegisterKeepsReg(s: State, sid: SessionId, device: Device)
    requires Inv(s) && sid !in s.sessions
    ensures var s' := DoRegister(s, sid, device); RegInv(s'.reg, s'.sessions)
  {
    SubscribeRegisters(s.reg, device.user, sid);
  }

  lemma RegisterKeeps(s: State, sid: SessionId, device: Device)
    requires Inv(s) && sid !in s.sessions
    ensures Inv(DoRegister(s, sid, device))
  {
    RegisterKeepsReg(s, sid, device);
    OpenedKeepsStreams(s, sid, device);
    OpenedKeepsTargets(s.sends, s.store, s.sessions, sid, device);
  }

  lemma OpenedKeepsTargets(sends: map<MsgId, Publishing>, t: Tables, sessions: Sessions, sid: SessionId, device: Device)
    requires TargetInv(sends, t, sessions) && NoGap(sessions, t, sends) && sid !in sessions
    ensures var sessions' := sessions[sid := Opened(device)]; TargetInv(sends, t, sessions') && NoGap(sessions', t, sends)
  {
    var sessions' := sessions[sid := Opened(device)];
    forall n, d | n in sends && sends[n].Sending? && d in sends[n].targets ensures TargetOk(n, d, t, sessions') {
      assert TargetOk(n, d, t, sessions);
    }
    forall d, m | d in sessions' && Fed(sessions'[d]) && IsPending(t, m, sessions'[d].device.user)
      ensures Reaches(sessions'[d], sends, m, d) {
      assert Reaches(sessions[d], sends, m, d);
    }
  }

  lemma OpenedKeepsStreams(s: State, sid: SessionId, device: Device)
    requires StreamInv(s.sessions) && GenuineInv(s.sessions, s.store, s.sent) && NoSilentDrop(s.sessions, s.log)
    requires TakenInv(s.sessions, s.local, s.issued, s.sent) && sid !in s.sessions
    ensures var sessions' := s.sessions[sid := Opened(device)];
            && StreamInv(sessions') && GenuineInv(sessions', s.store, s.sent) && NoSilentDrop(sessions', s.log)
            && TakenInv(sessions', s.local, s.issued, s.sent)
  {
    ToNobody(s.log, sid);
  }

  lemma SnapshotKeepsStream(c: Session, batch: seq<Message>, complete: bool)
    requires StreamOk(c) && c.phase.Registered?
    ensures StreamOk(c.(phase := Live, rest := batch, snapshot := batch, complete := complete))
  {
    assert c.forwarded + c.rest + c.box.queue == c.box.queue && c.snapshot + c.enqueued == c.enqueued;
    assert c.forwarded + batch + c.box.queue == batch + c.box.queue;
  }

  lemma SnapshotKeepsSessions(s: State, sid: SessionId, batch: seq<Message>)
    requires Inv(s) && CanSnapshot(s, sid, batch)
    ensures var s' := DoSnapshot(s, sid, batch);
            StreamInv(s'.sessions) && GenuineInv(s'.sessions, s'.store, s'.sent)
  {
    var s' := DoSnapshot(s, sid, batch);
    var c := s.sessions[sid];
    SnapshotKeepsStream(c, batch, s'.sessions[sid].complete);
    forall d, x | d in s'.sessions && (x in s'.sessions[d].snapshot || x in s'.sessions[d].enqueued)
      ensures Genuine(x, s'.sessions[d].device.user, s'.store, s'.sent) {
      if x in s.sessions[d].snapshot || x in s.sessions[d].enqueued {
        assert Genuine(x, s.sessions[d].device.user, s.store, s.sent);
      } else {
        assert x.id in Undelivered(s.store, c.device.user);
      }
    }
  }

  lemma SnapshotKeepsNoGap(s: State, sid: SessionId, batch: seq<Message>)
    requires Inv(s) && CanSnapshot(s, sid, batch)
    ensures var s' := DoSnapshot(s, sid, batch); NoGap(s'.sessions, s'.store, s'.sends)
  {
    var s' := DoSnapshot(s, sid, batch);
    BatchIsCompleteIff(s.store, s.sessions[sid].device.user, batch);
    forall d, n | d in s'.sessions && Fed(s'.sessions[d]) && IsPending(s.store, n, s'.sessions[d].device.user)
      ensures Reaches(s'.sessions[d], s'.sends, n, d) {
      if d != sid {
        assert Reaches(s.sessions[d], s.sends, n, d);
      }
    }
  }

  lemma SnapshotKeeps(s: State, sid: SessionId, batch: seq<Message>)
    requires Inv(s) && CanSnapshot(s, sid, batch)
    ensures Inv(DoSnapshot(s, sid, batch))
  {
    SnapshotKeepsSessions(s, sid, batch);
    SnapshotKeepsNoGap(s, sid, batch);
    SnapshotKeepsRest(s, sid, batch);
  }

  lemma SnapshotKeepsRest(s: State, sid: SessionId, batch: seq<Message>)
    requires RegInv(s.reg, s.sessions) && TargetInv(s.sends, s.store, s.sessions) && NoSilentDrop(s.sessions, s.log)
    requires TakenInv(s.sessions, s.local, s.issued, s.sent) && CanSnapshot(s, sid, batch)
    ensures var s' := DoSnapshot(s, sid, batch);
            && RegInv(s'.reg, s'.sessions) && TargetInv(s'.sends, s'.store, s'.sessions)
            && NoSilentDrop(s'.sessions, s'.log) && TakenInv(s'.sessions, s'.local, s'.issued, s'.sent)
  {
    var s' := DoSnapshot(s, sid, batch);
    forall n, d | n in s.sends && s.sends[n].Sending? && d in s.sends[n].targets
      ensures TargetOk(n, d, s'.store, s'.sessions) {
      assert TargetOk(n, d, s.store, s.sessions);
    }
  }

  /** What publishes and the registry know of a session. */
  predicate SameToServer(c: Session, c': Session) {
    && c'.device == c.device && c'.phase == c.phase && c'.box.done == c.box.done && c'.complete == c.complete
    && c'.snapshot == c.snapshot && c'.enqueued == c.enqueued
  }

  predicate SameButStream(c: Session, c': Session) {
    SameToServer(c, c') && c'.taken == c.taken && c'.unacked == c.unacked
  }

  lemma StreamMoveKeeps(s: State, sid: SessionId, c': Session)
    requires Inv(s) && sid in s.sessions && SameButStream(s.sessions[sid], c') && StreamOk(c')
    ensures Inv(s.(sessions := s.sessions[sid := c']))
  {
    StreamMoveKeepsServer(s.sessions, sid, c', s.reg, s.sends, s.store);
    StreamMoveKeepsStreams(s, sid, c');
  }

  lemma StreamMoveKeepsServer(sessions: Sessions, sid: SessionId, c': Session, reg: Registry,
                              sends: map<MsgId, Publishing>, t: Tables)
    requires RegInv(reg, sessions) && TargetInv(sends, t, sessions) && NoGap(sessions, t, sends)
    requires sid in sessions && SameToServer(sessions[sid], c')
    ensures var sessions' := sessions[sid := c'];
            RegInv(reg, sessions') && TargetInv(sends, t, sessions') && NoGap(sessions', t, sends)
  {
    var sessions' := sessions[sid := c'];
    forall m, d | m in sends && sends[m].Sending? && d in sends[m].targets ensures TargetOk(m, d, t, sessions') {
      assert TargetOk(m, d, t, sessions);
    }
    forall d, m | d in sessions' && Fed(sessions'[d]) && IsPending(t, m, sessions'[d].device.user)
      ensures Reaches(sessions'[d], sends, m, d) {
      assert Reaches(sessions[d], sends, m, d);
    }
  }

  lemma StreamMoveKeepsStreams(s: State, sid: SessionId, c': Session)
    requires StreamInv(s.sessions) && GenuineInv(s.sessions, s.store, s.sent) && NoSilentDrop(s.sessions, s.log)
    requires TakenInv(s.sessions, s.local, s.issued, s.sent)
    requires sid in s.sessions && SameButStream(s.sessions[sid], c') && StreamOk(c')
    ensures var sessions' := s.sessions[sid := c'];
            && StreamInv(sessions') && GenuineInv(sessions', s.store, s.sent) && NoSilentDrop(sessions', s.log)
            && TakenInv(sessions', s.local, s.issued, s.sent)
  {}

  lemma FlushedStream(c: Session)
    requires StreamOk(c) && c.rest != [] && c.phase.Live?
    ensures StreamOk(AfterFlush(c))
  {
    assert AfterFlush(c).forwarded + AfterFlush(c).rest == c.forwarded + c.rest;
  }

  lemma FlushKeeps(s: State, sid: SessionId)
    requires Inv(s) && CanFlush(s, sid)
    ensures Inv(DoFlush(s, sid))
  {
    FlushedStream(s.sessions[sid]);
    StreamMoveKeeps(s, sid, AfterFlush(s.sessions[sid]));
  }

  lemma ForwardedStream(c: Session)
    requires StreamOk(c) && c.rest == [] && c.box.queue != [] && c.phase.Live?
    ensures StreamOk(AfterForward(c))
  {
    assert AfterForward(c).forwarded + AfterForward(c).box.queue == c.forwarded + c.box.queue;
    assert c.forwarded + c.rest == c.forwarded;
    assert AfterForward(c).forwarded + AfterForward(c).rest == AfterForward(c).forwarded;
  }

  lemma ForwardKeeps(s: State, sid: SessionId)
    requires Inv(s) && CanForward(s, sid)
    ensures Inv(DoForward(s, sid))
  {
    ForwardedStream(s.sessions[sid]);
    StreamMoveKeeps(s, sid, AfterForward(s.sessions[sid]));
  }

  lemma EndKeepsReg(s: State, sid: SessionId)
    requires Inv(s) && CanEnd(s, sid)
    ensures var s' := DoEnd(s, sid); RegInv(s'.reg, s'.sessions)
  {
    UnsubscribeRemoves(s.reg, s.sessions[sid].device.user, sid);
  }

  lemma EndKeeps(s: State, sid: SessionId)
    requires Inv(s) && CanEnd(s, sid)
    ensures Inv(DoEnd(s, sid))
  {
    EndKeepsReg(s, sid);
  }

  // ---------------------------------------------------------------------
  // Clients
  // ---------------------------------------------------------------------

  /** What arrives on the wire is a committed message for that user. */
  lemma WireIsGenuine(s: State, sid: SessionId)
    requires Inv(s) && CanKeep(s, sid)
    ensures Genuine(s.sessions[sid].wire[0], s.sessions[sid].device.user, s.store, s.sent)
  {
    var c := s.sessions[sid];
    var x := c.wire[0];
    assert StreamOk(c);
    assert x in c.taken + c.wire;
    assert x in c.forwarded + c.rest + c.box.queue;
    assert x in c.snapshot + c.enqueued;
  }

  lemma KeptHolds(s: State, d: Device, x: Message)
    requires LocalInv(s.local, s.sent) && x.id in s.sent && s.sent[x.id] == x
    ensures var local' := Kept(s.local, d, x);
            && LocalInv(local', s.sent) && Holds(local', s.sent, d, x.id)
            && (forall e, n | Holds(s.local, s.sent, e, n) :: Holds(local', s.sent, e, n))
  {
    assert d in s.local && x.id in s.local[d] ==> Holds(s.local, s.sent, d, x.id);
  }

  lemma KeepKeepsClient(s: State, sid: SessionId)
    requires Inv(s) && CanKeep(s, sid)
    ensures var s' := DoKeep(s, sid);
            && LocalInv(s'.local, s'.sent) && IssuedInv(s'.issued, s'.local, s'.sent)
            && TakenInv(s'.sessions, s'.local, s'.issued, s'.sent) && DeliveredInv(s'.store, s'.issued)
  {
    WireIsGenuine(s, sid);
    KeptHolds(s, s.sessions[sid].device, s.sessions[sid].wire[0]);
  }

  lemma KeepKeepsStream(c: Session)
    requires StreamOk(c) && c.wire != []
    ensures StreamOk(AfterKeep(c))
  {
    assert AfterKeep(c).taken + AfterKeep(c).wire == c.taken + c.wire;
  }

  lemma KeepKeeps(s: State, sid: SessionId)
    requires Inv(s) && CanKeep(s, sid)
    ensures Inv(DoKeep(s, sid))
  {
    KeepKeepsClient(s, sid);
    KeepKeepsStream(s.sessions[sid]);
    var c' := AfterKeep(s.sessions[sid]);
    StreamMoveKeepsServer(s.sessions, sid, c', s.reg, s.sends, s.store);
    ClientMoveKeepsStreams(s, sid, c');
  }

  lemma ClientMoveKeepsStreams(s: State, sid: SessionId, c': Session)
    requires StreamInv(s.sessions) && GenuineInv(s.sessions, s.store, s.sent) && NoSilentDrop(s.sessions, s.log)
    requires sid in s.sessions && SameToServer(s.sessions[sid], c') && StreamOk(c')
    ensures var sessions' := s.sessions[sid := c'];
            StreamInv(sessions') && GenuineInv(sessions', s.store, s.sent) && NoSilentDrop(sessions', s.log)
  {}

  lemma IssueAckKeeps(s: State, sid: SessionId)
    requires Inv(s) && CanIssueAck(s, sid)
    ensures Inv(DoIssueAck(s, sid))
  {
    IssueAckKeepsClient(s, sid);
    assert StreamOk(s.sessions[sid]);
    var c' := s.sessions[sid].(unacked := None);
    StreamMoveKeepsServer(s.sessions, sid, c', s.reg, s.sends, s.store);
    ClientMoveKeepsStreams(s, sid, c');
  }

  lemma IssueAckKeepsClient(s: State, sid: SessionId)
    requires TakenInv(s.sessions, s.local, s.issued, s.sent) && IssuedInv(s.issued, s.local, s.sent)
    requires DeliveredInv(s.store, s.issued) && CanIssueAck(s, sid)
    ensures var s' := DoIssueAck(s, sid);
            && TakenInv(s'.sessions, s'.local, s'.issued, s'.sent) && IssuedInv(s'.issued, s'.local, s'.sent)
            && DeliveredInv(s'.store, s'.issued)
  {
    assert s.sessions[sid].unacked.value in s.sessions[sid].taken;
  }

  lemma StopReadingKeeps(s: State, sid: SessionId)
    requires Inv(s) && sid in s.sessions
    ensures Inv(DoStopReading(s, sid))
  {
    assert StreamOk(s.sessions[sid]);
    StreamMoveKeeps(s, sid, s.sessions[sid].(reading := false));
  }

  lemma AckStepKeeps(s: State, key: AckKey, at: Time)
    requires Inv(s) && key in s.issued
    ensures Inv(DoAck(s, key, at))
  {
    AckKeeps(s.store, key.msg, key.user, at);
  }

  lemma ReadStepKeeps(s: State, ids: set<MsgId>, u: UserId, at: Time)
    requires Inv(s)
    ensures Inv(DoRead(s, ids, u, at))
  {
    ReadKeeps(s.store, ids, u, at);
  }

  lemma RestartKeeps(s: State)
    requires Inv(s)
    ensures Inv(DoRestart(s))
  {}
}
