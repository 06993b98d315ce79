/** Store-and-forward delivery as interleaved steps: senders, publishing
    goroutines, subscription streams and receiving clients. Each step is what
    the program does between two points where another goroutine can run. */
module Delivery {
  import opened Collections
  import opened MessageStore
  import opened StoreInvariants
  import opened Broker
  import opened Service
  import opened Client

  /** A client's local database belongs to one user and one data directory. */
  datatype Device = Device(dir: int, user: UserId)

  /** A SendMessage call after it has read the chat's members. */
  datatype Publishing =
    | Prepared(message: Message, rows: seq<NewAck>)
    | Committed(message: Message, rows: seq<NewAck>)
    | Sending(message: Message, targets: seq<SessionId>)

  datatype Phase = Registered | Live | Ended

  /** One Subscribe call, its stream and the client at the other end. */
  datatype Session = Session(
    device: Device,
    phase: Phase,
    box: Mailbox,
    rest: seq<Message>,       // undelivered messages not flushed yet
    wire: seq<Message>,       // sent on the stream, not received yet
    reading: bool,            // the client still receives
    unacked: Option<Message>, // stored by the client, its ack not started yet
    // history
    snapshot: seq<Message>,
    complete: bool,           // the snapshot held everything then pending
    enqueued: seq<Message>,
    forwarded: seq<Message>,
    taken: seq<Message>)

  datatype Entry = Entry(message: Message, to: SessionId)

  type Sessions = map<SessionId, Session>
  type Locals = map<Device, map<MsgId, Message>>

  datatype State = State(
    store: Tables,
    reg: Registry,
    sessions: Sessions,
    sends: map<MsgId, Publishing>,
    local: Locals,
    // history
    sent: map<MsgId, Message>,      // every message ever committed
    issued: map<AckKey, Device>,    // acks ever issued, and a device that issued them
    log: seq<Entry>)                // every completed publish send

  const INIT: State := State(EMPTY, map[], map[], map[], map[], map[], map[], [])

  datatype Step =
    | Prepare(message: Message, members: seq<UserId>)
    | Abandon(m: MsgId)
    | Commit(m: MsgId)
    | Collect(m: MsgId)
    | Offer(m: MsgId, box': Mailbox)
    | Register(sid: SessionId, device: Device)
    | Snapshot(sid: SessionId, batch: seq<Message>)
    | Flush(sid: SessionId)
    | Forward(sid: SessionId)
    | End(sid: SessionId)
    | Keep(sid: SessionId)
    | IssueAck(sid: SessionId)
    | StopReading(sid: SessionId)
    | Ack(key: AckKey, at: Time)
    | Read(ids: set<MsgId>, u: UserId, at: Time)
    | Restart

  // ---------------------------------------------------------------------
  // Steps: when they can be taken, and what they do
  // ---------------------------------------------------------------------

  ghost predicate CanPrepare(s: State, x: Message, members: seq<UserId>) {
    Distinct(members) && x.sender in members && Rows(x, members) != [] && x.id !in s.sent && x.id !in s.sends
  }

  function DoPrepare(s: State, x: Message, members: seq<UserId>): State {
    s.(sends := s.sends[x.id := Prepared(x, Rows(x, members))])
  }

  /** The insert failed, or the call was cancelled before it. */
  predicate CanAbandon(s: State, m: MsgId) {
    m in s.sends && s.sends[m].Prepared?
  }

  function DoAbandon(s: State, m: MsgId): State {
    s.(sends := s.sends - {m})
  }

  ghost predicate CanCommit(s: State, m: MsgId) {
    m in s.sends && s.sends[m].Prepared? && Insertable(s.store, s.sends[m].message, s.sends[m].rows)
  }

  function DoCommit(s: State, m: MsgId): State
    requires m in s.sends && !s.sends[m].Sending?
  {
    var p := s.sends[m];
    s.(store := Inserted(s.store, p.message, p.rows),
       sent := s.sent[m := p.message],
       sends := s.sends[m := Committed(p.message, p.rows)])
  }

  predicate CanCollect(s: State, m: MsgId) {
    m in s.sends && s.sends[m].Committed?
  }

  function DoCollect(s: State, m: MsgId): State
    requires CanCollect(s, m)
  {
    s.(sends := s.sends[m := Sending(s.sends[m].message, Targets(s.reg, s.sends[m].rows))])
  }

  predicate HasTarget(s: State, m: MsgId) {
    m in s.sends && s.sends[m].Sending? && s.sends[m].targets != [] && s.sends[m].targets[0] in s.sessions
  }

  ghost predicate CanOffer(s: State, m: MsgId, box': Mailbox) {
    HasTarget(s, m) && Offered(s.sessions[s.sends[m].targets[0]].box, s.sends[m].message, box')
  }

  function AfterOffer(c: Session, x: Message, box': Mailbox): Session {
    c.(box := box', enqueued := c.enqueued + if |box'.queue| > |c.box.queue| then [x] else [])
  }

  /** One pass of Publish's loop: the head target's box becomes `box'`. */
  function DoOffer(s: State, m: MsgId, box': Mailbox): State
    requires HasTarget(s, m)
  {
    var p := s.sends[m];
    var sid := p.targets[0];
    s.(sessions := s.sessions[sid := AfterOffer(s.sessions[sid], p.message, box')],
       sends := s.sends[m := Sending(p.message, p.targets[1..])],
       log := s.log + [Entry(p.message, sid)])
  }

  function Opened(device: Device): Session {
    Session(device, Registered, Mailbox([], false), [], [], true, None, [], false, [], [], [])
  }

  function DoRegister(s: State, sid: SessionId, device: Device): State {
    s.(sessions := s.sessions[sid := Opened(device)], reg := Subscribed(s.reg, device.user, sid))
  }

  ghost predicate CanSnapshot(s: State, sid: SessionId, batch: seq<Message>) {
    sid in s.sessions && s.sessions[sid].phase.Registered? && IsBatch(s.store, s.sessions[sid].device.user, batch)
  }

  ghost function DoSnapshot(s: State, sid: SessionId, batch: seq<Message>): State
    requires sid in s.sessions
  {
    var c := s.sessions[sid];
    s.(sessions := s.sessions[sid := c.(phase := Live, rest := batch, snapshot := batch,
                                        complete := |Undelivered(s.store, c.device.user)| <= 100)])
  }

  predicate CanFlush(s: State, sid: SessionId) {
    sid in s.sessions && s.sessions[sid].phase.Live? && s.sessions[sid].rest != []
  }

  function AfterFlush(c: Session): Session
    requires c.rest != []
  {
    c.(rest := c.rest[1..], wire := c.wire + [c.rest[0]], forwarded := c.forwarded + [c.rest[0]])
  }

  function DoFlush(s: State, sid: SessionId): State
    requires CanFlush(s, sid)
  {
    s.(sessions := s.sessions[sid := AfterFlush(s.sessions[sid])])
  }

  predicate CanForward(s: State, sid: SessionId) {
    sid in s.sessions && s.sessions[sid].phase.Live? && s.sessions[sid].rest == [] && s.sessions[sid].box.queue != []
  }

  function AfterForward(c: Session): Session
    requires c.box.queue != []
  {
    var x := c.box.queue[0];
    c.(box := c.box.(queue := c.box.queue[1..]), wire := c.wire + [x], forwarded := c.forwarded + [x])
  }

  function DoForward(s: State, sid: SessionId): State
    requires CanForward(s, sid)
  {
    s.(sessions := s.sessions[sid := AfterForward(s.sessions[sid])])
  }

  predicate CanEnd(s: State, sid: SessionId) {
    sid in s.sessions && !s.sessions[sid].phase.Ended?
  }

  function DoEnd(s: State, sid: SessionId): State
    requires sid in s.sessions
  {
    s.(sessions := s.sessions[sid := s.sessions[sid].(phase := Ended)],
       reg := Unsubscribed(s.reg, s.sessions[sid].device.user, sid))
  }

  predicate CanKeep(s: State, sid: SessionId) {
    sid in s.sessions && s.sessions[sid].reading && s.sessions[sid].wire != [] && s.sessions[sid].unacked.None?
  }

  function Kept(local: Locals, d: Device, x: Message): Locals {
    local[d := InsertOrIgnore(if d in local then local[d] else map[], x)]
  }

  function AfterKeep(c: Session): Session
    requires c.wire != []
  {
    c.(wire := c.wire[1..], taken := c.taken + [c.wire[0]], unacked := Some(c.wire[0]))
  }

  /** The receive command stores the message; the next one is received only
      after the update loop has handled this one. */
  function DoKeep(s: State, sid: SessionId): State
    requires CanKeep(s, sid)
  {
    var c := s.sessions[sid];
    s.(sessions := s.sessions[sid := AfterKeep(c)], local := Kept(s.local, c.device, c.wire[0]))
  }

  predicate CanIssueAck(s: State, sid: SessionId) {
    sid in s.sessions && s.sessions[sid].unacked.Some?
  }

  /** The update loop handles the stored message: it starts the ack and goes on
      receiving. A client that quits before never does. */
  function DoIssueAck(s: State, sid: SessionId): State
    requires CanIssueAck(s, sid)
  {
    var c := s.sessions[sid];
    s.(sessions := s.sessions[sid := c.(unacked := None)],
       issued := s.issued[AckKey(c.unacked.value.id, c.device.user) := c.device])
  }

  /** The stream broke, or the local insert failed and the client gave up. */
  function DoStopReading(s: State, sid: SessionId): State
    requires sid in s.sessions
  {
    s.(sessions := s.sessions[sid := s.sessions[sid].(reading := false)])
  }

  /** An issued ack arrives: late, repeatedly, or never. */
  function DoAck(s: State, key: AckKey, at: Time): State {
    s.(store := Acknowledged(s.store, key.msg, key.user, at))
  }

  function DoRead(s: State, ids: set<MsgId>, u: UserId, at: Time): State {
    s.(store := MarkedRead(s.store, ids, u, at))
  }

  /** The server process stops and starts again: only the tables survive. */
  function DoRestart(s: State): State {
    s.(reg := map[], sends := map[],
       sessions := map sid | sid in s.sessions :: s.sessions[sid].(phase := Ended))
  }

  ghost predicate Enabled(s: State, step: Step) {
    match step
    case Prepare(x, members) => CanPrepare(s, x, members)
    case Abandon(m) => CanAbandon(s, m)
    case Commit(m) => CanCommit(s, m)
    case Collect(m) => CanCollect(s, m)
    case Offer(m, box') => CanOffer(s, m, box')
    case Register(sid, device) => sid !in s.sessions
    case Snapshot(sid, batch) => CanSnapshot(s, sid, batch)
    case Flush(sid) => CanFlush(s, sid)
    case Forward(sid) => CanForward(s, sid)
    case End(sid) => CanEnd(s, sid)
    case Keep(sid) => CanKeep(s, sid)
    case IssueAck(sid) => CanIssueAck(s, sid)
    case StopReading(sid) => sid in s.sessions
    case Ack(key, at) => key in s.issued
    case Read(ids, u, at) => true
    case Restart => true
  }

  ghost function Next(s: State, step: Step): State
    requires Enabled(s, step)
  {
    match step
    case Prepare(x, members) => DoPrepare(s, x, members)
    case Abandon(m) => DoAbandon(s, m)
    case Commit(m) => DoCommit(s, m)
    case Collect(m) => DoCollect(s, m)
    case Offer(m, box') => DoOffer(s, m, box')
    case Register(sid, device) => DoRegister(s, sid, device)
    case Snapshot(sid, batch) => DoSnapshot(s, sid, batch)
    case Flush(sid) => DoFlush(s, sid)
    case Forward(sid) => DoForward(s, sid)
    case End(sid) => DoEnd(s, sid)
    case Keep(sid) => DoKeep(s, sid)
    case IssueAck(sid) => DoIssueAck(s, sid)
    case StopReading(sid) => DoStopReading(s, sid)
    case Ack(key, at) => DoAck(s, key, at)
    case Read(ids, u, at) => DoRead(s, ids, u, at)
    case Restart => DoRestart(s)
  }

  // ---------------------------------------------------------------------
  // Invariants, each over the parts of the state it needs
  // ---------------------------------------------------------------------

  ghost predicate StoreInv(t: Tables, sent: map<MsgId, Message>) {
    && StoredIffPending(t)
    && (forall m | m in t.messages :: m in sent && t.messages[m] == sent[m])
    && (forall m | m in sent :: sent[m].id == m)
    && (forall k | k in t.acks :: k.msg in sent && k.user != sent[k.msg].sender)
  }

  ghost predicate HasRow(rows: seq<NewAck>, k: AckKey) {
    exists i :: 0 <= i < |rows| && rows[i].key == k
  }

  ghost predicate SendOk(m: MsgId, p: Publishing, t: Tables, sent: map<MsgId, Message>) {
    && p.message.id == m
    && (!p.Sending? ==> FreshRows(p.message, p.rows) && KeysDistinct(p.rows) && p.rows != [])
    && (p.Prepared? <==> m !in sent)
    && (m in sent ==> sent[m] == p.message)
    && (p.Committed? ==> forall u :: AckKey(m, u) in t.acks <==> HasRow(p.rows, AckKey(m, u)))
  }

  ghost predicate SendInv(sends: map<MsgId, Publishing>, t: Tables, sent: map<MsgId, Message>) {
    forall m | m in sends :: SendOk(m, sends[m], t, sent)
  }

  /** Targets are sessions of users the message is for. */
  ghost predicate TargetOk(m: MsgId, sid: SessionId, t: Tables, sessions: Sessions) {
    sid in sessions && AckKey(m, sessions[sid].device.user) in t.acks
  }

  ghost predicate TargetInv(sends: map<MsgId, Publishing>, t: Tables, sessions: Sessions) {
    forall m, sid | m in sends && sends[m].Sending? && sid in sends[m].targets :: TargetOk(m, sid, t, sessions)
  }

  ghost predicate RegInv(reg: Registry, sessions: Sessions) {
    && WellFormed(reg)
    && (forall u, sid :: Registers(reg, u, sid) <==>
          sid in sessions && sessions[sid].device.user == u && !sessions[sid].phase.Ended?)
  }

  /** Nothing is lost or invented between the snapshot, the queue, the wire and the client. */
  ghost predicate StreamOk(c: Session) {
    && |c.box.queue| <= CAPACITY
    && c.forwarded + c.rest + c.box.queue == c.snapshot + c.enqueued
    && c.taken + c.wire == c.forwarded
    && (c.phase.Registered? ==> c.snapshot == c.forwarded == c.rest == [])
  }

  ghost predicate StreamInv(sessions: Sessions) {
    forall sid | sid in sessions :: StreamOk(sessions[sid])
  }

  /** A committed message, unchanged, on its way to one of its recipients. */
  ghost predicate Genuine(x: Message, u: UserId, t: Tables, sent: map<MsgId, Message>) {
    x.id in sent && sent[x.id] == x && AckKey(x.id, u) in t.acks
  }

  ghost predicate GenuineInv(sessions: Sessions, t: Tables, sent: map<MsgId, Message>) {
    forall sid, x | sid in sessions && (x in sessions[sid].snapshot || x in sessions[sid].enqueued) ::
      Genuine(x, sessions[sid].device.user, t, sent)
  }

  ghost predicate Holds(local: Locals, sent: map<MsgId, Message>, d: Device, m: MsgId) {
    d in local && m in local[d] && m in sent && local[d][m] == sent[m]
  }

  ghost predicate LocalInv(local: Locals, sent: map<MsgId, Message>) {
    forall d, m | d in local && m in local[d] :: Holds(local, sent, d, m)
  }

  /** An ack is issued only by a device of its user that holds the message. */
  ghost predicate IssuedInv(issued: map<AckKey, Device>, local: Locals, sent: map<MsgId, Message>) {
    forall k | k in issued :: issued[k].user == k.user && Holds(local, sent, issued[k], k.msg)
  }

  ghost predicate DeliveredInv(t: Tables, issued: map<AckKey, Device>) {
    forall k | k in t.acks && t.acks[k].deliveredAt.Some? :: k in issued
  }

  /** What a client has taken it holds, and has acked but for the last one. */
  ghost predicate TakenInv(sessions: Sessions, local: Locals, issued: map<AckKey, Device>, sent: map<MsgId, Message>) {
    && (forall sid, x | sid in sessions && x in sessions[sid].taken ::
          && Holds(local, sent, sessions[sid].device, x.id)
          && (AckKey(x.id, sessions[sid].device.user) in issued || sessions[sid].unacked == Some(x)))
    && (forall sid | sid in sessions && sessions[sid].unacked.Some? :: sessions[sid].unacked.value in sessions[sid].taken)
  }

  /** A session the server still feeds, whose snapshot was not cut off. */
  ghost predicate Fed(c: Session) {
    c.phase.Live? && !c.box.done && c.complete
  }

  ghost predicate OnItsWay(sends: map<MsgId, Publishing>, m: MsgId, sid: SessionId) {
    m in sends && (sends[m].Committed? || (sends[m].Sending? && sid in sends[m].targets))
  }

  ghost predicate Reaches(c: Session, sends: map<MsgId, Publishing>, m: MsgId, sid: SessionId) {
    m in Ids(c.snapshot) || m in Ids(c.enqueued) || OnItsWay(sends, m, sid)
  }

  /** No gap at subscription. */
  ghost predicate NoGap(sessions: Sessions, t: Tables, sends: map<MsgId, Publishing>) {
    forall sid, m | sid in sessions && Fed(sessions[sid]) && IsPending(t, m, sessions[sid].device.user) ::
      Reaches(sessions[sid], sends, m, sid)
  }

  function To(log: seq<Entry>, sid: SessionId): seq<Message> {
    if log == [] then []
    else To(log[..|log| - 1], sid) + if log[|log| - 1].to == sid then [log[|log| - 1].message] else []
  }

  /** An open session has been handed exactly the sends aimed at it, in order. */
  ghost predicate NoSilentDrop(sessions: Sessions, log: seq<Entry>) {
    && (forall sid | sid in sessions && !sessions[sid].box.done :: sessions[sid].enqueued == To(log, sid))
    && (forall i | 0 <= i < |log| :: log[i].to in sessions)
  }

  ghost predicate Inv(s: State) {
    && StoreInv(s.store, s.sent)
    && SendInv(s.sends, s.store, s.sent)
    && TargetInv(s.sends, s.store, s.sessions)
    && RegInv(s.reg, s.sessions)
    && StreamInv(s.sessions)
    && GenuineInv(s.sessions, s.store, s.sent)
    && LocalInv(s.local, s.sent)
    && IssuedInv(s.issued, s.local, s.sent)
    && DeliveredInv(s.store, s.issued)
    && TakenInv(s.sessions, s.local, s.issued, s.sent)
    && NoGap(s.sessions, s.store, s.sends)
    && NoSilentDrop(s.sessions, s.log)
  }
}
