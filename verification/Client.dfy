/** The receiving client: it stores an incoming message before it acks it. */
module Client {
  import opened MessageStore

  /** INSERT OR IGNORE into the local messages table. */
  function InsertOrIgnore(local: map<MsgId, Message>, x: Message): map<MsgId, Message> {
    if x.id in local then local else local[x.id := x]
  }

  /** Receiving a message again, on any stream, leaves the table as it was. */
  lemma InsertIsIdempotent(local: map<MsgId, Message>, x: Message, y: Message)
    ensures InsertOrIgnore(InsertOrIgnore(local, x), x) == InsertOrIgnore(local, x)
    ensures x.id != y.id ==>
      InsertOrIgnore(InsertOrIgnore(local, x), y) == InsertOrIgnore(InsertOrIgnore(local, y), x)
  {
    if x.id != y.id && x.id !in local && y.id !in local {
      assert local[x.id := x][y.id := y] == local[y.id := y][x.id := x];
    }
  }

  ghost function InsertAll(local: map<MsgId, Message>, xs: seq<Message>): map<MsgId, Message>
    decreases |xs|
  {
    if xs == [] then local else InsertOrIgnore(InsertAll(local, xs[..|xs| - 1]), xs[|xs| - 1])
  }

  ghost predicate FirstOf(xs: seq<Message>, m: MsgId, i: nat) {
    i < |xs| && xs[i].id == m && forall j | 0 <= j < i :: xs[j].id != m
  }

  /** Whatever is received, the first copy stays: a row that was there is never
      changed, and a new one is the first message received with that id. */
  lemma {:induction false} FirstCopyStays(local: map<MsgId, Message>, xs: seq<Message>, m: MsgId)
    ensures m in local ==> m in InsertAll(local, xs) && InsertAll(local, xs)[m] == local[m]
    ensures m !in local ==> (m in InsertAll(local, xs) <==> exists i: nat :: FirstOf(xs, m, i))
    ensures m !in local ==> forall i: nat | FirstOf(xs, m, i) :: m in InsertAll(local, xs) && InsertAll(local, xs)[m] == xs[i]
    decreases |xs|
  {
    if xs != [] {
      var n := |xs| - 1;
      var init := xs[..n];
      FirstCopyStays(local, init, m);
      forall i: nat | i < n ensures FirstOf(xs, m, i) <==> FirstOf(init, m, i) {}
      if m !in local && xs[n].id == m && m !in InsertAll(local, init) {
        NoneYet(init, m);
        assert FirstOf(xs, m, n);
      }
    }
  }

  lemma {:induction false} NoneYet(xs: seq<Message>, m: MsgId)
    requires forall i: nat :: !FirstOf(xs, m, i)
    ensures forall i | 0 <= i < |xs| :: xs[i].id != m
  {
    if xs != [] {
      var init := xs[..|xs| - 1];
      forall i: nat ensures !FirstOf(init, m, i) {
        assert FirstOf(init, m, i) ==> FirstOf(xs, m, i);
      }
      NoneYet(init, m);
      assert !FirstOf(xs, m, |xs| - 1);
      assert forall i | 0 <= i < |init| :: xs[i] == init[i];
    }
  }

  /** What one read of the stream gives. */
  datatype StreamRead = Got(message: Message) | OtherEvent | EndOfFile | Cancelled | Broken | NoStream

  /** What the receive command reports to the update loop. */
  datatype Received = Incoming(id: MsgId) | SaveFailed | Reconnect | SubscriptionError | Nothing

  /** What one call of the ack command reports back to the update loop. */
  datatype AckReport = AckSuccess | RetryAck(retryCount: nat) | FatalAckError
  datatype Reply = Ok | Retriable | NotRetriable

  const MAX_RETRIES: nat := 5

  function AckReported(retryCount: nat, reply: Reply): AckReport {
    match reply
    case Ok => AckSuccess
    case NotRetriable => FatalAckError
    case Retriable => if retryCount >= MAX_RETRIES then FatalAckError else RetryAck(retryCount + 1)
  }

  /** `n` calls were made: all but the last failed retriably, and the last one
      succeeded, failed for good, or was the sixth. */
  ghost predicate AckAttempts(n: nat, replies: seq<Reply>, report: AckReport) {
    && 1 <= n <= 6 && n <= |replies|
    && (forall i | 0 <= i < n - 1 :: replies[i].Retriable?)
    && (report.AckSuccess? <==> replies[n - 1].Ok?)
    && (report.FatalAckError? <==> replies[n - 1].NotRetriable? || (replies[n - 1].Retriable? && n == 6))
  }

  class ChatClient {
    var local: map<MsgId, Message>
    var acksSent: seq<MsgId>

    constructor (local: map<MsgId, Message>)
      ensures this.local == local && acksSent == []
    {
      this.local := local;
      acksSent := [];
    }

    /** `disk` says whether the database accepts the insert. */
    method RecvMessage(read: StreamRead, disk: bool) returns (r: Received)
      modifies this`local
      ensures r.Incoming? <==> read.Got? && disk
      ensures r.Incoming? ==> r.id == read.message.id
      ensures r.SaveFailed? <==> read.Got? && !disk
      ensures r.Reconnect? <==> read.EndOfFile? || read.OtherEvent?
      ensures r.SubscriptionError? <==> read.NoStream? || read.Broken?
      ensures local == if r.Incoming? then InsertOrIgnore(old(local), read.message) else old(local)
    {
      match read
      case NoStream => return SubscriptionError;
      case EndOfFile => return Reconnect;
      case Cancelled => return Nothing;
      case Broken => return SubscriptionError;
      case OtherEvent => return Reconnect;
      case Got(x) =>
        if !disk {
          return SaveFailed;
        }
        if x.id !in local {
          local := local[x.id := x];
        }
        return Incoming(x.id);
    }

    /** The ack command, re-issued by the update loop while it reports a retry;
        `replies` are the outcomes of the successive calls. */
    method AckMessage(id: MsgId, replies: seq<Reply>) returns (report: AckReport)
      requires |replies| > MAX_RETRIES
      modifies this`acksSent
      ensures !report.RetryAck?
      ensures exists n: nat :: AckAttempts(n, replies, report) && acksSent == old(acksSent) + seq(n, i => id)
    {
      var retryCount: nat := 0;
      while true
        invariant 0 <= retryCount <= MAX_RETRIES
        invariant acksSent == old(acksSent) + seq(retryCount, i => id)
        invariant forall i | 0 <= i < retryCount :: replies[i].Retriable?
        decreases MAX_RETRIES - retryCount
      {
        acksSent := acksSent + [id];
        assert acksSent == old(acksSent) + seq(retryCount + 1, i => id);
        report := AckReported(retryCount, replies[retryCount]);
        if !report.RetryAck? {
          assert AckAttempts(retryCount + 1, replies, report);
          return;
        }
        retryCount := report.retryCount;
      }
    }

    /** An ack goes out for a message only once the local table holds it. */
    method HandleStreamEvent(read: StreamRead, disk: bool, replies: seq<Reply>) returns (r: Received)
      requires |replies| > MAX_RETRIES
      modifies this
      ensures local == if read.Got? && disk then InsertOrIgnore(old(local), read.message) else old(local)
      ensures |acksSent| > |old(acksSent)| <==> read.Got? && disk
      ensures old(acksSent) <= acksSent
      ensures forall i | |old(acksSent)| <= i < |acksSent| ::
                read.Got? && acksSent[i] == read.message.id && acksSent[i] in local
    {
      r := RecvMessage(read, disk);
      if r.Incoming? {
        var _ := AckMessage(r.id, replies);
      }
    }
  }
}
