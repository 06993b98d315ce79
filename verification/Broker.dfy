/** The broker: sessions per user, each with a bounded channel. Publishing
    copies the target sessions under the lock and then offers the message to
    each of them without blocking. */
module Broker {
  import opened Collections
  import opened MessageStore

  type SessionId = int

  /** Sessions registered per user, in subscription order. */
  type Registry = map<UserId, seq<SessionId>>

  /** Buffer size of a session's message channel. */
  const CAPACITY: int := 30

  /** The two channels of a session: its buffered messages, and `done`. */
  datatype Mailbox = Mailbox(queue: seq<Message>, done: bool)

  /** The outcomes of one non-blocking send. A closed session with room in its
      buffer makes two cases of the select ready, and either may be taken. */
  ghost predicate Offered(b: Mailbox, m: Message, b': Mailbox) {
    || (b.done && b' == b)
    || (|b.queue| < CAPACITY && b' == b.(queue := b.queue + [m]))
    || (!b.done && |b.queue| >= CAPACITY && b' == b.(done := true))
  }

  function Subscribed(reg: Registry, u: UserId, s: SessionId): Registry {
    reg[u := (if u in reg then reg[u] else []) + [s]]
  }

  function Without(ss: seq<SessionId>, s: SessionId): seq<SessionId> {
    if ss == [] then []
    else Without(ss[..|ss| - 1], s) + if ss[|ss| - 1] != s then [ss[|ss| - 1]] else []
  }

  function Unsubscribed(reg: Registry, u: UserId, s: SessionId): Registry {
    if u !in reg then reg
    else if Without(reg[u], s) == [] then reg - {u}
    else reg[u := Without(reg[u], s)]
  }

  /** The copy Publish makes under the read lock. */
  function Targets(reg: Registry, rows: seq<NewAck>): seq<SessionId> {
    if rows == [] then []
    else
      var u := rows[|rows| - 1].key.user;
      Targets(reg, rows[..|rows| - 1]) + if u in reg then reg[u] else []
  }

  // ---------------------------------------------------------------------
  // Properties of the registry functions
  // ---------------------------------------------------------------------

  /** No session is registered twice and no user keeps an empty list. */
  ghost predicate WellFormed(reg: Registry) {
    && (forall u | u in reg :: reg[u] != [] && Distinct(reg[u]))
    && (forall u, v, s | Registers(reg, u, s) && Registers(reg, v, s) :: u == v)
  }

  ghost predicate Registers(reg: Registry, u: UserId, s: SessionId) {
    u in reg && s in reg[u]
  }

  lemma SubscribeRegisters(reg: Registry, u: UserId, s: SessionId)
    requires WellFormed(reg) && forall v :: !Registers(reg, v, s)
    ensures WellFormed(Subscribed(reg, u, s))
    ensures forall v, x :: Registers(Subscribed(reg, u, s), v, x) <==> Registers(reg, v, x) || (v == u && x == s)
  {
    assert !Registers(reg, u, s);
    assert forall v, x :: Registers(Subscribed(reg, u, s), v, x) <==> Registers(reg, v, x) || (v == u && x == s);
  }

  lemma {:induction false} WithoutRemoves(ss: seq<SessionId>, s: SessionId)
    ensures forall x :: x in Without(ss, s) <==> x in ss && x != s
    ensures Distinct(ss) ==> Distinct(Without(ss, s))
  {
    if ss != [] {
      var init, last := ss[..|ss| - 1], ss[|ss| - 1];
      WithoutRemoves(init, s);
      assert ss == init + [last];
      assert Distinct(ss) ==> Distinct(init) && last !in init;
    }
  }

  lemma UnsubscribeRemoves(reg: Registry, u: UserId, s: SessionId)
    requires WellFormed(reg)
    ensures WellFormed(Unsubscribed(reg, u, s))
    ensures forall v, x :: Registers(Unsubscribed(reg, u, s), v, x) <==> Registers(reg, v, x) && !(v == u && x == s)
  {
    if u in reg {
      WithoutRemoves(reg[u], s);
    }
    assert forall v, x :: Registers(Unsubscribed(reg, u, s), v, x) <==> Registers(reg, v, x) && !(v == u && x == s);
  }

  /** A publish targets every registered session of every recipient, and each
      of them exactly once. */
  lemma {:induction false} TargetsExactlyOnce(reg: Registry, rows: seq<NewAck>)
    requires WellFormed(reg)
    requires forall i, j | 0 <= i < j < |rows| :: rows[i].key.user != rows[j].key.user
    ensures Distinct(Targets(reg, rows))
    ensures forall s :: s in Targets(reg, rows) <==> exists i :: 0 <= i < |rows| && Registers(reg, rows[i].key.user, s)
  {
    if rows != [] {
      var init := rows[..|rows| - 1];
      var u := rows[|rows| - 1].key.user;
      TargetsExactlyOnce(reg, init);
      forall s ensures s in Targets(reg, rows) <==> exists i :: 0 <= i < |rows| && Registers(reg, rows[i].key.user, s) {
        if i :| 0 <= i < |init| && Registers(reg, init[i].key.user, s) {
          assert rows[i] == init[i];
        }
      }
      var last := if u in reg then reg[u] else [];
      forall s | s in Targets(reg, init) ensures s !in last {
        var i :| 0 <= i < |init| && Registers(reg, init[i].key.user, s);
        assert init[i] == rows[i];
        assert !Registers(reg, u, s);
      }
      var ts := Targets(reg, init);
      forall i, j | 0 <= i < j < |ts + last| ensures (ts + last)[i] != (ts + last)[j] {
        if i < |ts| <= j {
          assert ts[i] in ts && last[j - |ts|] in last;
        }
      }
    }
  }

  // ---------------------------------------------------------------------
  // The objects
  // ---------------------------------------------------------------------

  class UserSession {
    const id: SessionId
    var messageChan: seq<Message>
    var done: bool

    ghost function Box(): Mailbox reads this { Mailbox(messageChan, done) }

    constructor (id: SessionId)
      ensures this.id == id && Box() == Mailbox([], false)
    {
      this.id := id;
      messageChan, done := [], false;
    }

    method Close()
      modifies this
      ensures Box() == old(Box()).(done := true)
    {
      if !done {
        done := true;
      }
    }

    /** One select: the cases that are ready compete, default only otherwise. */
    method Offer(m: Message)
      modifies this
      ensures Offered(old(Box()), m, Box())
    {
      if
      case done =>
        // session already closed
      case |messageChan| < CAPACITY =>
        messageChan := messageChan + [m];
      case !done && |messageChan| >= CAPACITY =>
        // buffer full: kill the slow session
        Close();
    }
  }

  function IdsOf(ss: seq<UserSession>): seq<SessionId> {
    seq(|ss|, i requires 0 <= i < |ss| => ss[i].id)
  }

  class Broker {
    var sessions: map<UserId, seq<UserSession>>

    ghost function Reg(): Registry
      reads this
    {
      map u | u in sessions :: IdsOf(sessions[u])
    }

    /** A session id names one object, registered once. */
    ghost predicate Valid()
      reads this
    {
      && (forall u | u in sessions :: sessions[u] != [])
      && (forall u, i, v, j | u in sessions && v in sessions && 0 <= i < |sessions[u]| && 0 <= j < |sessions[v]| ::
            sessions[u][i].id == sessions[v][j].id ==> u == v && i == j)
    }

    ghost function Members(): set<UserSession>
      reads this
    {
      set u, i | u in sessions && 0 <= i < |sessions[u]| :: sessions[u][i]
    }

    constructor ()
      ensures Valid() && Reg() == map[]
    {
      sessions := map[];
    }

    method Subscribe(u: UserId, id: SessionId) returns (s: UserSession)
      requires Valid() && forall v :: !Registers(Reg(), v, id)
      modifies this
      ensures Valid() && Reg() == Subscribed(old(Reg()), u, id)
      ensures fresh(s) && s.id == id && s.Box() == Mailbox([], false)
      ensures Members() == old(Members()) + {s}
    {
      s := new UserSession(id);
      ghost var reg := Reg();
      var mine := if u in sessions then sessions[u] else [];
      forall v, i | v in sessions && 0 <= i < |sessions[v]| ensures sessions[v][i].id != id {
        assert !Registers(reg, v, id) && IdsOf(sessions[v])[i] == sessions[v][i].id;
      }
      ghost var before := sessions;
      sessions := sessions[u := mine + [s]];
      assert IdsOf(mine + [s]) == IdsOf(mine) + [id];
      assert s in Members() by {
        assert sessions[u][|mine|] == s;
      }
      forall x | x in old(Members()) ensures x in Members() {
        var v, i :| v in before && 0 <= i < |before[v]| && before[v][i] == x;
        assert sessions[v][i] == x;
      }
    }

    method Unsubscribe(u: UserId, target: UserSession)
      requires Valid()
      modifies this
      ensures Valid() && Reg() == Unsubscribed(old(Reg()), u, target.id)
    {
      if u !in sessions {
        return;
      }
      var filtered := Filter(sessions[u], target.id);
      assert |filtered| == |IdsOf(filtered)|;
      if |filtered| == 0 {
        sessions := sessions - {u};
      } else {
        sessions := sessions[u := filtered];
      }
    }

    /** The sessions other than `id`, in order. */
    method Filter(userSessions: seq<UserSession>, id: SessionId) returns (filtered: seq<UserSession>)
      requires forall i, j | 0 <= i < j < |userSessions| :: userSessions[i].id != userSessions[j].id
      ensures IdsOf(filtered) == Without(IdsOf(userSessions), id)
      ensures forall j | 0 <= j < |filtered| :: exists k :: 0 <= k < |userSessions| && filtered[j] == userSessions[k]
      ensures forall j, k | 0 <= j < k < |filtered| :: filtered[j].id != filtered[k].id
    {
      filtered := [];
      for i := 0 to |userSessions|
        invariant IdsOf(filtered) == Without(IdsOf(userSessions[..i]), id)
        invariant forall j | 0 <= j < |filtered| :: exists k :: 0 <= k < i && filtered[j] == userSessions[k]
        invariant forall j, k | 0 <= j < k < |filtered| :: filtered[j].id != filtered[k].id
      {
        assert IdsOf(userSessions[..i + 1]) == IdsOf(userSessions[..i]) + [userSessions[i].id];
        assert IdsOf(filtered + [userSessions[i]]) == IdsOf(filtered) + [userSessions[i].id];
        if userSessions[i].id != id {
          filtered := filtered + [userSessions[i]];
        }
      }
      assert userSessions[..|userSessions|] == userSessions;
    }

    /** First half of Publish, under the read lock. */
    method CollectTargets(rows: seq<NewAck>) returns (targets: seq<UserSession>)
      requires Valid()
      ensures IdsOf(targets) == Targets(Reg(), rows)
      ensures forall i | 0 <= i < |targets| :: targets[i] in Members()
    {
      targets := [];
      for i := 0 to |rows|
        invariant IdsOf(targets) == Targets(Reg(), rows[..i])
        invariant forall j | 0 <= j < |targets| :: targets[j] in Members()
      {
        assert rows[..i + 1][..i] == rows[..i];
        var u := rows[i].key.user;
        if u in sessions {
          var userSessions := sessions[u];
          ghost var before := targets;
          for k := 0 to |userSessions|
            invariant targets == before + userSessions[..k]
            invariant forall j | 0 <= j < |targets| :: targets[j] in Members()
          {
            targets := targets + [userSessions[k]];
          }
          assert IdsOf(targets) == IdsOf(before) + IdsOf(userSessions);
        }
      }
      assert rows[..|rows|] == rows;
    }

    lemma ValidIsWellFormed()
      requires Valid()
      ensures WellFormed(Reg())
    {
      forall u | u in sessions ensures Distinct(Reg()[u]) && Reg()[u] != [] {
        forall i, j | 0 <= i < j < |Reg()[u]| ensures Reg()[u][i] != Reg()[u][j] {
          assert Reg()[u][i] == sessions[u][i].id && Reg()[u][j] == sessions[u][j].id;
        }
      }
      forall u, v, s | Registers(Reg(), u, s) && Registers(Reg(), v, s) ensures u == v {
        var i :| 0 <= i < |Reg()[u]| && Reg()[u][i] == s;
        var j :| 0 <= j < |Reg()[v]| && Reg()[v][j] == s;
        assert sessions[u][i].id == sessions[v][j].id;
      }
    }

    lemma SameIdSameObject(x: UserSession, y: UserSession)
      requires Valid() && x in Members() && y in Members() && x.id == y.id
      ensures x == y
    {}

    /** A publish that nothing interleaves with: every target session is offered
        the message exactly once, every other session is left alone. */
    method Publish(m: Message, rows: seq<NewAck>)
      requires Valid()
      requires forall i, j | 0 <= i < j < |rows| :: rows[i].key.user != rows[j].key.user
      modifies Members()
      ensures Valid() && Reg() == old(Reg())
      ensures forall x | x in old(Members()) ::
        if x.id in Targets(old(Reg()), rows) then Offered(old(x.Box()), m, x.Box()) else x.Box() == old(x.Box())
    {
      var targets := CollectTargets(rows);
      ValidIsWellFormed();
      TargetsExactlyOnce(Reg(), rows);
      forall i, j | 0 <= i < j < |targets| ensures targets[i] != targets[j] {
        assert IdsOf(targets)[i] != IdsOf(targets)[j];
      }
      for i := 0 to |targets|
        invariant forall x | x in old(Members()) ::
          if x in targets[..i] then Offered(old(x.Box()), m, x.Box()) else x.Box() == old(x.Box())
      {
        assert targets[i] !in targets[..i];
        targets[i].Offer(m);
        assert targets[..i + 1] == targets[..i] + [targets[i]];
      }
      forall i | 0 <= i < |targets| ensures targets[i].id in Targets(Reg(), rows) {
        assert IdsOf(targets)[i] == targets[i].id;
      }
      forall x | x in Members() && x.id in Targets(Reg(), rows) ensures x in targets {
        var i :| 0 <= i < |targets| && IdsOf(targets)[i] == x.id;
        SameIdSameObject(x, targets[i]);
      }
    }
  }
}
