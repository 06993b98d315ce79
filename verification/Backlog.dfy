/** Draining a user's backlog: the undelivered query is limited to 100 rows,
    so a long backlog takes several rounds of subscribe, store and ack. */
module Backlog {
  import opened Collections
  import opened MessageStore
  import opened StoreInvariants

  /** One batch holds everything that is pending exactly when the limit allows it. */
  lemma BatchIsCompleteIff(t: Tables, u: UserId, r: seq<Message>)
    requires StoredIffPending(t) && IsBatch(t, u, r)
    ensures (forall m | IsPending(t, m, u) :: m in Ids(r)) <==> |Undelivered(t, u)| <= 100
  {
    IdsCount(r);
    assert forall m | IsPending(t, m, u) :: m in Undelivered(t, u);
    SubsetCount(Ids(r), Undelivered(t, u));
    if forall m | IsPending(t, m, u) :: m in Ids(r) {
      assert Ids(r) == Undelivered(t, u);
    }
  }

  lemma {:induction false} IdsCount(r: seq<Message>)
    requires forall i, j | 0 <= i < j < |r| :: r[i].id != r[j].id
    ensures |Ids(r)| == |r|
  {
    if r == [] {
      assert Ids(r) == {};
    } else {
      var last := |r| - 1;
      IdsCount(r[..last]);
      IdsSplit(r);
    }
  }

  lemma IdsSplit(r: seq<Message>)
    requires r != []
    ensures Ids(r) == Ids(r[..|r| - 1]) + {r[|r| - 1].id}
  {
    var last := |r| - 1;
    forall m | m in Ids(r) ensures m in Ids(r[..last]) + {r[last].id} {
      var i :| 0 <= i < |r| && r[i].id == m;
      assert i < last ==> r[..last][i].id == m;
    }
    forall m | m in Ids(r[..last]) ensures m in Ids(r) {
      var i :| 0 <= i < last && r[..last][i].id == m;
      assert r[i].id == m;
    }
  }

  /** The user acks every message of a batch. */
  ghost function AckAll(t: Tables, r: seq<Message>, u: UserId, at: Time): Tables
    decreases |r|
  {
    if r == [] then t else Acknowledged(AckAll(t, r[..|r| - 1], u, at), r[|r| - 1].id, u, at)
  }

  lemma {:induction false} AckAllRemoves(t: Tables, r: seq<Message>, u: UserId, at: Time)
    requires StoredIffPending(t)
    ensures StoredIffPending(AckAll(t, r, u, at))
    ensures forall n, v :: IsPending(AckAll(t, r, u, at), n, v) <==> IsPending(t, n, v) && !(v == u && n in Ids(r))
    ensures forall n | n in AckAll(t, r, u, at).messages ::
              n in t.messages && AckAll(t, r, u, at).messages[n] == t.messages[n]
    decreases |r|
  {
    if r == [] {
      assert Ids(r) == {};
    } else {
      var rest := r[..|r| - 1];
      AckAllRemoves(t, rest, u, at);
      AckKeeps(AckAll(t, rest, u, at), r[|r| - 1].id, u, at);
      PendingAfterAck(AckAll(t, rest, u, at), r[|r| - 1].id, u, at);
      IdsSplit(r);
    }
  }

  /** One round: a batch is read, stored by the client, and acked as a whole. */
  ghost predicate Round(t: Tables, u: UserId, r: seq<Message>, at: Time, t': Tables) {
    IsBatch(t, u, r) && t' == AckAll(t, r, u, at)
  }

  lemma RoundLeaves(t: Tables, u: UserId, r: seq<Message>, at: Time, t': Tables)
    requires StoredIffPending(t) && Round(t, u, r, at, t')
    ensures StoredIffPending(t')
    ensures Undelivered(t', u) == Undelivered(t, u) - Ids(r)
    ensures |Undelivered(t', u)| == |Undelivered(t, u)| - Min(100, |Undelivered(t, u)|)
    // what stays is not older than what was taken
    ensures forall m, i | m in Undelivered(t', u) && 0 <= i < |r| :: r[i].sentAt <= t'.messages[m].sentAt
    // nobody else's backlog changes
    ensures forall v | v != u :: Undelivered(t', v) == Undelivered(t, v)
  {
    AckAllRemoves(t, r, u, at);
    IdsCount(r);
    forall v ensures Undelivered(t', v) == if v == u then Undelivered(t, u) - Ids(r) else Undelivered(t, v) {
      forall m ensures IsPending(t', m, v) ==> m in t'.messages {}
      forall m ensures IsPending(t, m, v) ==> m in t.messages {}
    }
    assert Ids(r) <= Undelivered(t, u);
    assert |Undelivered(t, u) - Ids(r)| == |Undelivered(t, u)| - |Ids(r)|;
  }

  /** States and batches of consecutive rounds with no new sends. */
  ghost predicate Rounds(ts: seq<Tables>, u: UserId, rs: seq<seq<Message>>, at: Time) {
    && |ts| == |rs| + 1
    && (forall i | 0 <= i < |rs| :: Round(ts[i], u, rs[i], at, ts[i + 1]))
  }

  /** After k rounds max(0, n - 100k) messages are left, so the backlog is empty
      after exactly ceil(n / 100) rounds and not before. */
  lemma {:induction false} BacklogDrains(ts: seq<Tables>, u: UserId, rs: seq<seq<Message>>, at: Time)
    requires Rounds(ts, u, rs, at) && StoredIffPending(ts[0])
    ensures StoredIffPending(ts[|rs|])
    ensures var n := |Undelivered(ts[0], u)|;
            |Undelivered(ts[|rs|], u)| == if n <= 100 * |rs| then 0 else n - 100 * |rs|
    ensures Undelivered(ts[|rs|], u) == {} <==> (|Undelivered(ts[0], u)| + 99) / 100 <= |rs|
    decreases |rs|
  {
    if rs != [] {
      var k := |rs| - 1;
      BacklogDrains(ts[..k + 1], u, rs[..k], at);
      RoundLeaves(ts[k], u, rs[k], at, ts[k + 1]);
    }
  }
}
