/** Every step of the concurrent requests and of the server keeps the invariants. */
module TokenSafety {
  import opened Collections
  import opened TokenClient
  import RT = RefreshTokens

  // ---------------------------------------------------------------------
  // Callers
  // ---------------------------------------------------------------------

  lemma EnterKeeps(s: State, c: CallerId)
    requires ClientInv(s) && CanEnter(s, c)
    ensures ClientInv(DoEnter(s, c))
  {}

  lemma ReadKeeps(s: State, c: CallerId)
    requires ClientInv(s) && CanRead(s, c)
    ensures ClientInv(DoRead(s, c))
  {}

  lemma LockKeeps(s: State, c: CallerId)
    requires ClientInv(s) && CanLock(s, c)
    ensures ClientInv(DoLock(s, c))
  {}

  /** The lock holder leaves with credentials whose token, if any, is unused. */
  lemma DoneKeeps(s: State, c: CallerId, creds: Creds, r: Result)
    requires ClientInv(s) && HasLock(s.callers, c)
    requires creds.refresh.Some? ==>
      creds.refresh.value in UnusedIn(s) && creds.refresh.value !in s.handed && creds.refresh.value in s.server.subject
    ensures ClientInv(Done(s, c, creds, r))
  {}

  /** The stored token is presented: it is no longer unused, and the new call is
      the only one that carries it. */
  lemma PresentKeepsHistory(presented: seq<Jti>, others: set<Jti>, subject: map<Jti, RT.UserId>,
                            accepted: seq<Jti>, j: Jti)
    requires HistoryInv(presented, others, subject) && AcceptedInv(accepted, presented, others)
    requires j in UnusedSet(subject, presented, others)
    ensures HistoryInv(presented + [j], others, subject) && AcceptedInv(accepted, presented + [j], others)
    ensures UnusedSet(subject, presented + [j], others) == UnusedSet(subject, presented, others) - {j}
    ensures j !in accepted
  {}

  lemma PresentKeepsSent(calls: Calls, presented: seq<Jti>, accepted: seq<Jti>, c: CallerId, j: Jti)
    requires SentInv(calls, presented, accepted) && j !in accepted && j !in presented && c !in calls
    ensures SentInv(calls[c := Sent(j)], presented + [j], accepted)
  {
    var calls' := calls[c := Sent(j)];
    assert forall d, i | d != c :: IsSent(calls', d, i) <==> IsSent(calls, d, i);
  }

  lemma AskKeepsCalls(s: State, c: CallerId, j: Jti, unused: set<Jti>)
    requires CallInv(s.calls, s.callers, s.server.taken) && LockInv(s.lock, s.callers) && At(s, c, Holding)
    ensures c !in s.calls && s.lock == Some(c)
    ensures var s' := DoAsk(s, c, j);
            && CallInv(s'.calls, s'.callers, s.server.taken) && LockInv(s'.lock, s'.callers)
            && AnswerInv(s'.callers, s'.calls, unused, s.handed)
  {
    assert HasLock(s.callers, c);
    forall d | Waits(DoAsk(s, c, j).callers, d) ensures d == c {
      assert d != c ==> HasLock(s.callers, d);
    }
  }

  lemma AskKeeps(s: State, c: CallerId)
    requires ClientInv(s) && At(s, c, Holding) && s.creds.refresh.Some?
    ensures ClientInv(DoAsk(s, c, s.creds.refresh.value))
  {
    var j := s.creds.refresh.value;
    AskKeepsCalls(s, c, j, UnusedIn(s) - {j});
    assert j in UnusedIn(s);
    PresentKeepsHistory(s.presented, s.others, s.server.subject, s.server.accepted, j);
    PresentKeepsSent(s.calls, s.presented, s.server.accepted, c, j);
  }

  lemma RecheckKeeps(s: State, c: CallerId)
    requires ClientInv(s) && At(s, c, Holding)
    ensures ClientInv(DoRecheck(s, c))
  {
    assert HasLock(s.callers, c);
    if Renewed(s.creds, s.now) {
      DoneKeeps(s, c, s.creds, Bearer(s.creds.access.value));
    } else if !CanRefresh(s.creds, s.hasClient) {
      DoneKeeps(s, c, CLEARED, SessionExpired);
    } else {
      AskKeeps(s, c);
    }
  }

  lemma ReplyKeeps(s: State, c: CallerId)
    requires ClientInv(s) && CanReply(s, c)
    ensures ClientInv(DoReply(s, c))
  {
    assert s.calls[c].refresh in UnusedIn(s);
    var creds := s.creds.(access := Some(s.calls[c].access), refresh := Some(s.calls[c].refresh));
    DoneKeeps(s, c, creds, Bearer(s.calls[c].access));
  }

  // ---------------------------------------------------------------------
  // The server
  // ---------------------------------------------------------------------

  /** The server accepts a token this client presents exactly if it has not
      expired by then and the server has not been restarted since it issued it. */
  lemma TakeIsAcceptedIff(s: State, c: CallerId)
    requires Inv(s) && CanTake(s, c)
    ensures var j := s.calls[c].token;
            RT.Passes(s.server, j, s.server.subject[j]) <==> RT.Unexpired(s.server, j) && j in s.server.recent
  {
    assert IsSent(s.calls, c, s.calls[c].token);
  }

  lemma TakeKeepsSent(calls: Calls, presented: seq<Jti>, accepted: seq<Jti>, c: CallerId, j: Jti, call: Call)
    requires SentInv(calls, presented, accepted) && IsSent(calls, c, j) && !call.Sent?
    ensures SentInv(calls[c := call], presented, accepted + [j]) && SentInv(calls[c := call], presented, accepted)
  {
    var calls' := calls[c := call];
    assert forall d, i :: IsSent(calls', d, i) ==> d != c && IsSent(calls, d, i);
    forall d, i | IsSent(calls', d, i) ensures i != j {
      assert IsSent(calls, d, i) && IsSent(calls, c, j);
    }
  }

  lemma TakeKeepsCalls(s: State, c: CallerId, call: Call, taken': map<RT.CallId, RT.Taken>, unused: set<Jti>)
    requires CallInv(s.calls, s.callers, s.server.taken) && AnswerInv(s.callers, s.calls, unused, s.handed)
    requires c in s.calls && !call.Answered?
    requires forall d | d != c :: d in taken' <==> d in s.server.taken
    requires c in taken' <==> call.InServer?
    ensures CallInv(s.calls[c := call], s.callers, taken') && AnswerInv(s.callers, s.calls[c := call], unused, s.handed)
  {}

  lemma TakeKeeps(s: State, c: CallerId)
    requires ClientInv(s) && CanTake(s, c)
    ensures ClientInv(DoTake(s, c))
  {
    var j := s.calls[c].token;
    assert IsSent(s.calls, c, j);
    var s' := DoTake(s, c);
    var call := s'.calls[c];
    TakeKeepsSent(s.calls, s.presented, s.server.accepted, c, j, call);
    TakeKeepsCalls(s, c, call, s'.server.taken, UnusedIn(s));
    assert UnusedIn(s') == UnusedIn(s);
  }

  /** A fresh token of this client's: everything else about unused tokens stays. */
  lemma FreshIsUnused(s: State, j: Jti, u: RT.UserId)
    requires ClientInv(s) && j !in s.server.subject
    ensures j !in UnusedIn(s) && j !in s.handed && s.creds.refresh != Some(j)
    ensures UnusedSet(s.server.subject[j := u], s.presented, s.others) == UnusedIn(s) + {j}
    ensures UnusedSet(s.server.subject[j := u], s.presented, s.others + {j}) == UnusedIn(s)
    ensures HistoryInv(s.presented, s.others + {j}, s.server.subject[j := u])
    ensures HistoryInv(s.presented, s.others, s.server.subject[j := u])
    ensures AcceptedInv(s.server.accepted, s.presented, s.others + {j})
  {
  }

  lemma GrantKeeps(s: State, c: CallerId, a: Access, j: Jti)
    requires ClientInv(s) && CanGrant(s, c, j)
    ensures ClientInv(DoGrant(s, c, a, j))
  {
    var u := s.server.taken[c].user;
    FreshIsUnused(s, j, u);
    GrantKeepsCalls(s, c, a, j);
  }

  lemma GrantKeepsCalls(s: State, c: CallerId, a: Access, j: Jti)
    requires ClientInv(s) && CanGrant(s, c, j) && j !in s.handed
    ensures var calls' := s.calls[c := Answered(a, j)];
            && CallInv(calls', s.callers, s.server.taken - {c}) && AnswerInv(s.callers, calls', UnusedIn(s) + {j}, s.handed)
            && forall d, i :: IsSent(calls', d, i) <==> IsSent(s.calls, d, i)
  {}

  lemma DropKeeps(s: State, c: CallerId)
    requires ClientInv(s) && CanDrop(s, c)
    ensures ClientInv(DoDrop(s, c))
  {
    TakeKeepsCalls(s, c, Failed, s.server.taken - {c}, UnusedIn(s));
    var s' := DoDrop(s, c);
    assert forall d, i :: IsSent(s'.calls, d, i) <==> IsSent(s.calls, d, i);
  }

  lemma LoginKeeps(s: State, j: Jti, u: RT.UserId)
    requires ClientInv(s) && j !in s.server.subject
    ensures ClientInv(s.(server := RT.Login(s.server, j, u), handed := s.handed + {j}))
  {
    FreshIsUnused(s, j, u);
    assert forall c | Waits(s.callers, c) && c in s.calls && s.calls[c].Answered? :: s.calls[c].refresh in UnusedIn(s);
  }

  lemma SetTokensKeeps(s: State, a: Access, j: Jti)
    requires ClientInv(s) && s.lock.None? && j in s.handed
    ensures ClientInv(s.(creds := Creds(true, Some(a), Some(j)), handed := s.handed - {j}))
  {
    assert j in UnusedIn(s);
    assert forall c :: Waits(s.callers, c) ==> HasLock(s.callers, c);
  }

  // ---------------------------------------------------------------------
  // Other clients
  // ---------------------------------------------------------------------

  lemma OtherLoginKeeps(s: State, j: Jti, u: RT.UserId)
    requires ClientInv(s) && j !in s.server.subject
    ensures ClientInv(s.(server := RT.Login(s.server, j, u), others := s.others + {j}))
  {
    FreshIsUnused(s, j, u);
  }

  lemma OtherTakeKeeps(s: State, call: RT.CallId, j: Jti)
    requires ClientInv(s) && CanOtherTake(s, call, j)
    ensures ClientInv(DoOtherTake(s, call, j))
  {
    var s' := DoOtherTake(s, call, j);
    assert UnusedIn(s') == UnusedIn(s);
    assert j !in s.presented;
  }

  lemma OtherGrantKeeps(s: State, call: RT.CallId, j: Jti)
    requires ClientInv(s) && call in s.server.taken && call !in s.callers && j !in s.server.subject
    ensures ClientInv(s.(server := RT.Grant(s.server, call, j), others := s.others + {j}))
  {
    FreshIsUnused(s, j, s.server.taken[call].user);
  }

  lemma OtherDropKeeps(s: State, call: RT.CallId)
    requires ClientInv(s) && call in s.server.taken && call !in s.callers
    ensures ClientInv(s.(server := RT.Drop(s.server, call)))
  {
  }

  /** A restart refuses what was issued before, but it changes nothing about
      which tokens this client has presented. */
  lemma ServerRestartKeeps(s: State)
    requires ClientInv(s)
    ensures ClientInv(DoServerRestart(s))
  {
    var s' := DoServerRestart(s);
    assert UnusedIn(s') == UnusedIn(s);
    assert forall d, i :: IsSent(s'.calls, d, i) <==> IsSent(s.calls, d, i);
  }

  lemma ClearKeeps(s: State)
    requires ClientInv(s)
    ensures ClientInv(s.(creds := CLEARED))
  {}

  // ---------------------------------------------------------------------
  // All steps
  // ---------------------------------------------------------------------

  predicate IsOthers(step: Step) {
    step.OtherLogin? || step.OtherTake? || step.OtherGrant? || step.OtherDrop? || step.ServerRestart? || step.ServerAdvance?
  }

  lemma OthersKeepServer(s: State, step: Step)
    requires RT.Inv(s.server) && Enabled(s, step) && IsOthers(step)
    ensures RT.Inv(Next(s, step).server)
  {
    match step
    case OtherLogin(j, u) => RT.StepKeeps(s.server, RT.DoLogin(j, u));
    case OtherTake(call, j) => RT.StepKeeps(s.server, RT.DoTake(call, j, s.server.subject[j]));
    case OtherGrant(call, j) => RT.StepKeeps(s.server, RT.DoGrant(call, j));
    case OtherDrop(call) => RT.StepKeeps(s.server, RT.DoDrop(call));
    case ServerRestart => RT.StepKeeps(s.server, RT.Restart);
    case ServerAdvance(now') => RT.StepKeeps(s.server, RT.Advance(now'));
  }

  lemma OwnStepKeepsServer(s: State, step: Step)
    requires RT.Inv(s.server) && Enabled(s, step) && !IsOthers(step)
    ensures RT.Inv(Next(s, step).server)
  {
    match step
    case ServerTake(c) => RT.StepKeeps(s.server, RT.DoTake(c, s.calls[c].token, s.server.subject[s.calls[c].token]));
    case ServerGrant(c, a, j) => RT.StepKeeps(s.server, RT.DoGrant(c, j));
    case ServerDrop(c) => RT.StepKeeps(s.server, RT.DoDrop(c));
    case Login(j, u) => RT.StepKeeps(s.server, RT.DoLogin(j, u));
    case _ =>
  }

  lemma StepKeepsClient(s: State, step: Step)
    requires ClientInv(s) && Enabled(s, step)
    ensures ClientInv(Next(s, step))
  {
    match step
    case Enter(c) => EnterKeeps(s, c);
    case ReadCreds(c) => ReadKeeps(s, c);
    case Lock(c) => LockKeeps(s, c);
    case Recheck(c) => RecheckKeeps(s, c);
    case ServerTake(c) => TakeKeeps(s, c);
    case ServerGrant(c, a, j) => GrantKeeps(s, c, a, j);
    case ServerDrop(c) => DropKeeps(s, c);
    case Reply(c) => ReplyKeeps(s, c);
    case GiveUp(c) => DoneKeeps(s, c, CLEARED, SessionExpired);
    case SetClient =>
    case Login(j, u) => LoginKeeps(s, j, u);
    case SetTokens(a, j) => SetTokensKeeps(s, a, j);
    case Clear => ClearKeeps(s);
    case OtherLogin(j, u) => OtherLoginKeeps(s, j, u);
    case OtherTake(call, j) => OtherTakeKeeps(s, call, j);
    case OtherGrant(call, j) => OtherGrantKeeps(s, call, j);
    case OtherDrop(call) => OtherDropKeeps(s, call);
    case ServerRestart => ServerRestartKeeps(s);
    case ServerAdvance(now') =>
    case Advance(now') =>
  }

  lemma StepKeeps(s: State, step: Step)
    requires Inv(s) && Enabled(s, step)
    ensures Inv(Next(s, step))
  {
    if IsOthers(step) {
      OthersKeepServer(s, step);
    } else {
      OwnStepKeepsServer(s, step);
    }
    StepKeepsClient(s, step);
  }
}
