/** What holds over every run of the token client against the server. */
module TokenTheorems {
  import opened Collections
  import opened TokenClient
  import opened TokenSafety
  import RT = RefreshTokens

  ghost predicate IsRun(states: seq<State>, steps: seq<Step>) {
    && |states| == |steps| + 1
    && (forall i | 0 <= i < |steps| :: Enabled(states[i], steps[i]) && states[i + 1] == Next(states[i], steps[i]))
  }

  lemma InitInv()
    ensures Inv(INIT)
  {}

  lemma {:induction false} RunKeeps(states: seq<State>, steps: seq<Step>, i: nat)
    requires IsRun(states, steps) && Inv(states[0]) && i < |states|
    ensures Inv(states[i])
  {
    if i > 0 {
      RunKeeps(states, steps, i - 1);
      StepKeeps(states[i - 1], steps[i - 1]);
    }
  }

  /** However many replies were lost, tokens expired and servers restarted: no
      token is ever presented twice, and whenever nobody holds the write lock the
      stored refresh token has never been presented. It is then still active on
      the server exactly if the server was not restarted since it issued it. */
  lemma StoredTokenIsUnused(states: seq<State>, steps: seq<Step>, i: nat)
    requires IsRun(states, steps) && states[0] == INIT && i < |states|
    ensures Distinct(states[i].presented)
    ensures states[i].lock.None? && states[i].creds.refresh.Some? ==>
      var j := states[i].creds.refresh.value;
      && j !in states[i].presented && j !in states[i].server.accepted
      && (j in states[i].server.active <==> j in states[i].server.recent)
  {
    InitInv();
    RunKeeps(states, steps, i);
  }

  /** Step `i` issues token `j` to this client, by a login or a refresh. */
  predicate IssuesAt(steps: seq<Step>, i: nat, j: Jti) {
    i < |steps| && ((steps[i].Login? && steps[i].j == j) || (steps[i].ServerGrant? && steps[i].j == j))
  }

  predicate RestartsIn(steps: seq<Step>, i: nat, k: nat) {
    exists m :: i < m < k <= |steps| && steps[m].ServerRestart?
  }

  ghost predicate Known(s: RT.Server, j: Jti, expiry: Time, recent: bool) {
    j in s.subject && j in s.expiry && s.expiry[j] == expiry && (j in s.recent <==> recent)
  }

  lemma StepOnToken(s: State, step: Step, j: Jti, expiry: Time, recent: bool)
    requires Enabled(s, step) && Known(s.server, j, expiry, recent)
    ensures Known(Next(s, step).server, j, expiry, recent && !step.ServerRestart?)
  {}

  lemma IssueIsKnown(s: State, step: Step, j: Jti)
    requires Enabled(s, step) && IssuesAt([step], 0, j)
    ensures Known(Next(s, step).server, j, s.server.now + RT.LIFETIME, true)
  {}

  lemma RestartsOn(steps: seq<Step>, i: nat, k: nat)
    requires i < k < |steps|
    ensures RestartsIn(steps, i, k + 1) <==> RestartsIn(steps, i, k) || steps[k].ServerRestart?
  {
    if m :| i < m < k + 1 <= |steps| && steps[m].ServerRestart? {
      assert m < k || m == k;
    }
  }

  lemma {:induction false} TokenSinceIssue(states: seq<State>, steps: seq<Step>, i: nat, j: Jti, k: nat)
    requires IsRun(states, steps) && IssuesAt(steps, i, j) && i < k < |states|
    ensures Known(states[k].server, j, states[i].server.now + RT.LIFETIME, !RestartsIn(steps, i, k))
    decreases k
  {
    if k == i + 1 {
      assert Enabled(states[i], steps[i]) && states[k] == Next(states[i], steps[i]);
      IssueIsKnown(states[i], steps[i], j);
    } else {
      TokenSinceIssue(states, steps, i, j, k - 1);
      StepOnToken(states[k - 1], steps[k - 1], j, states[i].server.now + RT.LIFETIME, !RestartsIn(steps, i, k - 1));
      RestartsOn(steps, i, k - 1);
    }
  }

  lemma TakeOutcome(s: State, c: CallerId, j: Jti)
    requires Inv(s) && CanTake(s, c) && s.calls[c] == Sent(j)
    ensures var s' := DoTake(s, c);
            && c in s'.calls && (s'.calls[c].InServer? || s'.calls[c].Failed?)
            && (s'.calls[c].InServer? <==> j in s.server.expiry && s.server.now < s.server.expiry[j] && j in s.server.recent)
            && s'.server.accepted == (if s'.calls[c].InServer? then s.server.accepted + [j] else s.server.accepted)
  {
    TakeIsAcceptedIff(s, c);
  }

  /** A token issued to this client by step `i` and presented at step `k` is
      accepted exactly within seven days of its issue and with no restart of the
      server in between; never is it refused for having been used before. */
  lemma AcceptedIff(states: seq<State>, steps: seq<Step>, i: nat, k: nat, j: Jti)
    requires IsRun(states, steps) && states[0] == INIT && IssuesAt(steps, i, j) && i < k < |steps|
    requires steps[k].ServerTake? && steps[k].c in states[k].calls && states[k].calls[steps[k].c] == Sent(j)
    ensures var c, s, s' := steps[k].c, states[k], states[k + 1];
            && c in s'.calls && (s'.calls[c].InServer? || s'.calls[c].Failed?)
            && (s'.calls[c].InServer? <==> s.server.now < states[i].server.now + 604800 && !RestartsIn(steps, i, k))
            && s'.server.accepted == (if s'.calls[c].InServer? then s.server.accepted + [j] else s.server.accepted)
  {
    InitInv();
    RunKeeps(states, steps, k);
    TokenSinceIssue(states, steps, i, j, k);
    assert Enabled(states[k], steps[k]) && states[k + 1] == Next(states[k], steps[k]);
    TakeOutcome(states[k], steps[k].c, j);
  }

  // ---------------------------------------------------------------------
  // What a single caller does
  // ---------------------------------------------------------------------

  /** The look under the read lock: no token, a token that is not past its expiry,
      or a token that has to be renewed. */
  lemma ReadOutcome(s: State, c: CallerId)
    requires Enabled(s, ReadCreds(c))
    ensures var p := Next(s, ReadCreds(c)).callers[c];
            && (s.creds.access.None? ==> p == Finished(Unauthenticated))
            && (s.creds.access.Some? && s.now <= s.creds.access.value.exp ==> p == Finished(Bearer(s.creds.access.value)))
            && (s.creds.access.Some? && s.now > s.creds.access.value.exp ==> p == SawExpired)
    ensures Next(s, ReadCreds(c)).creds == s.creds && Next(s, ReadCreds(c)).presented == s.presented
  {}

  /** The second look under the write lock: a token before its expiry is used, the
      session is lost if a refresh is impossible, and else the stored refresh
      token is presented, once. */
  lemma RecheckOutcome(s: State, c: CallerId)
    requires Enabled(s, Recheck(c))
    ensures var s' := Next(s, Recheck(c));
            if s.creds.access.Some? && s.now < s.creds.access.value.exp
            then s'.callers[c] == Finished(Bearer(s.creds.access.value)) && s'.creds == s.creds && s'.presented == s.presented
            else if !s.hasClient || s.creds.refresh.None? || !s.creds.user
            then s'.callers[c] == Finished(SessionExpired) && s'.creds == CLEARED && s'.presented == s.presented
            else
              && s'.callers[c] == Asking(s.creds.refresh.value) && s'.creds == s.creds
              && s'.presented == s.presented + [s.creds.refresh.value] && s'.lock == s.lock
  {}

  /** The reply is stored and used. */
  lemma ReplyOutcome(s: State, c: CallerId)
    requires Enabled(s, Reply(c))
    ensures var s', a := Next(s, Reply(c)), s.calls[c];
            && s'.callers[c] == Finished(Bearer(a.access)) && s'.lock.None? && s'.presented == s.presented
            && s'.creds.access == Some(a.access) && s'.creds.refresh == Some(a.refresh) && s'.creds.user == s.creds.user
  {}

  // ---------------------------------------------------------------------
  // Refused tokens
  // ---------------------------------------------------------------------

  ghost predicate Reachable(s: State) {
    exists states: seq<State>, steps: seq<Step> :: IsRun(states, steps) && states[0] == INIT && states[|steps|] == s
  }

  lemma ReachStep(s: State, step: Step)
    requires Reachable(s) && Enabled(s, step)
    ensures Reachable(Next(s, step))
  {
    var states: seq<State>, steps: seq<Step> :| IsRun(states, steps) && states[0] == INIT && states[|steps|] == s;
    var states', steps' := states + [Next(s, step)], steps + [step];
    assert IsRun(states', steps') && states'[0] == INIT && states'[|steps'|] == Next(s, step);
  }

  const ISSUED: RT.Server :=
    RT.Server(map[1 := 7], map[], 0, map[1 := 7], map[1 := RT.Family(1)], map[1 := RT.LIFETIME], {1}, [])

  /** A client that is logged in with token 1 and an access token that has expired. */
  const LOGGED_IN: State :=
    State(Creds(true, Some(Access(0, 0)), Some(1)), true, None, map[], map[], ISSUED, 1, [], {}, {})

  lemma LoggedInIsReachable()
    ensures Reachable(LOGGED_IN)
  {
    assert IsRun([INIT], []) && [INIT][0] == INIT;
    ReachStep(INIT, SetClient);
    var s1 := INIT.(hasClient := true);
    ReachStep(s1, Login(1, 7));
    var s2 := s1.(server := ISSUED, handed := {1});
    assert Next(s1, Login(1, 7)) == s2;
    ReachStep(s2, SetTokens(Access(0, 0), 1));
    var s3 := s2.(creds := Creds(true, Some(Access(0, 0)), Some(1)), handed := {});
    assert Next(s2, SetTokens(Access(0, 0), 1)) == s3;
    ReachStep(s3, Advance(1));
  }

  /** The same client with one caller waiting for its Refresh call. */
  const ASKING: State :=
    LOGGED_IN.(lock := Some(0), callers := map[0 := Asking(1)], calls := map[0 := Sent(1)], presented := [1])

  lemma AskingIsReachable()
    ensures Reachable(ASKING)
  {
    LoggedInIsReachable();
    ReachStep(LOGGED_IN, Enter(0));
    var s1 := LOGGED_IN.(callers := map[0 := Entered]);
    assert DoEnter(LOGGED_IN, 0) == s1;
    ReachStep(s1, ReadCreds(0));
    var s2 := s1.(callers := map[0 := SawExpired]);
    assert DoRead(s1, 0) == s2;
    ReachStep(s2, Lock(0));
    var s3 := s2.(callers := map[0 := Holding], lock := Some(0));
    assert DoLock(s2, 0) == s3;
    ReachStep(s3, Recheck(0));
    assert DoRecheck(s3, 0) == ASKING;
  }

  /** The server has looked at a token it issued to this client, and that nobody
      presented before, and has refused it. */
  predicate Refused(s: State, c: CallerId, j: Jti) {
    c in s.calls && s.calls[c].Failed? && s.presented == [j] && j in s.server.subject && s.server.accepted == []
  }

  /** After seven days the token is refused. */
  lemma RefusedAfterExpiry()
    ensures exists s :: Reachable(s) && Refused(s, 0, 1) && s.server.recent == {1}
  {
    AskingIsReachable();
    ReachStep(ASKING, ServerAdvance(RT.LIFETIME));
    var s1 := ASKING.(server := ISSUED.(now := RT.LIFETIME));
    ReachStep(s1, ServerTake(0));
    assert Refused(DoTake(s1, 0), 0, 1);
  }

  /** After a restart it is refused at once. */
  lemma RefusedAfterRestart()
    ensures exists s :: Reachable(s) && Refused(s, 0, 1) && RT.Unexpired(s.server, 1)
  {
    AskingIsReachable();
    ReachStep(ASKING, ServerRestart);
    var s1 := DoServerRestart(ASKING);
    assert s1.calls[0] == Sent(1);
    ReachStep(s1, ServerTake(0));
    assert Refused(DoTake(s1, 0), 0, 1);
  }

  // ---------------------------------------------------------------------
  // One refresh for any number of callers
  // ---------------------------------------------------------------------

  /** A session whose access token has just expired, nobody refreshing it. */
  predicate Lapsed(s: State) {
    && s.lock.None? && s.hasClient && s.creds.user && s.creds.refresh.Some?
    && s.creds.access.Some? && s.creds.access.value.exp < s.now
  }

  /** The client waits for its reply, keeps its session, and the access token
      the server issues stays unexpired: up to `h`, which is not reached. */
  predicate Calm(step: Step, h: Time) {
    match step
    case GiveUp(_) => false
    case SetTokens(_, _) => false
    case Clear => false
    case ServerGrant(_, a, _) => h <= a.exp
    case Advance(now') => now' < h
    case _ => true
  }

  /** The callers that finished since `s0`. */
  predicate FinishedSince(s0: State, callers: Callers, c: CallerId) {
    c in callers && callers[c].Finished? && !At(s0, c, callers[c])
  }

  /** Nobody asked yet. */
  ghost predicate NotAsked(s0: State, s: State) {
    && s.creds == s0.creds && s.presented == s0.presented
    && (forall c :: !Waits(s.callers, c))
    && (forall c :: !FinishedSince(s0, s.callers, c))
  }

  /** One caller asked and is still waiting. */
  ghost predicate OneAsks(s0: State, s: State, h: Time) {
    && s.creds == s0.creds && s0.creds.refresh.Some? && s.presented == s0.presented + [s0.creds.refresh.value]
    && Asked(s.lock, s.callers)
    && (s.lock.value in s.calls && s.calls[s.lock.value].Answered? ==> h <= s.calls[s.lock.value].access.exp)
    && (forall c :: !FinishedSince(s0, s.callers, c))
  }

  predicate AnsweredWith(calls: Calls, c: CallerId, a: Access) {
    c in calls && calls[c].Answered? && calls[c].access == a
  }

  /** The one answer is stored, and whoever finished carries it. */
  ghost predicate Shared(s0: State, s: State, h: Time) {
    && s0.creds.refresh.Some? && s.presented == s0.presented + [s0.creds.refresh.value]
    && (forall c :: !Waits(s.callers, c))
    && s.creds.access.Some? && h <= s.creds.access.value.exp
    && (exists c :: AnsweredWith(s.calls, c, s.creds.access.value))
    && (forall c | FinishedSince(s0, s.callers, c) :: s.callers[c].result == Bearer(s.creds.access.value))
  }

  ghost predicate Wave(s0: State, s: State, h: Time) {
    && s.hasClient && s0.now <= s.now < h
    && (NotAsked(s0, s) || OneAsks(s0, s, h) || Shared(s0, s, h))
  }

  predicate CallerStep(step: Step) {
    step.Enter? || step.ReadCreds? || step.Lock? || step.Recheck? || step.Reply?
  }

  lemma ReadKeepsWave(s0: State, s: State, c: CallerId, h: Time)
    requires Lapsed(s0) && Wave(s0, s, h) && LockInv(s.lock, s.callers) && CanRead(s, c)
    ensures Wave(s0, DoRead(s, c), h)
  {
    var s' := DoRead(s, c);
    assert forall d | d != c :: FinishedSince(s0, s'.callers, d) <==> FinishedSince(s0, s.callers, d);
    assert forall d :: Waits(s'.callers, d) ==> Waits(s.callers, d);
  }

  lemma LockKeepsWave(s0: State, s: State, c: CallerId, h: Time)
    requires Lapsed(s0) && Wave(s0, s, h) && CanLock(s, c)
    ensures Wave(s0, DoLock(s, c), h)
  {
    var s' := DoLock(s, c);
    assert forall d :: FinishedSince(s0, s'.callers, d) ==> FinishedSince(s0, s.callers, d);
    assert forall d :: Waits(s'.callers, d) ==> Waits(s.callers, d);
  }

  lemma EnterKeepsWave(s0: State, s: State, c: CallerId, h: Time)
    requires Lapsed(s0) && Wave(s0, s, h) && CanEnter(s, c)
    ensures Wave(s0, DoEnter(s, c), h)
  {
    var s' := DoEnter(s, c);
    assert forall d :: FinishedSince(s0, s'.callers, d) ==> FinishedSince(s0, s.callers, d);
    assert forall d :: Waits(s'.callers, d) ==> Waits(s.callers, d);
    assert Asked(s.lock, s.callers) ==> s.lock.value != c;
  }

  /** The second look: the first caller asks, every later one reuses. */
  lemma RecheckKeepsWave(s0: State, s: State, c: CallerId, h: Time)
    requires Lapsed(s0) && Wave(s0, s, h) && LockInv(s.lock, s.callers) && At(s, c, Holding)
    ensures Wave(s0, DoRecheck(s, c), h)
  {
    assert HasLock(s.callers, c);
    var s' := DoRecheck(s, c);
    assert forall d | d != c :: FinishedSince(s0, s'.callers, d) <==> FinishedSince(s0, s.callers, d);
    assert forall d | d != c :: Waits(s'.callers, d) <==> Waits(s.callers, d);
    if NotAsked(s0, s) {
      assert OneAsks(s0, s', h);
    } else {
      assert Shared(s0, s, h);
      assert Shared(s0, s', h);
    }
  }

  lemma ReplyKeepsWave(s0: State, s: State, c: CallerId, h: Time)
    requires Lapsed(s0) && Wave(s0, s, h) && LockInv(s.lock, s.callers) && CanReply(s, c)
    ensures Wave(s0, DoReply(s, c), h)
  {
    assert HasLock(s.callers, c);
    assert OneAsks(s0, s, h);
    var s' := DoReply(s, c);
    forall d ensures !Waits(s'.callers, d) {
      assert Waits(s.callers, d) ==> HasLock(s.callers, d);
    }
    assert AnsweredWith(s'.calls, c, s'.creds.access.value);
    assert forall d | d != c :: FinishedSince(s0, s'.callers, d) <==> FinishedSince(s0, s.callers, d);
  }

  lemma CallerStepKeepsWave(s0: State, s: State, step: Step, h: Time)
    requires Lapsed(s0) && Wave(s0, s, h) && LockInv(s.lock, s.callers) && Enabled(s, step) && CallerStep(step)
    ensures Wave(s0, Next(s, step), h)
  {
    match step
    case Enter(c) => EnterKeepsWave(s0, s, c, h);
    case ReadCreds(c) => ReadKeepsWave(s0, s, c, h);
    case Lock(c) => LockKeepsWave(s0, s, c, h);
    case Recheck(c) => RecheckKeepsWave(s0, s, c, h);
    case Reply(c) => ReplyKeepsWave(s0, s, c, h);
  }

  /** Steps outside the callers leave their positions and the session alone,
      and an answer once given stays. */
  lemma OtherStepFrame(s: State, step: Step, h: Time)
    requires Enabled(s, step) && !CallerStep(step) && Calm(step, h) && s.now < h
    ensures var s' := Next(s, step);
            && s'.creds == s.creds && s'.callers == s.callers && s'.lock == s.lock && s'.presented == s.presented
            && s.now <= s'.now < h && (s.hasClient ==> s'.hasClient)
            && (forall c | c in s.calls && s.calls[c].Answered? :: c in s'.calls && s'.calls[c] == s.calls[c])
            && (forall c | c in s'.calls && s'.calls[c].Answered? ::
                  (c in s.calls && s'.calls[c] == s.calls[c]) || h <= s'.calls[c].access.exp)
  {}

  lemma OtherStepKeepsWave(s0: State, s: State, step: Step, h: Time)
    requires Lapsed(s0) && Wave(s0, s, h) && Enabled(s, step) && !CallerStep(step) && Calm(step, h)
    ensures Wave(s0, Next(s, step), h)
  {
    OtherStepFrame(s, step, h);
    var s' := Next(s, step);
    if NotAsked(s0, s) {
      assert NotAsked(s0, s');
    } else if OneAsks(s0, s, h) {
      assert OneAsks(s0, s', h);
    } else {
      var c :| AnsweredWith(s.calls, c, s.creds.access.value);
      assert AnsweredWith(s'.calls, c, s'.creds.access.value);
      assert Shared(s0, s', h);
    }
  }

  lemma NobodyWaits(lock: Option<CallerId>, callers: Callers)
    requires LockInv(lock, callers) && lock.None?
    ensures forall c :: !Waits(callers, c)
  {
    assert forall c :: Waits(callers, c) ==> HasLock(callers, c);
  }

  lemma {:induction false} RunKeepsWave(states: seq<State>, steps: seq<Step>, h: Time, i: nat)
    requires IsRun(states, steps) && Inv(states[0]) && Lapsed(states[0]) && states[0].now < h
    requires i < |states| && forall k | 0 <= k < |steps| :: Calm(steps[k], h)
    ensures Wave(states[0], states[i], h)
  {
    if i == 0 {
      NobodyWaits(states[0].lock, states[0].callers);
      assert NotAsked(states[0], states[0]);
    } else {
      RunKeepsWave(states, steps, h, i - 1);
      RunKeeps(states, steps, i - 1);
      var s, step := states[i - 1], steps[i - 1];
      if CallerStep(step) {
        CallerStepKeepsWave(states[0], s, step, h);
      } else {
        OtherStepKeepsWave(states[0], s, step, h);
      }
    }
  }

  /** Any number of callers that find the access token expired make one Refresh
      call between them: at most one token is presented, and as soon as any of
      them finishes exactly one was, its answer is stored, and every caller that
      finished carries the access token of that answer. */
  lemma OneRefreshForAll(states: seq<State>, steps: seq<Step>, h: Time, i: nat)
    requires IsRun(states, steps) && Inv(states[0]) && Lapsed(states[0]) && states[0].now < h
    requires i < |states| && forall k | 0 <= k < |steps| :: Calm(steps[k], h)
    ensures states[i].presented == states[0].presented
         || states[i].presented == states[0].presented + [states[0].creds.refresh.value]
    ensures forall c | FinishedSince(states[0], states[i].callers, c) ::
              && states[i].presented == states[0].presented + [states[0].creds.refresh.value]
              && states[i].creds.access.Some?
              && states[i].callers[c].result == Bearer(states[i].creds.access.value)
              && exists d :: AnsweredWith(states[i].calls, d, states[i].creds.access.value)
  {
    RunKeepsWave(states, steps, h, i);
  }

  // ---------------------------------------------------------------------
  // The same when the reply is lost
  // ---------------------------------------------------------------------

  /** As `Calm`, but callers may give up and the session may be cleared. */
  predicate Rough(step: Step, h: Time) {
    match step
    case SetTokens(_, _) => false
    case ServerGrant(_, a, _) => h <= a.exp
    case Advance(now') => now' < h
    case _ => true
  }

  predicate CarriesAtMost(s0: State, callers: Callers, c: CallerId, a: Access) {
    FinishedSince(s0, callers, c) && callers[c].result.Bearer? ==> callers[c].result.access == a
  }

  /** Whoever finished with a token carries `a`. */
  ghost predicate AllCarry(s0: State, callers: Callers, a: Access) {
    forall c :: CarriesAtMost(s0, callers, c, a)
  }

  /** The session is gone: whoever finished with a token did so with the one answer. */
  ghost predicate Gone(s0: State, s: State) {
    && s.creds == CLEARED
    && (forall c :: !Waits(s.callers, c))
    && (exists a :: AllCarry(s0, s.callers, a))
    && (s.presented == s0.presented || (s0.creds.refresh.Some? && s.presented == s0.presented + [s0.creds.refresh.value]))
    && (s.presented == s0.presented ==>
          forall c | FinishedSince(s0, s.callers, c) :: !s.callers[c].result.Bearer?)
  }

  lemma ClearedIsGone(s0: State, s: State, h: Time)
    requires Lapsed(s0) && Wave(s0, s, h) && s.lock.None?
    ensures Gone(s0, s.(creds := CLEARED))
  {
    var s' := s.(creds := CLEARED);
    if NotAsked(s0, s) {
      assert AllCarry(s0, s'.callers, Access(0, 0));
    } else {
      assert Shared(s0, s, h);
      assert AllCarry(s0, s'.callers, s.creds.access.value);
    }
  }

  lemma GivingUpIsGone(s0: State, s: State, c: CallerId, h: Time)
    requires Lapsed(s0) && Wave(s0, s, h) && LockInv(s.lock, s.callers) && Waits(s.callers, c)
    ensures Gone(s0, Done(s, c, CLEARED, SessionExpired))
  {
    assert HasLock(s.callers, c);
    assert OneAsks(s0, s, h);
    var s' := Done(s, c, CLEARED, SessionExpired);
    forall d ensures !Waits(s'.callers, d) {
      assert Waits(s.callers, d) ==> HasLock(s.callers, d);
    }
    forall d ensures CarriesAtMost(s0, s'.callers, d, Access(0, 0)) {
      assert d != c ==> (FinishedSince(s0, s'.callers, d) <==> FinishedSince(s0, s.callers, d));
    }
    assert AllCarry(s0, s'.callers, Access(0, 0));
  }

  /** Once the session is gone nobody asks, and nobody gets a token any more. */
  lemma CallerStepStaysGone(s0: State, s: State, step: Step)
    requires Gone(s0, s) && Enabled(s, step) && CallerStep(step)
    ensures Gone(s0, Next(s, step))
  {
    var s' := Next(s, step);
    assert s'.presented == s.presented;
    assert forall d :: Waits(s'.callers, d) ==> Waits(s.callers, d);
    assert forall d | FinishedSince(s0, s'.callers, d) && s'.callers[d].result.Bearer? ::
      FinishedSince(s0, s.callers, d) && s.callers[d] == s'.callers[d];
    var a :| AllCarry(s0, s.callers, a);
    forall d ensures CarriesAtMost(s0, s'.callers, d, a) {
      assert CarriesAtMost(s0, s.callers, d, a);
    }
    assert AllCarry(s0, s'.callers, a);
  }

  lemma OtherStepStaysGone(s0: State, s: State, step: Step, h: Time)
    requires Gone(s0, s) && Enabled(s, step) && !CallerStep(step) && Rough(step, h)
    ensures Gone(s0, Next(s, step))
  {
    var s' := Next(s, step);
    assert !step.GiveUp?;
    assert s'.creds == CLEARED && s'.callers == s.callers && s'.presented == s.presented;
  }

  ghost predicate RoughWave(s0: State, s: State, h: Time) {
    Wave(s0, s, h) || Gone(s0, s)
  }

  lemma StepKeepsRoughWave(s0: State, s: State, step: Step, h: Time)
    requires Lapsed(s0) && RoughWave(s0, s, h) && LockInv(s.lock, s.callers) && Enabled(s, step) && Rough(step, h)
    ensures RoughWave(s0, Next(s, step), h)
  {
    if Gone(s0, s) {
      if CallerStep(step) {
        CallerStepStaysGone(s0, s, step);
      } else {
        OtherStepStaysGone(s0, s, step, h);
      }
    } else if step.GiveUp? {
      GivingUpIsGone(s0, s, step.c, h);
    } else if step.Clear? {
      ClearedIsGone(s0, s, h);
    } else if CallerStep(step) {
      CallerStepKeepsWave(s0, s, step, h);
    } else {
      OtherStepKeepsWave(s0, s, step, h);
    }
  }

  lemma {:induction false} RunKeepsRoughWave(states: seq<State>, steps: seq<Step>, h: Time, i: nat)
    requires IsRun(states, steps) && Inv(states[0]) && Lapsed(states[0]) && states[0].now < h
    requires i < |states| && forall k | 0 <= k < |steps| :: Rough(steps[k], h)
    ensures RoughWave(states[0], states[i], h)
  {
    if i == 0 {
      NobodyWaits(states[0].lock, states[0].callers);
      assert NotAsked(states[0], states[0]);
    } else {
      RunKeepsRoughWave(states, steps, h, i - 1);
      LockOverRun(states, steps, i - 1);
      StepKeepsRoughWave(states[0], states[i - 1], steps[i - 1], h);
    }
  }

  lemma LockOverRun(states: seq<State>, steps: seq<Step>, i: nat)
    requires IsRun(states, steps) && Inv(states[0]) && i < |states|
    ensures LockInv(states[i].lock, states[i].callers)
  {
    RunKeeps(states, steps, i);
  }

  /** Even when the reply is lost, or the session is cleared meanwhile: the callers
      make at most one Refresh call between them, and all that leave with a token
      leave with the same one, which only the call can have brought. */
  lemma AtMostOneRefresh(states: seq<State>, steps: seq<Step>, h: Time, i: nat)
    requires IsRun(states, steps) && Inv(states[0]) && Lapsed(states[0]) && states[0].now < h
    requires i < |states| && forall k | 0 <= k < |steps| :: Rough(steps[k], h)
    ensures states[i].presented == states[0].presented
         || states[i].presented == states[0].presented + [states[0].creds.refresh.value]
    ensures exists a :: AllCarry(states[0], states[i].callers, a)
    ensures forall c | FinishedSince(states[0], states[i].callers, c) && states[i].callers[c].result.Bearer? ::
              states[i].presented == states[0].presented + [states[0].creds.refresh.value]
  {
    RunKeepsRoughWave(states, steps, h, i);
    var s0, s := states[0], states[i];
    if Shared(s0, s, h) {
      assert AllCarry(s0, s.callers, s.creds.access.value);
    } else if !Gone(s0, s) {
      assert AllCarry(s0, s.callers, Access(0, 0));
    }
  }
}
