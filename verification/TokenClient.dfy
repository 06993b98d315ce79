/** The client's token credentials, used by any number of concurrent requests,
    against the profile server of RefreshTokens. */
module TokenClient {
  import opened Collections
  import RT = RefreshTokens

  type Time = int
  type CallerId = int
  type Jti = RT.Jti

  datatype Access = Access(id: int, exp: Time)

  /** The stored session; an absent part is the empty string of the source. */
  datatype Creds = Creds(user: bool, access: Option<Access>, refresh: Option<Jti>)

  const CLEARED: Creds := Creds(false, None, None)

  predicate Expired(c: Creds, now: Time) {
    c.access.Some? ==> now > c.access.value.exp
  }

  /** The second look, under the write lock. */
  predicate Renewed(c: Creds, now: Time) {
    c.access.Some? && now < c.access.value.exp
  }

  predicate CanRefresh(c: Creds, hasClient: bool) {
    hasClient && c.refresh.Some? && c.user
  }

  datatype Result = Unauthenticated | Bearer(access: Access) | SessionExpired

  // ---------------------------------------------------------------------
  // The object, used by one request at a time
  // ---------------------------------------------------------------------

  /** The answer of the Refresh call: a new pair whose access token validates,
      or anything else. */
  datatype Answer = Pair(access: Access, refresh: Jti) | NoPair

  class TokenCredentials {
    var creds: Creds
    var hasClient: bool
    var refreshCalls: seq<Jti>

    constructor ()
      ensures creds == CLEARED && !hasClient && refreshCalls == []
    {
      creds, hasClient, refreshCalls := CLEARED, false, [];
    }

    method SetProfileClient()
      modifies this`hasClient
      ensures hasClient
    {
      hasClient := true;
    }

    method SetTokens(access: Access, refresh: Jti, valid: bool) returns (ok: bool)
      modifies this`creds
      ensures ok == valid
      ensures creds == if valid then Creds(true, Some(access), Some(refresh)) else old(creds)
    {
      if !valid {
        return false;
      }
      creds := Creds(true, Some(access), Some(refresh));
      return true;
    }

    method Clear()
      modifies this`creds
      ensures creds == CLEARED
    {
      creds := CLEARED;
    }

    /** `now` is read before and `now'` after the write lock is taken. */
    method GetRequestMetadata(now: Time, now': Time, answer: Answer) returns (r: Result)
      modifies this
      ensures hasClient == old(hasClient)
      // no token: the request goes out bare
      ensures r.Unauthenticated? <==> old(creds).access.None?
      // not past its expiry at the first look, or before it at the second: used as it is
      ensures old(creds).access.Some? && (now <= old(creds).access.value.exp || now' < old(creds).access.value.exp) ==>
                r == Bearer(old(creds).access.value)
      ensures old(creds).access.None? || now <= old(creds).access.value.exp || now' < old(creds).access.value.exp ==>
                creds == old(creds) && refreshCalls == old(refreshCalls)
      // expired at both looks
      ensures old(creds).access.Some? && now > old(creds).access.value.exp && now' >= old(creds).access.value.exp ==>
                if !hasClient || old(creds).refresh.None? || !old(creds).user
                then r == SessionExpired && creds == CLEARED && refreshCalls == old(refreshCalls)
                else
                  && refreshCalls == old(refreshCalls) + [old(creds).refresh.value]
                  && if answer.NoPair? then r == SessionExpired && creds == CLEARED
                     else r == Bearer(answer.access)
                          && creds == Creds(true, Some(answer.access), Some(answer.refresh))
    {
      if creds.access.None? {
        return Unauthenticated;
      }
      if !Expired(creds, now) {
        return Bearer(creds.access.value);
      }
      if Renewed(creds, now') {
        return Bearer(creds.access.value);
      }
      if !CanRefresh(creds, hasClient) {
        Clear();
        return SessionExpired;
      }
      refreshCalls := refreshCalls + [creds.refresh.value];
      if answer.NoPair? {
        Clear();
        return SessionExpired;
      }
      creds := creds.(access := Some(answer.access), refresh := Some(answer.refresh));
      return Bearer(answer.access);
    }
  }

  // ---------------------------------------------------------------------
  // Concurrent requests
  // ---------------------------------------------------------------------

  /** A request's position in GetRequestMetadata. */
  datatype Caller = Entered | SawExpired | Holding | Asking(token: Jti) | Finished(result: Result)

  /** The Refresh call a caller made, as the server sees it; it goes on even
      when the caller no longer waits for it. */
  datatype Call = Sent(token: Jti) | InServer | Answered(access: Access, refresh: Jti) | Failed

  datatype State = State(
    creds: Creds,
    hasClient: bool,
    lock: Option<CallerId>,         // write lock of the credentials
    callers: map<CallerId, Caller>,
    calls: map<CallerId, Call>,
    server: RT.Server,
    now: Time,
    // history
    presented: seq<Jti>,            // refresh tokens this client has sent
    handed: set<Jti>,               // from this client's logins, not stored yet
    others: set<Jti>)               // issued to other clients

  const INIT: State := State(CLEARED, false, None, map[], map[], RT.INIT, 0, [], {}, {})

  datatype Step =
    | Enter(c: CallerId)
    | ReadCreds(c: CallerId)
    | Lock(c: CallerId)
    | Recheck(c: CallerId)
    | ServerTake(c: CallerId)
    | ServerGrant(c: CallerId, access: Access, j: Jti)
    | ServerDrop(c: CallerId)
    | Reply(c: CallerId)
    | GiveUp(c: CallerId)
    | SetClient
    | Login(j: Jti, u: RT.UserId)
    | SetTokens(access: Access, j: Jti)
    | Clear
    | OtherLogin(j: Jti, u: RT.UserId)
    | OtherTake(call: RT.CallId, j: Jti)
    | OtherGrant(call: RT.CallId, j: Jti)
    | OtherDrop(call: RT.CallId)
    | ServerRestart
    | ServerAdvance(now': Time)
    | Advance(now': Time)

  predicate At(s: State, c: CallerId, p: Caller) {
    c in s.callers && s.callers[c] == p
  }

  predicate Waits(callers: map<CallerId, Caller>, c: CallerId) {
    c in callers && callers[c].Asking?
  }

  predicate CanEnter(s: State, c: CallerId) {
    c !in s.callers && c !in s.server.taken
  }

  function DoEnter(s: State, c: CallerId): State {
    s.(callers := s.callers[c := Entered])
  }

  predicate CanRead(s: State, c: CallerId) {
    At(s, c, Entered) && s.lock.None?
  }

  function DoRead(s: State, c: CallerId): State {
    s.(callers := s.callers[c :=
      if s.creds.access.None? then Finished(Unauthenticated)
      else if Expired(s.creds, s.now) then SawExpired
      else Finished(Bearer(s.creds.access.value))])
  }

  predicate CanLock(s: State, c: CallerId) {
    At(s, c, SawExpired) && s.lock.None?
  }

  function DoLock(s: State, c: CallerId): State {
    s.(callers := s.callers[c := Holding], lock := Some(c))
  }

  function Done(s: State, c: CallerId, creds: Creds, r: Result): State {
    s.(callers := s.callers[c := Finished(r)], lock := None, creds := creds)
  }

  function DoAsk(s: State, c: CallerId, j: Jti): State {
    s.(callers := s.callers[c := Asking(j)], calls := s.calls[c := Sent(j)], presented := s.presented + [j])
  }

  function DoRecheck(s: State, c: CallerId): State {
    if Renewed(s.creds, s.now) then Done(s, c, s.creds, Bearer(s.creds.access.value))
    else if !CanRefresh(s.creds, s.hasClient) then Done(s, c, CLEARED, SessionExpired)
    else DoAsk(s, c, s.creds.refresh.value)
  }

  predicate CanTake(s: State, c: CallerId) {
    c in s.calls && s.calls[c].Sent? && c !in s.server.taken
    && s.calls[c].token in s.server.subject && s.calls[c].token in s.server.family
  }

  function DoTake(s: State, c: CallerId): State
    requires CanTake(s, c)
  {
    var j := s.calls[c].token;
    s.(calls := s.calls[c := if RT.Passes(s.server, j, s.server.subject[j]) then InServer else Failed],
       server := RT.Take(s.server, c, j, s.server.subject[j]))
  }

  predicate CanGrant(s: State, c: CallerId, j: Jti) {
    c in s.calls && s.calls[c].InServer? && c in s.server.taken && j !in s.server.subject
  }

  function DoGrant(s: State, c: CallerId, a: Access, j: Jti): State
    requires c in s.server.taken
  {
    s.(calls := s.calls[c := Answered(a, j)], server := RT.Grant(s.server, c, j))
  }

  predicate CanDrop(s: State, c: CallerId) {
    c in s.calls && s.calls[c].InServer? && c in s.server.taken
  }

  function DoDrop(s: State, c: CallerId): State {
    s.(calls := s.calls[c := Failed], server := RT.Drop(s.server, c))
  }

  /** The calls between their two critical sections die with the server process. */
  function DoServerRestart(s: State): State {
    s.(server := RT.Restarted(s.server),
       calls := map c | c in s.calls :: if s.calls[c].InServer? then Failed else s.calls[c])
  }

  predicate CanReply(s: State, c: CallerId) {
    Waits(s.callers, c) && c in s.calls && s.calls[c].Answered?
  }

  function DoReply(s: State, c: CallerId): State
    requires CanReply(s, c)
  {
    Done(s, c, s.creds.(access := Some(s.calls[c].access), refresh := Some(s.calls[c].refresh)), Bearer(s.calls[c].access))
  }

  predicate CanOtherTake(s: State, call: RT.CallId, j: Jti) {
    j in s.others && j in s.server.subject && j in s.server.family && call !in s.server.taken && call !in s.callers
  }

  function DoOtherTake(s: State, call: RT.CallId, j: Jti): State
    requires j in s.server.subject && j in s.server.family
  {
    s.(server := RT.Take(s.server, call, j, s.server.subject[j]))
  }

  predicate Enabled(s: State, step: Step) {
    match step
    case Enter(c) => CanEnter(s, c)
    case ReadCreds(c) => CanRead(s, c)
    case Lock(c) => CanLock(s, c)
    case Recheck(c) => At(s, c, Holding)
    case ServerTake(c) => CanTake(s, c)
    case ServerGrant(c, a, j) => CanGrant(s, c, j)
    case ServerDrop(c) => CanDrop(s, c)
    case Reply(c) => CanReply(s, c)
    case GiveUp(c) => Waits(s.callers, c)
    case SetClient => s.lock.None?
    case Login(j, u) => j !in s.server.subject
    case SetTokens(a, j) => s.lock.None? && j in s.handed
    case Clear => s.lock.None?
    case OtherLogin(j, u) => j !in s.server.subject
    case OtherTake(call, j) => CanOtherTake(s, call, j)
    case OtherGrant(call, j) => call in s.server.taken && call !in s.callers && j !in s.server.subject
    case OtherDrop(call) => call in s.server.taken && call !in s.callers
    case ServerRestart => true
    case ServerAdvance(now') => s.server.now <= now'
    case Advance(now') => s.now <= now'
  }

  function Next(s: State, step: Step): State
    requires Enabled(s, step)
  {
    match step
    case Enter(c) => DoEnter(s, c)
    case ReadCreds(c) => DoRead(s, c)
    case Lock(c) => DoLock(s, c)
    case Recheck(c) => DoRecheck(s, c)
    case ServerTake(c) => DoTake(s, c)
    case ServerGrant(c, a, j) => DoGrant(s, c, a, j)
    case ServerDrop(c) => DoDrop(s, c)
    case Reply(c) => DoReply(s, c)
    case GiveUp(c) =>
      // error, timeout, lost reply or invalid pair
      Done(s, c, CLEARED, SessionExpired)
    case SetClient => s.(hasClient := true)
    case Login(j, u) => s.(server := RT.Login(s.server, j, u), handed := s.handed + {j})
    case SetTokens(a, j) => s.(creds := Creds(true, Some(a), Some(j)), handed := s.handed - {j})
    case Clear => s.(creds := CLEARED)
    case OtherLogin(j, u) => s.(server := RT.Login(s.server, j, u), others := s.others + {j})
    case OtherTake(call, j) => DoOtherTake(s, call, j)
    case OtherGrant(call, j) => s.(server := RT.Grant(s.server, call, j), others := s.others + {j})
    case OtherDrop(call) => s.(server := RT.Drop(s.server, call))
    case ServerRestart => DoServerRestart(s)
    case ServerAdvance(now') => s.(server := s.server.(now := now'))
    case Advance(now') => s.(now := now')
  }

  // ---------------------------------------------------------------------
  // Invariants, each over the parts of the state it needs
  // ---------------------------------------------------------------------

  type Callers = map<CallerId, Caller>
  type Calls = map<CallerId, Call>

  /** Tokens that were issued to this client and that it has not presented yet. */
  ghost function UnusedSet(subject: map<Jti, RT.UserId>, presented: seq<Jti>, others: set<Jti>): set<Jti> {
    set j | j in subject && j !in presented && j !in others
  }

  ghost function UnusedIn(s: State): set<Jti> {
    UnusedSet(s.server.subject, s.presented, s.others)
  }

  predicate HasLock(callers: Callers, c: CallerId) {
    c in callers && (callers[c].Holding? || callers[c].Asking?)
  }

  ghost predicate LockInv(lock: Option<CallerId>, callers: Callers) {
    forall c :: HasLock(callers, c) <==> lock == Some(c)
  }

  predicate Asked(lock: Option<CallerId>, callers: Callers) {
    lock.Some? && Waits(callers, lock.value)
  }

  /** Unless a caller is just asking with it, the stored token is unused. */
  ghost predicate StoredInv(creds: Creds, lock: Option<CallerId>, callers: Callers, unused: set<Jti>, handed: set<Jti>) {
    && (creds.refresh.Some? && !Asked(lock, callers) ==> creds.refresh.value in unused)
    && (creds.refresh.Some? ==> creds.refresh.value !in handed)
    && handed <= unused
  }

  ghost predicate HistoryInv(presented: seq<Jti>, others: set<Jti>, subject: map<Jti, RT.UserId>) {
    && Distinct(presented)
    && (forall j | j in presented :: j in subject)
    && (forall j | j in others :: j in subject && j !in presented)
  }

  predicate IsSent(calls: Calls, c: CallerId, j: Jti) {
    c in calls && calls[c] == Sent(j)
  }

  /** Only this client's presented tokens and other clients' are ever accepted. */
  ghost predicate AcceptedInv(accepted: seq<Jti>, presented: seq<Jti>, others: set<Jti>) {
    forall j | j in accepted :: j in presented || j in others
  }

  /** A call the server has not looked at carries a presented token that it has
      not accepted, and no two such calls carry the same one. */
  ghost predicate SentInv(calls: Calls, presented: seq<Jti>, accepted: seq<Jti>) {
    && (forall c, j | IsSent(calls, c, j) :: j in presented && j !in accepted)
    && (forall c, d, j | IsSent(calls, c, j) && IsSent(calls, d, j) :: c == d)
  }

  ghost predicate CallInv(calls: Calls, callers: Callers, taken: map<RT.CallId, RT.Taken>) {
    && (forall c | c in calls :: c in callers && (callers[c].Asking? || callers[c].Finished?))
    && (forall c | Waits(callers, c) :: c in calls)
    && (forall c | c in callers :: c in taken <==> c in calls && calls[c].InServer?)
  }

  /** An answer that is still waited for carries an unused token. */
  ghost predicate AnswerInv(callers: Callers, calls: Calls, unused: set<Jti>, handed: set<Jti>) {
    forall c | Waits(callers, c) && c in calls && calls[c].Answered? ::
      calls[c].refresh in unused && calls[c].refresh !in handed
  }

  ghost predicate KnownInv(creds: Creds, subject: map<Jti, RT.UserId>) {
    creds.refresh.Some? ==> creds.refresh.value in subject
  }

  ghost predicate ClientInv(s: State) {
    && KnownInv(s.creds, s.server.subject)
    && LockInv(s.lock, s.callers)
    && StoredInv(s.creds, s.lock, s.callers, UnusedIn(s), s.handed)
    && HistoryInv(s.presented, s.others, s.server.subject)
    && AcceptedInv(s.server.accepted, s.presented, s.others)
    && SentInv(s.calls, s.presented, s.server.accepted)
    && CallInv(s.calls, s.callers, s.server.taken)
    && AnswerInv(s.callers, s.calls, UnusedIn(s), s.handed)
  }

  ghost predicate Inv(s: State) {
    RT.Inv(s.server) && ClientInv(s)
  }
}
