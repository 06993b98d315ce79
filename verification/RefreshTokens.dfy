/** The profile server's one-time refresh tokens. */
module RefreshTokens {
  import opened Collections

  type Jti = int
  type UserId = int
  type CallId = int
  type Time = int

  /** Seven days, in seconds. */
  const LIFETIME: int := 7 * 24 * 60 * 60

  /** All tokens that descend from one login, named after its first token. */
  datatype Family = Family(login: Jti)

  /** A Refresh call between the removal of its token and the new pair. */
  datatype Taken = Taken(user: UserId, family: Family)

  datatype Server = Server(
    active: map<Jti, UserId>,        // the table of the service
    taken: map<CallId, Taken>,
    now: Time,
    // history
    subject: map<Jti, UserId>,       // every token ever issued
    family: map<Jti, Family>,
    expiry: map<Jti, Time>,
    recent: set<Jti>,                // issued since the process started
    accepted: seq<Jti>)

  const INIT: Server := Server(map[], map[], 0, map[], map[], map[], {}, [])

  /** The check under the lock. */
  predicate Accepts(active: map<Jti, UserId>, j: Jti, u: UserId) {
    j in active && active[j] == u
  }

  /** The expiry check of the token's validation. */
  predicate Unexpired(s: Server, j: Jti) {
    j in s.expiry && s.now < s.expiry[j]
  }

  /** Whether a presented token passes both checks. */
  predicate Passes(s: Server, j: Jti, u: UserId) {
    Unexpired(s, j) && Accepts(s.active, j, u)
  }

  function Consumed(active: map<Jti, UserId>, j: Jti, u: UserId): map<Jti, UserId> {
    if Accepts(active, j, u) then active - {j} else active
  }

  function Issue(s: Server, j: Jti, u: UserId, f: Family): Server {
    s.(active := s.active[j := u], subject := s.subject[j := u], family := s.family[j := f],
       expiry := s.expiry[j := s.now + LIFETIME], recent := s.recent + {j})
  }

  /** Login: a fresh token starts a family of its own. */
  function Login(s: Server, j: Jti, u: UserId): Server {
    Issue(s, j, u, Family(j))
  }

  /** Validation and first critical section of Refresh: check and remove. */
  function Take(s: Server, call: CallId, j: Jti, u: UserId): Server
    requires j in s.family
  {
    if Passes(s, j, u)
    then s.(active := Consumed(s.active, j, u), accepted := s.accepted + [j],
            taken := s.taken[call := Taken(u, s.family[j])])
    else s
  }

  /** Second critical section: the new token is registered. */
  function Grant(s: Server, call: CallId, j: Jti): Server
    requires call in s.taken
  {
    Issue(s, j, s.taken[call].user, s.taken[call].family).(taken := s.taken - {call})
  }

  /** The profile was not found, or signing failed: the old token stays used. */
  function Drop(s: Server, call: CallId): Server {
    s.(taken := s.taken - {call})
  }

  /** The process stops and starts again: its table, and the calls in it, are gone. */
  function Restarted(s: Server): Server {
    s.(active := map[], taken := map[], recent := {})
  }

  /** Active tokens are exactly those issued since the last restart and not
      accepted yet, and each token is accepted at most once. */
  ghost predicate ActiveInv(s: Server) {
    && s.family.Keys == s.subject.Keys && s.expiry.Keys == s.subject.Keys && s.recent <= s.subject.Keys
    && (forall j :: j in s.active <==> j in s.recent && j !in s.accepted)
    && (forall j | j in s.active :: s.active[j] == s.subject[j])
    && (forall j | j in s.accepted :: j in s.subject)
    && Distinct(s.accepted)
  }

  /** The tokens descending from one login never include two live ones. */
  ghost predicate LinearInv(s: Server) {
    && s.active.Keys <= s.family.Keys
    && (forall i, j | i in s.active && j in s.active && s.family[i] == s.family[j] :: i == j)
    && (forall i, c | i in s.active && c in s.taken :: s.family[i] != s.taken[c].family)
    && (forall c, d | c in s.taken && d in s.taken && s.taken[c].family == s.taken[d].family :: c == d)
  }

  ghost predicate OfUser(s: Server, f: Family, u: UserId) {
    f.login in s.subject && s.subject[f.login] == u
  }

  /** A family belongs to the user who logged in. */
  ghost predicate FamilyInv(s: Server) {
    && s.family.Keys == s.subject.Keys
    && (forall j | j in s.family :: OfUser(s, s.family[j], s.subject[j]))
    && (forall c | c in s.taken :: OfUser(s, s.taken[c].family, s.taken[c].user))
  }

  ghost predicate Inv(s: Server) {
    ActiveInv(s) && LinearInv(s) && FamilyInv(s)
  }

  datatype Step =
    | DoLogin(j: Jti, u: UserId)
    | DoTake(call: CallId, j: Jti, u: UserId)
    | DoGrant(call: CallId, j: Jti)
    | DoDrop(call: CallId)
    | Restart
    | Advance(now: Time)

  /** New tokens are fresh; only issued tokens can be presented with a valid
      signature, and any number of times, by anybody, expired or not. */
  predicate Enabled(s: Server, step: Step) {
    match step
    case DoLogin(j, u) => j !in s.subject
    case DoTake(call, j, u) => call !in s.taken && j in s.family
    case DoGrant(call, j) => call in s.taken && j !in s.subject
    case DoDrop(call) => call in s.taken
    case Restart => true
    case Advance(now) => s.now <= now
  }

  function Next(s: Server, step: Step): Server
    requires Enabled(s, step)
  {
    match step
    case DoLogin(j, u) => Login(s, j, u)
    case DoTake(call, j, u) => Take(s, call, j, u)
    case DoGrant(call, j) => Grant(s, call, j)
    case DoDrop(call) => Drop(s, call)
    case Restart => Restarted(s)
    case Advance(now) => s.(now := now)
  }

  lemma StepKeepsActive(s: Server, step: Step)
    requires ActiveInv(s) && Enabled(s, step)
    ensures ActiveInv(Next(s, step))
  {}

  lemma LoginKeepsLinear(s: Server, j: Jti, u: UserId)
    requires Inv(s) && j !in s.subject
    ensures LinearInv(Login(s, j, u))
  {}

  lemma TakeKeepsLinear(s: Server, call: CallId, j: Jti, u: UserId)
    requires LinearInv(s) && call !in s.taken && j in s.family
    ensures LinearInv(Take(s, call, j, u))
  {}

  lemma GrantKeepsLinear(s: Server, call: CallId, j: Jti)
    requires LinearInv(s) && call in s.taken && j !in s.subject
    ensures LinearInv(Grant(s, call, j))
  {}

  lemma IssueKeepsFamily(s: Server, j: Jti, u: UserId, f: Family)
    requires FamilyInv(s) && j !in s.subject && (f == Family(j) || OfUser(s, f, u))
    ensures FamilyInv(Issue(s, j, u, f))
  {}

  lemma TakeKeepsFamily(s: Server, call: CallId, j: Jti, u: UserId)
    requires FamilyInv(s) && ActiveInv(s) && call !in s.taken && j in s.family
    ensures FamilyInv(Take(s, call, j, u))
  {}

  lemma GrantKeepsFamily(s: Server, call: CallId, j: Jti)
    requires FamilyInv(s) && call in s.taken && j !in s.subject
    ensures FamilyInv(Grant(s, call, j))
  {
    IssueKeepsFamily(s, j, s.taken[call].user, s.taken[call].family);
  }

  lemma StepKeepsLinear(s: Server, step: Step)
    requires Inv(s) && Enabled(s, step)
    ensures LinearInv(Next(s, step))
  {
    match step
    case DoLogin(j, u) => LoginKeepsLinear(s, j, u);
    case DoTake(call, j, u) => TakeKeepsLinear(s, call, j, u);
    case DoGrant(call, j) => GrantKeepsLinear(s, call, j);
    case _ =>
  }

  lemma StepKeepsFamily(s: Server, step: Step)
    requires FamilyInv(s) && ActiveInv(s) && Enabled(s, step)
    ensures FamilyInv(Next(s, step))
  {
    match step
    case DoLogin(j, u) => IssueKeepsFamily(s, j, u, Family(j));
    case DoTake(call, j, u) => TakeKeepsFamily(s, call, j, u);
    case DoGrant(call, j) => GrantKeepsFamily(s, call, j);
    case _ =>
  }

  lemma StepKeeps(s: Server, step: Step)
    requires Inv(s) && Enabled(s, step)
    ensures Inv(Next(s, step))
  {
    StepKeepsActive(s, step);
    StepKeepsLinear(s, step);
    StepKeepsFamily(s, step);
  }

  ghost predicate IsRun(states: seq<Server>, steps: seq<Step>) {
    && |states| == |steps| + 1 && states[0] == INIT
    && (forall i | 0 <= i < |steps| :: Enabled(states[i], steps[i]) && states[i + 1] == Next(states[i], steps[i]))
  }

  lemma {:induction false} RunKeeps(states: seq<Server>, steps: seq<Step>, i: nat)
    requires IsRun(states, steps) && i < |states|
    ensures Inv(states[i])
  {
    if i > 0 {
      RunKeeps(states, steps, i - 1);
      StepKeeps(states[i - 1], steps[i - 1]);
    }
  }

  /** Linearity: the active tokens are those issued since the last restart minus
      the accepted ones, no token is accepted twice, and of all tokens descending
      from one login at most one is active. */
  lemma TokensAreLinear(states: seq<Server>, steps: seq<Step>, i: nat)
    requires IsRun(states, steps) && i < |states|
    ensures states[i].active.Keys == states[i].recent - (set j | j in states[i].accepted)
    ensures Distinct(states[i].accepted)
    ensures forall j, k | j in states[i].active && k in states[i].active ::
      j in states[i].family && k in states[i].family && (states[i].family[j] == states[i].family[k] ==> j == k)
  {
    RunKeeps(states, steps, i);
    var s := states[i];
    forall j ensures j in s.active.Keys <==> j in s.recent - (set j | j in s.accepted) {
      assert j in s.active <==> j in s.recent && j !in s.accepted;
    }
  }

  // ---------------------------------------------------------------------
  // What decides about a token, told from the steps alone
  // ---------------------------------------------------------------------

  /** Step `i` issues token `j` to user `u`. */
  predicate IssuesAt(states: seq<Server>, steps: seq<Step>, i: nat, j: Jti, u: UserId)
    requires |states| == |steps| + 1
  {
    i < |steps| &&
    match steps[i]
    case DoLogin(j', u') => j' == j && u' == u
    case DoGrant(call, j') => j' == j && call in states[i].taken && states[i].taken[call].user == u
    case _ => false
  }

  /** Step `k` presents token `j` and is accepted. */
  predicate AcceptsAt(states: seq<Server>, steps: seq<Step>, k: nat, j: Jti)
    requires |states| == |steps| + 1
  {
    k < |steps| && steps[k].DoTake? && steps[k].j == j && states[k + 1].accepted == states[k].accepted + [j]
  }

  predicate RestartsIn(steps: seq<Step>, i: nat, k: nat) {
    exists m :: i < m < k <= |steps| && steps[m].Restart?
  }

  /** What the server knows of a token since its issue at step `i`. */
  ghost predicate Issued(states: seq<Server>, steps: seq<Step>, i: nat, j: Jti, u: UserId, k: nat)
    requires |states| == |steps| + 1 && i < k < |states|
  {
    var s := states[k];
    && j in s.subject && s.subject[j] == u
    && j in s.expiry && s.expiry[j] == states[i].now + LIFETIME
    && (j in s.recent <==> !RestartsIn(steps, i, k))
  }

  lemma StepOnToken(s: Server, step: Step, j: Jti)
    requires Enabled(s, step) && j in s.subject && j in s.expiry
    requires step.DoGrant? ==> step.call in s.taken
    ensures var s' := Next(s, step);
            && j in s'.subject && s'.subject[j] == s.subject[j] && j in s'.expiry && s'.expiry[j] == s.expiry[j]
            && (j in s'.recent <==> j in s.recent && !step.Restart?)
  {}

  lemma RestartsOn(steps: seq<Step>, i: nat, k: nat)
    requires i < k < |steps|
    ensures RestartsIn(steps, i, k + 1) <==> RestartsIn(steps, i, k) || steps[k].Restart?
  {
    if m :| i < m < k + 1 <= |steps| && steps[m].Restart? {
      assert m < k || m == k;
    }
  }

  lemma {:induction false} TokenSinceIssue(states: seq<Server>, steps: seq<Step>, i: nat, j: Jti, u: UserId, k: nat)
    requires IsRun(states, steps) && IssuesAt(states, steps, i, j, u) && i < k < |states|
    ensures Issued(states, steps, i, j, u, k)
    decreases k
  {
    if k == i + 1 {
      assert Enabled(states[i], steps[i]) && states[k] == Next(states[i], steps[i]);
    } else {
      TokenSinceIssue(states, steps, i, j, u, k - 1);
      assert Enabled(states[k - 1], steps[k - 1]) && states[k] == Next(states[k - 1], steps[k - 1]);
      StepOnToken(states[k - 1], steps[k - 1], j);
      RestartsOn(steps, i, k - 1);
    }
  }

  lemma StepAccepts(s: Server, step: Step)
    requires Enabled(s, step)
    ensures Next(s, step).accepted == s.accepted ||
            (step.DoTake? && Next(s, step).accepted == s.accepted + [step.j])
  {}

  /** The accepted tokens are those some step has accepted. */
  lemma {:induction false} AcceptedBy(states: seq<Server>, steps: seq<Step>, k: nat, j: Jti)
    requires IsRun(states, steps) && k < |states|
    ensures j in states[k].accepted <==> exists m: nat :: m < k && AcceptsAt(states, steps, m, j)
    decreases k
  {
    if k > 0 {
      AcceptedBy(states, steps, k - 1, j);
      assert Enabled(states[k - 1], steps[k - 1]) && states[k] == Next(states[k - 1], steps[k - 1]);
      StepAccepts(states[k - 1], steps[k - 1]);
      if j in states[k].accepted && j !in states[k - 1].accepted {
        assert states[k].accepted == states[k - 1].accepted + [steps[k - 1].j];
        assert AcceptsAt(states, steps, k - 1, j);
      }
    }
  }

  lemma TakeAccepts(s: Server, call: CallId, j: Jti, u: UserId)
    requires Inv(s) && j in s.family
    ensures Take(s, call, j, u).accepted == s.accepted + [j] <==>
            j in s.expiry && s.now < s.expiry[j] && j in s.recent && j !in s.accepted && s.subject[j] == u
  {
    assert |s.accepted + [j]| != |s.accepted|;
  }

  /** A token issued by step `i`, a login or a refresh, and presented at step `k` is
      accepted exactly if it is presented for the user it was issued to, within
      seven days of its issue, with no restart of the server in between, and no
      earlier step has accepted it. */
  lemma AcceptedIff(states: seq<Server>, steps: seq<Step>, i: nat, k: nat, j: Jti, u: UserId)
    requires IsRun(states, steps) && IssuesAt(states, steps, i, j, u)
    requires i < k < |steps| && steps[k].DoTake? && steps[k].j == j
    ensures AcceptsAt(states, steps, k, j) <==>
      && steps[k].u == u
      && states[k].now < states[i].now + 604800
      && !RestartsIn(steps, i, k)
      && forall m: nat | m < k :: !AcceptsAt(states, steps, m, j)
  {
    RunKeeps(states, steps, k);
    TokenSinceIssue(states, steps, i, j, u, k);
    AcceptedBy(states, steps, k, j);
    assert Enabled(states[k], steps[k]) && states[k + 1] == Next(states[k], steps[k]);
    TakeAccepts(states[k], steps[k].call, j, steps[k].u);
  }

  // ---------------------------------------------------------------------
  // Descent
  // ---------------------------------------------------------------------

  /** Steps that end a call between its two critical sections. */
  predicate EndsCall(step: Step, call: CallId) {
    step == DoDrop(call) || (step.DoGrant? && step.call == call) || step.Restart?
  }

  lemma {:induction false} CallStays(states: seq<Server>, steps: seq<Step>, i: nat, k: nat, call: CallId, j: Jti)
    requires IsRun(states, steps) && i < k <= |steps| && AcceptsAt(states, steps, i, j) && steps[i].call == call
    requires forall m | i < m < k :: !EndsCall(steps[m], call)
    ensures CallFor(states[k], call, j)
    decreases k
  {
    if k == i + 1 {
      CallOpens(states, steps, i, j);
    } else {
      CallStays(states, steps, i, k - 1, call, j);
      StepKeepsCall(states[k - 1], steps[k - 1], call, j);
    }
  }

  lemma CallOpens(states: seq<Server>, steps: seq<Step>, i: nat, j: Jti)
    requires IsRun(states, steps) && AcceptsAt(states, steps, i, j)
    ensures CallFor(states[i + 1], steps[i].call, j)
  {
    RunKeeps(states, steps, i);
    assert Enabled(states[i], steps[i]) && states[i + 1] == Next(states[i], steps[i]);
    TakeOpensCall(states[i], steps[i].call, j, steps[i].u);
  }

  ghost predicate CallFor(s: Server, call: CallId, j: Jti) {
    && call in s.taken && j in s.family && j in s.subject
    && s.taken[call] == Taken(s.subject[j], s.family[j])
  }

  lemma TakeOpensCall(s: Server, call: CallId, j: Jti, u: UserId)
    requires Inv(s) && call !in s.taken && j in s.family && Take(s, call, j, u).accepted == s.accepted + [j]
    ensures CallFor(Take(s, call, j, u), call, j)
  {
    TakeAccepts(s, call, j, u);
  }

  lemma StepKeepsCall(s: Server, step: Step, call: CallId, j: Jti)
    requires CallFor(s, call, j) && Enabled(s, step) && !EndsCall(step, call)
    ensures CallFor(Next(s, step), call, j)
  {}

  /** The token a refresh grants descends from the login of the token it consumed,
      and belongs to the same user. */
  lemma GrantInherits(states: seq<Server>, steps: seq<Step>, i: nat, k: nat, call: CallId, j: Jti, j': Jti)
    requires IsRun(states, steps) && i < k < |steps| && AcceptsAt(states, steps, i, j) && steps[i].call == call
    requires steps[k] == DoGrant(call, j') && forall m | i < m < k :: !EndsCall(steps[m], call)
    ensures var s' := states[k + 1];
            && j in s'.family && j' in s'.family && s'.family[j'] == s'.family[j]
            && j in s'.subject && j' in s'.subject && s'.subject[j'] == s'.subject[j] && j' in s'.active
  {
    CallStays(states, steps, i, k, call, j);
    assert Enabled(states[k], steps[k]) && states[k + 1] == Next(states[k], steps[k]);
  }

  /** One-time use: over any interleaving of logins, refreshes and restarts a token
      is accepted by at most one Refresh call. */
  lemma AcceptedOnce(states: seq<Server>, steps: seq<Step>, i: nat, k: nat, j: Jti)
    requires IsRun(states, steps) && AcceptsAt(states, steps, i, j) && AcceptsAt(states, steps, k, j)
    ensures i == k
  {
    var first, last := if i <= k then i else k, if i <= k then k else i;
    NotAcceptedYet(states, steps, last, j);
    assert AcceptsAt(states, steps, first, j);
  }

  lemma NotAcceptedYet(states: seq<Server>, steps: seq<Step>, k: nat, j: Jti)
    requires IsRun(states, steps) && AcceptsAt(states, steps, k, j)
    ensures forall m: nat | m < k :: !AcceptsAt(states, steps, m, j)
  {
    RunKeeps(states, steps, k);
    AcceptedBy(states, steps, k, j);
    assert Enabled(states[k], steps[k]) && states[k + 1] == Next(states[k], steps[k]);
    TakeAccepts(states[k], steps[k].call, j, steps[k].u);
  }

  // ---------------------------------------------------------------------
  // The object
  // ---------------------------------------------------------------------

  datatype RefreshReply = Tokens(jti: Jti) | InvalidToken | Revoked | Failed

  datatype LoginReply = LoggedIn(jti: Jti) | NoSuchProfile | WrongPassword | NotBuilt

  class ProfileService {
    var activeRefreshTokens: map<Jti, UserId>

    constructor ()
      ensures activeRefreshTokens == map[]
    {
      activeRefreshTokens := map[];
    }

    /** `built` says whether signing succeeded. */
    method BuildTokens(u: UserId, jti: Jti, built: bool) returns (ok: bool)
      modifies this
      ensures ok == built
      ensures activeRefreshTokens == if built then old(activeRefreshTokens)[jti := u] else old(activeRefreshTokens)
    {
      if !built {
        return false;
      }
      activeRefreshTokens := activeRefreshTokens[jti := u];
      return true;
    }

    method Login(u: UserId, profileFound: bool, passwordMatches: bool, built: bool, jti: Jti) returns (reply: LoginReply)
      modifies this
      ensures reply.NoSuchProfile? <==> !profileFound
      ensures reply.WrongPassword? <==> profileFound && !passwordMatches
      ensures reply.LoggedIn? <==> profileFound && passwordMatches && built
      ensures reply.LoggedIn? ==> reply.jti == jti
      ensures activeRefreshTokens ==
              if reply.LoggedIn? then old(activeRefreshTokens)[jti := u] else old(activeRefreshTokens)
    {
      if !profileFound {
        return NoSuchProfile;
      }
      if passwordMatches {
        var ok := BuildTokens(u, jti, built);
        if !ok {
          return NotBuilt;
        }
        return LoggedIn(jti);
      }
      return WrongPassword;
    }

    /** `valid` is the verdict of the signature, issuer, type and expiry checks;
        `jti` the fresh id of the pair to build. */
    method Refresh(valid: bool, j: Jti, u: UserId, profileFound: bool, built: bool, jti: Jti) returns (reply: RefreshReply)
      modifies this
      ensures reply.InvalidToken? <==> !valid
      ensures reply.Revoked? <==> valid && !(j in old(activeRefreshTokens) && old(activeRefreshTokens)[j] == u)
      ensures reply.Tokens? <==>
        valid && j in old(activeRefreshTokens) && old(activeRefreshTokens)[j] == u && profileFound && built
      ensures reply.Tokens? ==> reply.jti == jti
      ensures activeRefreshTokens ==
              if reply.InvalidToken? || reply.Revoked? then old(activeRefreshTokens)
              else if reply.Tokens? then (old(activeRefreshTokens) - {j})[jti := u]
              else old(activeRefreshTokens) - {j}
    {
      if !valid {
        return InvalidToken;
      }
      var exists' := j in activeRefreshTokens;
      var matches := exists' && activeRefreshTokens[j] == u;
      if matches {
        activeRefreshTokens := activeRefreshTokens - {j};
      }
      if !matches {
        return Revoked;
      }
      if !profileFound {
        return Failed;
      }
      var ok := BuildTokens(u, jti, built);
      if !ok {
        return Failed;
      }
      return Tokens(jti);
    }
  }
}
