/**
 Sessions, invites and seats as a state machine over the tables of the auth service. Handlers are atomic.
 Fresh tokens and ids come from one counter. Whether a password matches or an email domain is allowed is
 an input. The field `login` of a session, the login its token descends from, is a history variable: it is
 no column of the table and decides nothing.
 */
module Auth {
  import opened Prelude
  import opened SeatPolicy

  // ---- Configuration and tables --------------------------------------------------------------

  datatype Limits = Limits(freeSeats: int, graceDays: int, refreshTtlMs: int)

  type Config = c: Limits | c.freeSeats >= 1 && c.graceDays >= 0 && c.refreshTtlMs >= DAY_MS
    witness Limits(3, 0, 30 * DAY_MS)

  datatype Tenant = Tenant(includedSeats: Option<int>, periodDays: nat, subscription: Option<string>, updatedAt: int)

  datatype User = User(tenantId: Uuid, email: string, role: Role, lastLoginAt: Option<int>)

  /** Kept under its user's id: a user has one membership. */
  datatype Membership = Membership(tenantId: Uuid, isActive: bool, eligible: bool, lastActivity: Option<int>)

  /** Kept under the token itself: hashing it is injective. */
  datatype Session = Session(
    userId: Uuid, tenantId: Uuid, expiresAt: int, revokedAt: Option<int>, login: Uuid)

  datatype Invite = Invite(tenantId: Uuid, email: string, role: Role, expiresAt: int, usedAt: Option<int>)

  datatype State = State(
    clock: int, next: Uuid,
    tenants: map<Uuid, Tenant>, users: map<Uuid, User>, memberships: map<Uuid, Membership>,
    sessions: map<Uuid, Session>, invites: map<Uuid, Invite>)

  // ---- Operations ----------------------------------------------------------------------------

  datatype Op =
    | Login(tenantId: Uuid, email: string, passwordOk: bool)
    | Refresh(token: Uuid)
    | Logout(token: Uuid)
    | LogoutAll(userId: Uuid, tenantId: Uuid)
    | CreateInvite(tenantId: Uuid, inviterId: Uuid, email: string, role: Role, days: Option<int>, domainOk: bool)
    | AcceptInvite(token: Uuid, passwordOk: bool, domainOk: bool)
    | SetPlan(tenantId: Uuid, seats: Option<int>, subscription: Option<string>)
    | CleanSessions
    | CleanInvites
    | Nothing

  /** An operation, and the time that passes before it. */
  datatype Step = Step(wait: nat, op: Op)

  datatype Reason =
    | BadRequest | InvalidCredentials | InvalidToken | NotFound | AlreadyUsed | Expired
    | DomainNotAllowed | SeatLimit | EmailTaken | Forbidden

  datatype Reply =
    | Refused(reason: Reason)
    | Done
    | SessionIssued(token: Uuid, userId: Uuid, tenantId: Uuid)
    | InviteIssued(token: Uuid, expiresAt: int)
    | Joined(userId: Uuid, tenantId: Uuid, grace: bool)

  datatype Result = Result(state: State, reply: Reply)

  function Refuse(s: State, reason: Reason): Result { Result(s, Refused(reason)) }

  // ---- Seats ---------------------------------------------------------------------------------

  /** The count query's conditions. */
  predicate MatchesSeatQuery(
    users: map<Uuid, User>, members: map<Uuid, Membership>, tenantId: Uuid, threshold: int, u: Uuid)
  {
    && u in members && u in users
    && members[u].tenantId == tenantId && members[u].isActive && members[u].eligible
    && members[u].lastActivity.Some? && members[u].lastActivity.value >= threshold
    && users[u].role.Learner?
  }

  function SeatCount(
    users: map<Uuid, User>, members: map<Uuid, Membership>, tenantId: Uuid, threshold: int): nat
  {
    |set u | u in members && MatchesSeatQuery(users, members, tenantId, threshold, u)|
  }

  function SeatsInUse(s: State, tenantId: Uuid): nat
    requires tenantId in s.tenants
  {
    SeatCount(s.users, s.memberships, tenantId, s.clock - s.tenants[tenantId].periodDays * DAY_MS)
  }

  function SeatLimitOf(cfg: Config, tenant: Tenant): int {
    tenant.includedSeats.GetOr(cfg.freeSeats)
  }

  /** The answer of the capacity check: the seats in use, the limit, and when a grace period ends. */
  datatype SeatVerdict =
    | Free(used: nat, limit: int)
    | Grace(used: nat, limit: int, until: int)
    | Full(used: nat, limit: int)

  /** assertSeatCapacityForNewActiveLearner. */
  function SeatCheck(cfg: Config, s: State, tenantId: Uuid): SeatVerdict
    requires tenantId in s.tenants
  {
    var tenant := s.tenants[tenantId];
    var used, limit := SeatsInUse(s, tenantId), SeatLimitOf(cfg, tenant);
    var until := tenant.updatedAt + cfg.graceDays * DAY_MS;
    if used < limit then Free(used, limit)
    else if cfg.graceDays > 0 && tenant.subscription.Some? && s.clock <= until then Grace(used, limit, until)
    else Full(used, limit)
  }

  // ---- Sessions ------------------------------------------------------------------------------

  predicate IsUser(users: map<Uuid, User>, tenantId: Uuid, email: string, u: Uuid) {
    u in users && users[u].tenantId == tenantId && users[u].email == email
  }

  predicate EmailInUse(users: map<Uuid, User>, tenantId: Uuid, email: string) {
    exists u :: u in users && IsUser(users, tenantId, email, u)
  }

  /** The user with this email, which is unique within a tenant. */
  ghost function FindUser(users: map<Uuid, User>, tenantId: Uuid, email: string): (u: Uuid)
    requires EmailInUse(users, tenantId, email)
    ensures IsUser(users, tenantId, email, u)
  {
    var u :| u in users && IsUser(users, tenantId, email, u);
    u
  }

  predicate Usable(session: Session, now: int) {
    session.revokedAt.None? && session.expiresAt > now
  }

  function Issue(cfg: Config, s: State, userId: Uuid, tenantId: Uuid, login: Uuid): Result {
    var row := Session(userId, tenantId, s.clock + cfg.refreshTtlMs, None, login);
    Result(s.(sessions := s.sessions[s.next := row], next := s.next + 1), SessionIssued(s.next, userId, tenantId))
  }

  function Touched(s: State, u: Uuid): State
    requires u in s.users
  {
    var user := s.users[u].(lastLoginAt := Some(s.clock));
    var members :=
      if u in s.memberships && s.memberships[u].tenantId == s.users[u].tenantId
      then s.memberships[u := s.memberships[u].(lastActivity := Some(s.clock))] else s.memberships;
    s.(users := s.users[u := user], memberships := members)
  }

  ghost function LoginAt(cfg: Config, s: State, op: Op): Result
    requires op.Login?
  {
    if !EmailInUse(s.users, op.tenantId, op.email) || !op.passwordOk then Refuse(s, InvalidCredentials)
    else
      var u := FindUser(s.users, op.tenantId, op.email);
      Issue(cfg, Touched(s, u), u, s.users[u].tenantId, s.next)
  }

  function Revoked(s: State, token: Uuid): State
    requires token in s.sessions
  {
    s.(sessions := s.sessions[token := s.sessions[token].(revokedAt := Some(s.clock))])
  }

  /** Rotation: the old token is revoked and a new one issued in its place. */
  function RefreshAt(cfg: Config, s: State, token: Uuid): Result {
    if token !in s.sessions || !Usable(s.sessions[token], s.clock) then Refuse(s, InvalidToken)
    else
      var session := s.sessions[token];
      Issue(cfg, Revoked(s, token), session.userId, session.tenantId, session.login)
  }

  function LogoutAt(s: State, token: Uuid): Result {
    Result(if token in s.sessions && s.sessions[token].revokedAt.None? then Revoked(s, token) else s, Done)
  }

  function LogoutAllAt(s: State, userId: Uuid, tenantId: Uuid): Result {
    var sessions := map x | x in s.sessions ::
      var row := s.sessions[x];
      if row.userId == userId && row.tenantId == tenantId && row.revokedAt.None?
      then row.(revokedAt := Some(s.clock)) else row;
    Result(s.(sessions := sessions), Done)
  }

  const STALE_MS: int := 14 * DAY_MS

  function CleanSessionsAt(s: State): Result {
    var stale := (row: Session) =>
      row.expiresAt < s.clock || (row.revokedAt.Some? && row.revokedAt.value < s.clock - STALE_MS);
    Result(s.(sessions := map x | x in s.sessions && !stale(s.sessions[x]) :: s.sessions[x]), Done)
  }

  // ---- Invites -------------------------------------------------------------------------------

  /** A super admin assigns any role, an organisation admin any but super admin, others none. */
  predicate CanAssignRole(actor: Role, target: Role) {
    actor.SuperAdmin? || (actor.OrgAdmin? && !target.SuperAdmin?)
  }

  function CreateInviteAt(s: State, op: Op): Result
    requires op.CreateInvite?
  {
    var days := op.days.GetOr(7);
    if days < 1 || days > 30 then Refuse(s, BadRequest)
    else if EmailInUse(s.users, op.tenantId, op.email) then Refuse(s, EmailTaken)
    else if op.inviterId !in s.users || s.users[op.inviterId].tenantId != op.tenantId then Refuse(s, NotFound)
    else if !CanAssignRole(s.users[op.inviterId].role, op.role) then Refuse(s, Forbidden)
    else if op.tenantId !in s.tenants then Refuse(s, NotFound)
    else if !op.domainOk then Refuse(s, DomainNotAllowed)
    else
      var expiresAt := s.clock + days * DAY_MS;
      Result(s.(invites := s.invites[s.next := Invite(op.tenantId, op.email, op.role, expiresAt, None)],
                next := s.next + 1),
             InviteIssued(s.next, expiresAt))
  }

  /** The new user, the membership and the used invite. */
  function Join(s: State, token: Uuid, grace: bool): Result
    requires token in s.invites
  {
    var invite := s.invites[token];
    var learner := invite.role.Learner?;
    var user := User(invite.tenantId, invite.email, invite.role, None);
    var member := Membership(invite.tenantId, true, learner, if learner then Some(s.clock) else None);
    Result(
      s.(users := s.users[s.next := user], memberships := s.memberships[s.next := member],
         invites := s.invites[token := invite.(usedAt := Some(s.clock))], next := s.next + 1),
      Joined(s.next, invite.tenantId, grace))
  }

  function AcceptInviteAt(cfg: Config, s: State, op: Op): Result
    requires op.AcceptInvite?
  {
    if !op.passwordOk then Refuse(s, BadRequest)
    else if op.token !in s.invites then Refuse(s, NotFound)
    else
      var invite := s.invites[op.token];
      if invite.usedAt.Some? then Refuse(s, AlreadyUsed)
      else if invite.expiresAt < s.clock then Refuse(s, Expired)
      else if invite.tenantId !in s.tenants then Refuse(s, NotFound)
      else if !op.domainOk then Refuse(s, DomainNotAllowed)
      else
        var learner := invite.role.Learner?;
        if learner && SeatCheck(cfg, s, invite.tenantId).Full? then Refuse(s, SeatLimit)
        else if EmailInUse(s.users, invite.tenantId, invite.email) then Refuse(s, EmailTaken)
        else Join(s, op.token, learner && SeatCheck(cfg, s, invite.tenantId).Grace?)
  }

  function CleanInvitesAt(s: State): Result {
    Result(s.(invites := map x | x in s.invites && (s.invites[x].usedAt.Some? || s.invites[x].expiresAt >= s.clock)
                           :: s.invites[x]), Done)
  }

  /** What billing writes to a tenant; any write also moves the tenant's updatedAt. */
  function SetPlanAt(s: State, op: Op): Result
    requires op.SetPlan?
  {
    if op.tenantId !in s.tenants then Result(s, Done)
    else
      var row := s.tenants[op.tenantId].(includedSeats := op.seats, subscription := op.subscription,
                                         updatedAt := s.clock);
      Result(s.(tenants := s.tenants[op.tenantId := row]), Done)
  }

  // ---- Steps and runs ------------------------------------------------------------------------

  function Later(s: State, wait: nat): State {
    s.(clock := s.clock + wait)
  }

  ghost function Perform(cfg: Config, s: State, op: Op): Result {
    match op
    case Login(_, _, _) => LoginAt(cfg, s, op)
    case Refresh(token) => RefreshAt(cfg, s, token)
    case Logout(token) => LogoutAt(s, token)
    case LogoutAll(u, t) => LogoutAllAt(s, u, t)
    case CreateInvite(_, _, _, _, _, _) => CreateInviteAt(s, op)
    case AcceptInvite(_, _, _) => AcceptInviteAt(cfg, s, op)
    case SetPlan(_, _, _) => SetPlanAt(s, op)
    case CleanSessions => CleanSessionsAt(s)
    case CleanInvites => CleanInvitesAt(s)
    case Nothing => Result(s, Done)
  }

  ghost function Apply(cfg: Config, s: State, step: Step): Result {
    Perform(cfg, Later(s, step.wait), step.op)
  }

  ghost function Run(cfg: Config, s: State, steps: seq<Step>): State
    decreases |steps|
  {
    if steps == [] then s else Run(cfg, Apply(cfg, s, steps[0]).state, steps[1..])
  }

  ghost function Replies(cfg: Config, s: State, steps: seq<Step>): seq<Reply>
    decreases |steps|
  {
    if steps == [] then []
    else
      var r := Apply(cfg, s, steps[0]);
      [r.reply] + Replies(cfg, r.state, steps[1..])
  }

  // ---- Invariant -----------------------------------------------------------------------------

  ghost predicate Live(s: State, x: Uuid) {
    x in s.sessions && s.sessions[x].revokedAt.None?
  }

  /** Each login has at most one unrevoked token. */
  ghost predicate SessionsOk(s: State) {
    && (forall x :: x in s.sessions ==> s.sessions[x].login <= x < s.next)
    && (forall x, y :: Live(s, x) && Live(s, y) && s.sessions[x].login == s.sessions[y].login ==> x == y)
  }

  /** Users are unique by tenant and email, and memberships belong to them. */
  ghost predicate PeopleOk(s: State) {
    && (forall u :: u in s.users ==> u < s.next)
    && (forall u :: u in s.memberships ==> u in s.users && s.memberships[u].tenantId == s.users[u].tenantId)
    && (forall t, email, u, u' :: IsUser(s.users, t, email, u) && IsUser(s.users, t, email, u') ==> u == u')
    && (forall i :: i in s.invites ==> i < s.next)
  }

  ghost predicate Inv(s: State) {
    SessionsOk(s) && PeopleOk(s)
  }

  /** A database with tenants and users already registered, and nothing issued yet. */
  ghost predicate IsStart(s: State) {
    s.sessions == map[] && s.invites == map[] && PeopleOk(s)
  }

  lemma FoundUser(s: State, t: Uuid, email: string, u: Uuid)
    requires PeopleOk(s) && IsUser(s.users, t, email, u)
    ensures EmailInUse(s.users, t, email) && u == FindUser(s.users, t, email)
  {
  }

  lemma OtherOpsKeepSessions(cfg: Config, s: State, op: Op)
    ensures op.CreateInvite? || op.AcceptInvite? || op.SetPlan? || op.CleanInvites? || op.Nothing? ==>
      var s' := Perform(cfg, s, op).state;
      s'.sessions == s.sessions && s'.next >= s.next && s'.clock == s.clock
  {
  }

  lemma LoginKeeps(cfg: Config, s: State, op: Op)
    requires Inv(s) && op.Login?
    ensures Inv(LoginAt(cfg, s, op).state)
  {
    var s' := LoginAt(cfg, s, op).state;
    forall t, email, u | IsUser(s'.users, t, email, u) ensures IsUser(s.users, t, email, u) {}
  }

  lemma AcceptKeeps(cfg: Config, s: State, op: Op)
    requires Inv(s) && op.AcceptInvite?
    ensures Inv(AcceptInviteAt(cfg, s, op).state)
  {
    var s' := AcceptInviteAt(cfg, s, op).state;
    if s' != s {
      var invite := s.invites[op.token];
      forall t, email, u | IsUser(s'.users, t, email, u) && u != s.next ensures IsUser(s.users, t, email, u) {}
      assert forall t, email :: IsUser(s'.users, t, email, s.next) ==> t == invite.tenantId && email == invite.email;
    }
  }

  lemma PeopleUntouched(s: State, s': State)
    requires PeopleOk(s) && s'.users == s.users && s'.memberships == s.memberships && s.next <= s'.next
    requires forall i :: i in s'.invites ==> i in s.invites || i < s'.next
    ensures PeopleOk(s')
  {
    assert forall t, email, u :: IsUser(s'.users, t, email, u) <==> IsUser(s.users, t, email, u);
  }

  /** The successor of a live token is alive, the token is not, and all others are as before. */
  lemma RefreshMovesLife(cfg: Config, s: State, token: Uuid)
    requires SessionsOk(s) && token in s.sessions && Usable(s.sessions[token], s.clock)
    ensures
      var s' := RefreshAt(cfg, s, token).state;
      && s'.next == s.next + 1 && s'.sessions.Keys == s.sessions.Keys + {s.next} && s.next !in s.sessions
      && s'.sessions[s.next].login == s.sessions[token].login
      && (forall x :: x in s.sessions ==> s'.sessions[x].login == s.sessions[x].login)
      && (forall x :: Live(s', x) <==> x == s.next || (Live(s, x) && x != token))
  {
  }

  lemma RefreshKeeps(cfg: Config, s: State, token: Uuid)
    requires SessionsOk(s)
    ensures SessionsOk(RefreshAt(cfg, s, token).state)
  {
    var s' := RefreshAt(cfg, s, token).state;
    if token in s.sessions && Usable(s.sessions[token], s.clock) {
      RefreshMovesLife(cfg, s, token);
      assert Live(s, token);
      hide Live, RefreshAt;
      assert forall x :: x in s'.sessions ==> x in s'.sessions.Keys;
    }
  }

  /** Every session of s' is one of s, and is revoked in s' if it was in s. */
  ghost predicate NoNewLife(s: State, s': State) {
    forall x :: x in s'.sessions ==>
      && x in s.sessions && s'.sessions[x].login == s.sessions[x].login
      && (s.sessions[x].revokedAt.Some? ==> s'.sessions[x].revokedAt.Some?)
  }

  lemma NoNewLifeKeeps(s: State, s': State)
    requires SessionsOk(s) && NoNewLife(s, s') && s.next <= s'.next
    ensures SessionsOk(s')
  {
    assert forall x :: Live(s', x) ==> Live(s, x);
  }

  lemma InviteIdsKnown(s: State)
    requires PeopleOk(s)
    ensures forall i :: i in s.invites ==> i < s.next
  {
  }

  /** Neither issues a token nor touches a person. */
  ghost predicate Harmless(s: State, s': State) {
    && NoNewLife(s, s') && s.next <= s'.next && s'.users == s.users && s'.memberships == s.memberships
    && (forall i :: i in s'.invites ==> i in s.invites || i < s'.next)
  }

  lemma HarmlessKeeps(s: State, s': State)
    requires Inv(s) && Harmless(s, s')
    ensures Inv(s')
  {
    NoNewLifeKeeps(s, s');
    PeopleUntouched(s, s');
  }

  lemma LogoutsHarmless(s: State, token: Uuid, u: Uuid, t: Uuid)
    ensures Harmless(s, LogoutAt(s, token).state)
    ensures Harmless(s, LogoutAllAt(s, u, t).state)
  {
  }

  lemma JobsHarmless(s: State)
    ensures Harmless(s, CleanSessionsAt(s).state)
    ensures Harmless(s, CleanInvitesAt(s).state)
    ensures Harmless(s, s)
  {
  }

  lemma WritesHarmless(s: State, op: Op)
    requires op.CreateInvite? || op.SetPlan?
    ensures op.CreateInvite? ==> Harmless(s, CreateInviteAt(s, op).state)
    ensures op.SetPlan? ==> Harmless(s, SetPlanAt(s, op).state)
  {
    hide EmailInUse;
  }

  lemma RefreshKeepsAll(cfg: Config, s: State, token: Uuid)
    requires Inv(s)
    ensures Inv(RefreshAt(cfg, s, token).state)
  {
    RefreshKeeps(cfg, s, token);
    InviteIdsKnown(s);
    hide SessionsOk, PeopleOk;
    PeopleUntouched(s, RefreshAt(cfg, s, token).state);
  }

  lemma PerformKeeps(cfg: Config, s: State, op: Op)
    requires Inv(s)
    ensures Inv(Perform(cfg, s, op).state)
  {
    hide Inv, Harmless, LoginAt, RefreshAt, LogoutAt, LogoutAllAt, CreateInviteAt, AcceptInviteAt, SetPlanAt,
         CleanSessionsAt, CleanInvitesAt;
    match op
    case Login(_, _, _) => LoginKeeps(cfg, s, op);
    case AcceptInvite(_, _, _) => AcceptKeeps(cfg, s, op);
    case Refresh(token) => RefreshKeepsAll(cfg, s, token);
    case Logout(token) =>
      LogoutsHarmless(s, token, 0, 0);
      HarmlessKeeps(s, LogoutAt(s, token).state);
    case LogoutAll(u, t) =>
      LogoutsHarmless(s, 0, u, t);
      HarmlessKeeps(s, LogoutAllAt(s, u, t).state);
    case CreateInvite(_, _, _, _, _, _) =>
      WritesHarmless(s, op);
      HarmlessKeeps(s, CreateInviteAt(s, op).state);
    case SetPlan(_, _, _) =>
      WritesHarmless(s, op);
      HarmlessKeeps(s, SetPlanAt(s, op).state);
    case CleanSessions =>
      JobsHarmless(s);
      HarmlessKeeps(s, CleanSessionsAt(s).state);
    case CleanInvites =>
      JobsHarmless(s);
      HarmlessKeeps(s, CleanInvitesAt(s).state);
    case Nothing =>
  }

  lemma StepKeeps(cfg: Config, s: State, step: Step)
    requires Inv(s)
    ensures Inv(Apply(cfg, s, step).state)
  {
    PeopleUntouched(s, Later(s, step.wait));
    NoNewLifeKeeps(s, Later(s, step.wait));
    PerformKeeps(cfg, Later(s, step.wait), step.op);
  }

  lemma {:induction false} RunKeeps(cfg: Config, s: State, steps: seq<Step>)
    requires Inv(s)
    ensures Inv(Run(cfg, s, steps))
    decreases |steps|
  {
    if steps == [] {
    } else {
      StepKeeps(cfg, s, steps[0]);
      RunKeeps(cfg, Apply(cfg, s, steps[0]).state, steps[1..]);
    }
  }

  ghost predicate Reachable(cfg: Config, s: State) {
    exists start, steps :: IsStart(start) && Run(cfg, start, steps) == s
  }

  lemma ReachableOk(cfg: Config, s: State)
    requires Reachable(cfg, s)
    ensures Inv(s)
  {
    var start, steps :| IsStart(start) && Run(cfg, start, steps) == s;
    RunKeeps(cfg, start, steps);
  }
}
