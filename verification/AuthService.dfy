/** The auth service over its tables, method by method; each is proved to take one step of the machine. */
module AuthService {
  import opened Prelude
  import opened SeatPolicy
  import opened Auth

  lemma LoginRefused(cfg: Config, s: State, op: Op)
    requires op.Login? && !EmailInUse(s.users, op.tenantId, op.email)
    ensures LoginAt(cfg, s, op) == Refuse(s, InvalidCredentials)
  {
  }

  /** The one user with this email logs in, or gives a wrong password. */
  lemma LoginFound(cfg: Config, s: State, op: Op, u: Uuid)
    requires PeopleOk(s) && op.Login? && IsUser(s.users, op.tenantId, op.email, u)
    ensures u in s.users
    ensures LoginAt(cfg, s, op) ==
      if op.passwordOk then Issue(cfg, Touched(s, u), u, s.users[u].tenantId, s.next) else Refuse(s, InvalidCredentials)
  {
    FoundUser(s, op.tenantId, op.email, u);
    hide PeopleOk, Issue, Touched;
  }

  lemma AllRevoked(s: State, u: Uuid, t: Uuid, sessions: map<Uuid, Session>)
    requires sessions.Keys == s.sessions.Keys
    requires forall x :: x in s.sessions ==>
      var row := s.sessions[x];
      sessions[x] == if row.userId == u && row.tenantId == t && row.revokedAt.None?
                     then row.(revokedAt := Some(s.clock)) else row
    ensures LogoutAllAt(s, u, t) == Result(s.(sessions := sessions), Done)
  {
    assert sessions == LogoutAllAt(s, u, t).state.sessions;
  }

  class AuthOrgService {
    const cfg: Config
    var clock: int
    var next: Uuid
    var tenants: map<Uuid, Tenant>
    var users: map<Uuid, User>
    var memberships: map<Uuid, Membership>
    var sessions: map<Uuid, Session>
    var invites: map<Uuid, Invite>

    ghost function Contents(): State
      reads this
    {
      State(clock, next, tenants, users, memberships, sessions, invites)
    }

    ghost predicate Valid()
      reads this
    {
      Inv(Contents())
    }

    constructor (cfg: Config, start: State)
      requires IsStart(start)
      ensures Contents() == start && this.cfg == cfg && Valid()
    {
      this.cfg := cfg;
      clock, next, tenants, users := start.clock, start.next, start.tenants, start.users;
      memberships, sessions, invites := start.memberships, start.sessions, start.invites;
    }

    /** Adds a refresh token row. */
    method Insert(userId: Uuid, tenantId: Uuid, login: Uuid) returns (reply: Reply)
      modifies this
      ensures Result(Contents(), reply) == Issue(cfg, old(Contents()), userId, tenantId, login)
    {
      sessions := sessions[next := Session(userId, tenantId, clock + cfg.refreshTtlMs, None, login)];
      reply := SessionIssued(next, userId, tenantId);
      next := next + 1;
    }

    /** Notes a login on the user and on the membership. */
    method Touch(u: Uuid)
      requires u in users
      modifies this
      ensures Contents() == Touched(old(Contents()), u)
    {
      users := users[u := users[u].(lastLoginAt := Some(clock))];
      if u in memberships && memberships[u].tenantId == users[u].tenantId {
        memberships := memberships[u := memberships[u].(lastActivity := Some(clock))];
      }
    }

    /** Looks the user up and checks the password. */
    method Authenticate(tenantId: Uuid, email: string, passwordOk: bool) returns (reply: Reply)
      requires PeopleOk(Contents())
      modifies this
      ensures Result(Contents(), reply) == LoginAt(cfg, old(Contents()), Login(tenantId, email, passwordOk))
    {
      hide PeopleOk, FindUser, Touched, Issue, LoginAt;
      ghost var before := Contents();
      reply := Refused(InvalidCredentials);
      if u :| u in users && IsUser(users, tenantId, email, u) {
        LoginFound(cfg, before, Login(tenantId, email, passwordOk), u);
        if passwordOk {
          var home, login := users[u].tenantId, next;
          Touch(u);
          reply := Insert(u, home, login);
        }
      } else {
        assert !EmailInUse(users, tenantId, email);
        LoginRefused(cfg, before, Login(tenantId, email, passwordOk));
      }
    }

    method LogIn(wait: nat, tenantId: Uuid, email: string, passwordOk: bool) returns (reply: Reply)
      requires Valid()
      modifies this
      ensures Result(Contents(), reply) == Apply(cfg, old(Contents()), Step(wait, Login(tenantId, email, passwordOk)))
      ensures Valid()
    {
      StepKeeps(cfg, Contents(), Step(wait, Login(tenantId, email, passwordOk)));
      StepKeeps(cfg, Contents(), Step(wait, Nothing));
      hide SessionsOk, PeopleOk, LoginAt;
      clock := clock + wait;
      reply := Authenticate(tenantId, email, passwordOk);
    }

    /** Retires a usable token and issues its successor. */
    method Rotate(token: Uuid) returns (reply: Reply)
      modifies this
      ensures Result(Contents(), reply) == RefreshAt(cfg, old(Contents()), token)
    {
      hide Issue;
      reply := Refused(InvalidToken);
      if token in sessions && sessions[token].revokedAt.None? && sessions[token].expiresAt > clock {
        var session := sessions[token];
        sessions := sessions[token := session.(revokedAt := Some(clock))];
        reply := Insert(session.userId, session.tenantId, session.login);
      }
    }

    method RefreshSession(wait: nat, token: Uuid) returns (reply: Reply)
      requires Valid()
      modifies this
      ensures Result(Contents(), reply) == Apply(cfg, old(Contents()), Step(wait, Refresh(token)))
      ensures Valid()
    {
      StepKeeps(cfg, Contents(), Step(wait, Refresh(token)));
      hide SessionsOk, PeopleOk, RefreshAt;
      clock := clock + wait;
      reply := Rotate(token);
    }

    method LogoutSession(wait: nat, token: Uuid) returns (reply: Reply)
      requires Valid()
      modifies this
      ensures Result(Contents(), reply) == Apply(cfg, old(Contents()), Step(wait, Logout(token)))
      ensures Valid()
    {
      StepKeeps(cfg, Contents(), Step(wait, Logout(token)));
      hide SessionsOk, PeopleOk;
      clock := clock + wait;
      if token in sessions && sessions[token].revokedAt.None? {
        sessions := sessions[token := sessions[token].(revokedAt := Some(clock))];
      }
      reply := Done;
    }

    /** Revokes every unrevoked token of the user. */
    method RevokeAll(userId: Uuid, tenantId: Uuid)
      modifies `sessions
      ensures Result(Contents(), Done) == LogoutAllAt(old(Contents()), userId, tenantId)
    {
      ghost var before := Contents();
      var rows, revokedAt := sessions, Some(clock);
      sessions := map x | x in rows ::
        if rows[x].userId == userId && rows[x].tenantId == tenantId && rows[x].revokedAt.None?
        then rows[x].(revokedAt := revokedAt) else rows[x];
      AllRevoked(before, userId, tenantId, sessions);
    }

    method LogoutAllSessions(wait: nat, userId: Uuid, tenantId: Uuid) returns (reply: Reply)
      requires Valid()
      modifies this
      ensures Result(Contents(), reply) == Apply(cfg, old(Contents()), Step(wait, LogoutAll(userId, tenantId)))
      ensures Valid()
    {
      StepKeeps(cfg, Contents(), Step(wait, LogoutAll(userId, tenantId)));
      hide SessionsOk, PeopleOk, LogoutAllAt;
      clock := clock + wait;
      RevokeAll(userId, tenantId);
      reply := Done;
    }

    method IssueInvite(
      wait: nat, tenantId: Uuid, inviterId: Uuid, email: string, role: Role, days: Option<int>, domainOk: bool)
      returns (reply: Reply)
      requires Valid()
      modifies this
      ensures Result(Contents(), reply)
           == Apply(cfg, old(Contents()), Step(wait, CreateInvite(tenantId, inviterId, email, role, days, domainOk)))
      ensures Valid()
    {
      StepKeeps(cfg, Contents(), Step(wait, CreateInvite(tenantId, inviterId, email, role, days, domainOk)));
      hide SessionsOk, PeopleOk;
      clock := clock + wait;
      var expiresInDays := days.GetOr(7);
      if expiresInDays < 1 || expiresInDays > 30 {
        return Refused(BadRequest);
      }
      if EmailInUse(users, tenantId, email) {
        return Refused(EmailTaken);
      }
      if inviterId !in users || users[inviterId].tenantId != tenantId {
        return Refused(NotFound);
      }
      if !CanAssignRole(users[inviterId].role, role) {
        return Refused(Forbidden);
      }
      if tenantId !in tenants {
        return Refused(NotFound);
      }
      if !domainOk {
        return Refused(DomainNotAllowed);
      }
      var expiresAt := clock + expiresInDays * DAY_MS;
      invites := invites[next := Invite(tenantId, email, role, expiresAt, None)];
      reply := InviteIssued(next, expiresAt);
      next := next + 1;
    }

    /** assertSeatCapacityForNewActiveLearner: counts, compares, and looks for a grace period. */
    method AssertSeatCapacity(tenantId: Uuid) returns (verdict: SeatVerdict)
      requires tenantId in tenants
      ensures verdict == SeatCheck(cfg, Contents(), tenantId)
    {
      var tenant := tenants[tenantId];
      var limit := tenant.includedSeats.GetOr(cfg.freeSeats);
      var used := SeatCount(users, memberships, tenantId, clock - tenant.periodDays * DAY_MS);
      if used < limit {
        return Free(used, limit);
      }
      if cfg.graceDays > 0 && tenant.subscription.Some? {
        var graceUntil := tenant.updatedAt + cfg.graceDays * DAY_MS;
        if clock <= graceUntil {
          return Grace(used, limit, graceUntil);
        }
      }
      return Full(used, limit);
    }

    /** acceptInvite at one moment: the checks in order, then the user, the membership and the used invite. */
    method Accept(token: Uuid, passwordOk: bool, domainOk: bool) returns (reply: Reply)
      modifies this
      ensures Result(Contents(), reply) == AcceptInviteAt(cfg, old(Contents()), AcceptInvite(token, passwordOk, domainOk))
    {
      hide SeatCount, EmailInUse;
      if !passwordOk {
        return Refused(BadRequest);
      }
      if token !in invites {
        return Refused(NotFound);
      }
      var invite := invites[token];
      if invite.usedAt.Some? {
        return Refused(AlreadyUsed);
      }
      if invite.expiresAt < clock {
        return Refused(Expired);
      }
      if invite.tenantId !in tenants {
        return Refused(NotFound);
      }
      if !domainOk {
        return Refused(DomainNotAllowed);
      }
      var learner := invite.role.Learner?;
      var grace := false;
      if learner {
        var verdict := AssertSeatCapacity(invite.tenantId);
        if verdict.Full? {
          return Refused(SeatLimit);
        }
        grace := verdict.Grace?;
      }
      if EmailInUse(users, invite.tenantId, invite.email) {
        return Refused(EmailTaken);
      }
      users := users[next := User(invite.tenantId, invite.email, invite.role, None)];
      memberships := memberships[
        next := Membership(invite.tenantId, true, learner, if learner then Some(clock) else None)];
      invites := invites[token := invite.(usedAt := Some(clock))];
      reply := Joined(next, invite.tenantId, grace);
      next := next + 1;
    }

    method RedeemInvite(wait: nat, token: Uuid, passwordOk: bool, domainOk: bool) returns (reply: Reply)
      requires Valid()
      modifies this
      ensures Result(Contents(), reply)
           == Apply(cfg, old(Contents()), Step(wait, AcceptInvite(token, passwordOk, domainOk)))
      ensures Valid()
    {
      StepKeeps(cfg, Contents(), Step(wait, AcceptInvite(token, passwordOk, domainOk)));
      hide SessionsOk, PeopleOk, AcceptInviteAt;
      clock := clock + wait;
      reply := Accept(token, passwordOk, domainOk);
    }

    method CleanupExpiredInvites(wait: nat)
      requires Valid()
      modifies this
      ensures Contents() == Apply(cfg, old(Contents()), Step(wait, CleanInvites)).state
      ensures Valid()
    {
      StepKeeps(cfg, Contents(), Step(wait, CleanInvites));
      hide SessionsOk, PeopleOk;
      clock := clock + wait;
      invites := map i | i in invites && !(invites[i].usedAt.None? && invites[i].expiresAt < clock) :: invites[i];
    }

    /** Deletes expired tokens, and tokens revoked over fourteen days ago. */
    method DeleteStaleTokens()
      modifies `sessions
      ensures Result(Contents(), Done) == CleanSessionsAt(old(Contents()))
    {
      ghost var spec := CleanSessionsAt(Contents()).state.sessions;
      var rows, now, cutoff := sessions, clock, clock - 14 * 86_400_000;
      sessions := map x | x in rows
        && !(rows[x].expiresAt < now || (rows[x].revokedAt.Some? && rows[x].revokedAt.value < cutoff)) :: rows[x];
      assert sessions == spec;
    }

    method CleanupStaleRefreshTokens(wait: nat)
      requires Valid()
      modifies this
      ensures Contents() == Apply(cfg, old(Contents()), Step(wait, CleanSessions)).state
      ensures Valid()
    {
      StepKeeps(cfg, Contents(), Step(wait, CleanSessions));
      hide SessionsOk, PeopleOk, CleanSessionsAt;
      clock := clock + wait;
      DeleteStaleTokens();
    }

    /** What the billing service, which shares the table, writes to a tenant. */
    method WritePlan(wait: nat, tenantId: Uuid, seats: Option<int>, subscription: Option<string>)
      requires Valid()
      modifies this
      ensures Contents() == Apply(cfg, old(Contents()), Step(wait, SetPlan(tenantId, seats, subscription))).state
      ensures Valid()
    {
      StepKeeps(cfg, Contents(), Step(wait, SetPlan(tenantId, seats, subscription)));
      hide SessionsOk, PeopleOk;
      clock := clock + wait;
      if tenantId in tenants {
        tenants := tenants[tenantId := tenants[tenantId].(
          includedSeats := seats, subscription := subscription, updatedAt := clock)];
      }
    }

    /** Routes a message, or the tick of a job, to its handler. */
    method Handle(step: Step) returns (reply: Reply)
      requires Valid()
      modifies this
      ensures Result(Contents(), reply) == Apply(cfg, old(Contents()), step) && Valid()
    {
      hide Inv, LoginAt, RefreshAt, LogoutAt, LogoutAllAt, CreateInviteAt, AcceptInviteAt;
      reply := Done;
      match step.op {
        case Login(t, email, ok) => reply := LogIn(step.wait, t, email, ok);
        case Refresh(token) => reply := RefreshSession(step.wait, token);
        case Logout(token) => reply := LogoutSession(step.wait, token);
        case LogoutAll(u, t) => reply := LogoutAllSessions(step.wait, u, t);
        case CreateInvite(t, inviter, email, role, days, ok) =>
          reply := IssueInvite(step.wait, t, inviter, email, role, days, ok);
        case AcceptInvite(token, passwordOk, domainOk) =>
          reply := RedeemInvite(step.wait, token, passwordOk, domainOk);
        case SetPlan(t, seats, subscription) => WritePlan(step.wait, t, seats, subscription);
        case CleanSessions => CleanupStaleRefreshTokens(step.wait);
        case CleanInvites => CleanupExpiredInvites(step.wait);
        case Nothing =>
          StepKeeps(cfg, Contents(), step);
          clock := clock + step.wait;
      }
    }

    /** Any sequence of requests and jobs is a run of the machine, reply by reply. */
    method Serve(steps: seq<Step>) returns (replies: seq<Reply>)
      requires Valid()
      modifies this
      ensures Contents() == Run(cfg, old(Contents()), steps) && replies == Replies(cfg, old(Contents()), steps)
      ensures Valid()
    {
      hide Inv, Apply;
      ghost var start := Contents();
      replies := [];
      for i := 0 to |steps|
        invariant Valid()
        invariant Run(cfg, Contents(), steps[i..]) == Run(cfg, start, steps)
        invariant replies + Replies(cfg, Contents(), steps[i..]) == Replies(cfg, start, steps)
      {
        var reply := Handle(steps[i]);
        assert steps[i..][1..] == steps[i + 1..];
        replies := replies + [reply];
      }
    }
  }
}
