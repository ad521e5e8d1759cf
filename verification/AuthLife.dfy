/** What the auth service owes to its users: tokens that live, invites that can be accepted, and nothing more. */
module AuthLife {
  import opened Prelude
  import opened Auth
  import opened AuthTheorems

  // ---- Tokens live for their lifetime ----------------------------------------------------------

  /** Nothing refreshes this token, logs it out, or logs out all of its user. */
  predicate Spared(steps: seq<Step>, token: Uuid, u: Uuid, t: Uuid) {
    forall i :: 0 <= i < |steps| ==>
      && steps[i].op != Refresh(token) && steps[i].op != Logout(token) && steps[i].op != LogoutAll(u, t)
  }

  /** The token is as it was issued, or it has expired and was swept away. */
  ghost predicate AsIssued(s: State, token: Uuid, u: Uuid, t: Uuid, expiresAt: int) {
    && token < s.next
    && if token in s.sessions
       then var row := s.sessions[token];
         row.userId == u && row.tenantId == t && row.expiresAt == expiresAt && row.revokedAt == None
       else s.clock > expiresAt
  }

  lemma TokenOpsSpare(cfg: Config, s: State, op: Op, token: Uuid, u: Uuid, t: Uuid, expiresAt: int)
    requires AsIssued(s, token, u, t, expiresAt)
    ensures op.Login? ==> AsIssued(LoginAt(cfg, s, op).state, token, u, t, expiresAt)
    ensures op.Refresh? && op.token != token ==> AsIssued(RefreshAt(cfg, s, op.token).state, token, u, t, expiresAt)
    ensures op.Logout? && op.token != token ==> AsIssued(LogoutAt(s, op.token).state, token, u, t, expiresAt)
  {
  }

  lemma SweepsSpare(s: State, op: Op, token: Uuid, u: Uuid, t: Uuid, expiresAt: int)
    requires AsIssued(s, token, u, t, expiresAt)
    ensures op.LogoutAll? && op != LogoutAll(u, t) ==>
      AsIssued(LogoutAllAt(s, op.userId, op.tenantId).state, token, u, t, expiresAt)
    ensures AsIssued(CleanSessionsAt(s).state, token, u, t, expiresAt)
  {
  }

  lemma StepSpares(cfg: Config, s: State, step: Step, token: Uuid, u: Uuid, t: Uuid, expiresAt: int)
    requires AsIssued(s, token, u, t, expiresAt) && Spared([step], token, u, t)
    ensures AsIssued(Apply(cfg, s, step).state, token, u, t, expiresAt)
  {
    var now := Later(s, step.wait);
    assert [step][0] == step;
    assert AsIssued(now, token, u, t, expiresAt);
    OtherOpsKeepSessions(cfg, now, step.op);
    TokenOpsSpare(cfg, now, step.op, token, u, t, expiresAt);
    SweepsSpare(now, step.op, token, u, t, expiresAt);
    hide LoginAt, RefreshAt, LogoutAt, LogoutAllAt, CleanSessionsAt, CreateInviteAt, AcceptInviteAt, SetPlanAt,
         CleanInvitesAt;
  }

  lemma {:induction false} RunSpares(
    cfg: Config, s: State, steps: seq<Step>, token: Uuid, u: Uuid, t: Uuid, expiresAt: int)
    requires AsIssued(s, token, u, t, expiresAt) && Spared(steps, token, u, t)
    ensures AsIssued(Run(cfg, s, steps), token, u, t, expiresAt)
    decreases |steps|
  {
    hide AsIssued, Apply;
    if steps == [] {
    } else {
      StepSpares(cfg, s, steps[0], token, u, t, expiresAt);
      RunSpares(cfg, Apply(cfg, s, steps[0]).state, steps[1..], token, u, t, expiresAt);
    }
  }

  lemma IssuedFresh(cfg: Config, s: State, issue: Step)
    requires Apply(cfg, s, issue).reply.SessionIssued?
    ensures
      var r := Apply(cfg, s, issue);
      AsIssued(r.state, r.reply.token, r.reply.userId, r.reply.tenantId, s.clock + issue.wait + cfg.refreshTtlMs)
  {
    hide FindUser, EmailInUse, SeatCount;
  }

  lemma RefreshDecides(cfg: Config, s: State, wait: nat, token: Uuid, u: Uuid, t: Uuid, expiresAt: int)
    requires AsIssued(s, token, u, t, expiresAt)
    ensures
      var reply := Apply(cfg, s, Step(wait, Refresh(token))).reply;
      && (reply.SessionIssued? <==> s.clock + wait < expiresAt)
      && (reply.SessionIssued? ==> reply.userId == u && reply.tenantId == t)
      && (!reply.SessionIssued? ==> reply == Refused(InvalidToken))
  {
  }

  /**
   A token lives exactly for its lifetime. Whatever happens after it was issued by a login or a refresh, jobs
   included, if nothing refreshes it, logs it out or logs out all of its user, then it refreshes, for the same
   user, if and only if less than the configured lifetime has passed.
   */
  lemma TokenLives(cfg: Config, s: State, issue: Step, steps: seq<Step>, wait: nat)
    requires Apply(cfg, s, issue).reply.SessionIssued?
    requires
      var reply := Apply(cfg, s, issue).reply;
      Spared(steps, reply.token, reply.userId, reply.tenantId)
    ensures
      var r := Apply(cfg, s, issue);
      var s' := Run(cfg, r.state, steps);
      var reply := Apply(cfg, s', Step(wait, Refresh(r.reply.token))).reply;
      && (reply.SessionIssued? <==> s'.clock + wait < s.clock + issue.wait + cfg.refreshTtlMs)
      && (reply.SessionIssued? ==> reply.userId == r.reply.userId && reply.tenantId == r.reply.tenantId)
      && (!reply.SessionIssued? ==> reply == Refused(InvalidToken))
  {
    hide AsIssued, Apply;
    var r, expiresAt := Apply(cfg, s, issue), s.clock + issue.wait + cfg.refreshTtlMs;
    IssuedFresh(cfg, s, issue);
    RunSpares(cfg, r.state, steps, r.reply.token, r.reply.userId, r.reply.tenantId, expiresAt);
    RefreshDecides(cfg, Run(cfg, r.state, steps), wait, r.reply.token, r.reply.userId, r.reply.tenantId, expiresAt);
  }

  /** A login succeeds exactly for the user of that tenant with that email, given the right password. */
  lemma LoginAccepts(cfg: Config, s: State, step: Step)
    requires Reachable(cfg, s) && step.op.Login?
    ensures
      var reply, op := Apply(cfg, s, step).reply, step.op;
      && (reply.SessionIssued? <==>
            op.passwordOk && exists u :: u in s.users && s.users[u].tenantId == op.tenantId && s.users[u].email == op.email)
      && (reply.SessionIssued? ==>
            && reply.userId in s.users && s.users[reply.userId].email == op.email
            && s.users[reply.userId].tenantId == reply.tenantId == op.tenantId)
      && (!reply.SessionIssued? ==> Apply(cfg, s, step) == Result(Later(s, step.wait), Refused(InvalidCredentials)))
  {
    ReachableOk(cfg, s);
    var op := step.op;
    if u :| u in s.users && s.users[u].tenantId == op.tenantId && s.users[u].email == op.email {
      assert IsUser(s.users, op.tenantId, op.email, u);
    }
  }

  // ---- People and their activity ---------------------------------------------------------------

  /** When the user last logged in during a run, or `base` if never. */
  ghost function LastLogin(cfg: Config, s: State, steps: seq<Step>, u: Uuid, base: Option<int>): Option<int>
    decreases |steps|
  {
    if steps == [] then base
    else
      var r := Apply(cfg, s, steps[0]);
      var loggedIn := steps[0].op.Login? && r.reply.SessionIssued? && r.reply.userId == u;
      LastLogin(cfg, r.state, steps[1..], u, if loggedIn then Some(r.state.clock) else base)
  }

  /** A step changes at most the activity of one person, the one who logs in. */
  lemma StepActivity(cfg: Config, s: State, step: Step, u: Uuid)
    requires Inv(s) && u in s.users
    ensures
      var r := Apply(cfg, s, step);
      var loggedIn := step.op.Login? && r.reply.SessionIssued? && r.reply.userId == u;
      && u in r.state.users && r.state.clock == s.clock + step.wait
      && r.state.users[u] == (if loggedIn then s.users[u].(lastLoginAt := Some(r.state.clock)) else s.users[u])
      && (u in s.memberships <==> u in r.state.memberships)
      && (u in s.memberships ==>
            var member := s.memberships[u];
            r.state.memberships[u] == if loggedIn then member.(lastActivity := Some(r.state.clock)) else member)
  {
    hide SeatCount;
    if step.op.Login? && Apply(cfg, s, step).reply.SessionIssued? {
      assert IsUser(s.users, step.op.tenantId, step.op.email, Apply(cfg, s, step).reply.userId);
    }
  }

  /**
   Whoever is in the tables stays in them, with the same tenant, email, role and eligibility; the time of the
   last login, and of the last seat-qualifying activity, is that of the last successful login in the run.
   */
  lemma {:induction false} ActivityIsLastLogin(cfg: Config, s: State, steps: seq<Step>, u: Uuid)
    requires Inv(s) && u in s.users
    ensures
      var s' := Run(cfg, s, steps);
      && u in s'.users
      && s'.users[u] == s.users[u].(lastLoginAt := LastLogin(cfg, s, steps, u, s.users[u].lastLoginAt))
      && (u in s.memberships <==> u in s'.memberships)
      && (u in s.memberships ==>
            var member := s.memberships[u];
            s'.memberships[u] == member.(lastActivity := LastLogin(cfg, s, steps, u, member.lastActivity)))
    decreases |steps|
  {
    hide Inv, Apply;
    if steps == [] {
    } else {
      StepActivity(cfg, s, steps[0], u);
      StepKeeps(cfg, s, steps[0]);
      ActivityIsLastLogin(cfg, Apply(cfg, s, steps[0]).state, steps[1..], u);
    }
  }
}
