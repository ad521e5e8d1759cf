/** What holds of every run of the auth service: rotation, logout, single-use invites and seats. */
module AuthTheorems {
  import opened Prelude
  import opened Auth

  // ---- Rotation and logout -------------------------------------------------------------------

  /** A refresh succeeds exactly on an unrevoked, unexpired token, and hands out a token never issued before. */
  lemma RefreshAccepts(cfg: Config, s: State, wait: nat, token: Uuid)
    requires Reachable(cfg, s)
    ensures
      var r := Apply(cfg, s, Step(wait, Refresh(token)));
      && (r.reply.SessionIssued? <==> token in s.sessions && Usable(s.sessions[token], s.clock + wait))
      && (r.reply.SessionIssued? ==>
            && r.reply.token !in s.sessions && Live(r.state, r.reply.token) && !Live(r.state, token)
            && r.state.sessions[r.reply.token].login == s.sessions[token].login)
  {
    ReachableOk(cfg, s);
  }

  /** Each login has at most one token that still refreshes. */
  lemma OneTokenPerLogin(cfg: Config, s: State, x: Uuid, y: Uuid)
    requires Reachable(cfg, s) && Live(s, x) && Live(s, y) && s.sessions[x].login == s.sessions[y].login
    ensures x == y
  {
    ReachableOk(cfg, s);
  }

  /** An issued token that no longer refreshes. */
  ghost predicate Dead(s: State, x: Uuid) {
    x < s.next && (x in s.sessions ==> !Usable(s.sessions[x], s.clock))
  }

  predicate SameToken(a: Session, b: Session) {
    && b.userId == a.userId && b.tenantId == a.tenantId && b.login == a.login && b.expiresAt == a.expiresAt
    && (a.revokedAt.Some? ==> b.revokedAt.Some?)
  }

  /** Tokens are issued under the next number only, keep their identity, and once revoked stay revoked. */
  ghost predicate TokensMove(s: State, s': State) {
    && s'.clock == s.clock && s.next <= s'.next
    && forall x :: x in s'.sessions ==>
         x == s.next || (x in s.sessions && SameToken(s.sessions[x], s'.sessions[x]))
  }

  lemma LoginMoves(cfg: Config, s: State, op: Op)
    requires op.Login?
    ensures TokensMove(s, LoginAt(cfg, s, op).state)
  {
  }

  lemma RefreshMoves(cfg: Config, s: State, token: Uuid)
    ensures TokensMove(s, RefreshAt(cfg, s, token).state)
  {
  }

  lemma RevocationsMove(s: State, token: Uuid, u: Uuid, t: Uuid)
    ensures TokensMove(s, LogoutAt(s, token).state)
    ensures TokensMove(s, LogoutAllAt(s, u, t).state)
    ensures TokensMove(s, CleanSessionsAt(s).state)
  {
  }

  lemma PerformMoves(cfg: Config, s: State, op: Op)
    ensures TokensMove(s, Perform(cfg, s, op).state)
  {
    OtherOpsKeepSessions(cfg, s, op);
    hide LoginAt, RefreshAt, LogoutAt, LogoutAllAt, CleanSessionsAt, CreateInviteAt, AcceptInviteAt, SetPlanAt,
         CleanInvitesAt;
    match op
    case Login(_, _, _) => LoginMoves(cfg, s, op);
    case Refresh(token) => RefreshMoves(cfg, s, token);
    case Logout(token) => RevocationsMove(s, token, 0, 0);
    case LogoutAll(u, t) => RevocationsMove(s, 0, u, t);
    case CleanSessions => RevocationsMove(s, 0, 0, 0);
    case _ =>
  }

  lemma StepKeepsDead(cfg: Config, s: State, step: Step, x: Uuid)
    requires Dead(s, x)
    ensures Dead(Apply(cfg, s, step).state, x)
  {
    hide Perform;
    PerformMoves(cfg, Later(s, step.wait), step.op);
  }

  lemma {:induction false} RunKeepsDead(cfg: Config, s: State, steps: seq<Step>, x: Uuid)
    requires Dead(s, x)
    ensures Dead(Run(cfg, s, steps), x)
    decreases |steps|
  {
    if steps == [] {
    } else {
      StepKeepsDead(cfg, s, steps[0], x);
      RunKeepsDead(cfg, Apply(cfg, s, steps[0]).state, steps[1..], x);
    }
  }

  /** Once a token was refreshed it is refused for ever, so each token is refreshed at most once. */
  lemma RefreshedOnce(cfg: Config, s: State, wait: nat, token: Uuid, steps: seq<Step>, wait': nat)
    requires Reachable(cfg, s) && Apply(cfg, s, Step(wait, Refresh(token))).reply.SessionIssued?
    ensures
      var s' := Run(cfg, Apply(cfg, s, Step(wait, Refresh(token))).state, steps);
      Apply(cfg, s', Step(wait', Refresh(token))).reply == Refused(InvalidToken)
  {
    ReachableOk(cfg, s);
    RunKeepsDead(cfg, Apply(cfg, s, Step(wait, Refresh(token))).state, steps, token);
  }

  /** Every token that still refreshes belongs to a session the predicate allows. */
  ghost predicate OnlyAllowed(s: State, allowed: (Uuid, Uuid, Uuid) -> bool) {
    forall x :: Live(s, x) ==> allowed(s.sessions[x].login, s.sessions[x].userId, s.sessions[x].tenantId)
  }

  /** A token issued now is of a new login, or it succeeds a live one of the same login and user. */
  lemma NewTokens(cfg: Config, s: State, op: Op)
    ensures
      var s' := Perform(cfg, s, op).state;
      s.next in s'.sessions && !(s.next in s.sessions && SameToken(s.sessions[s.next], s'.sessions[s.next])) ==>
        || s'.sessions[s.next].login == s.next
        || (op.Refresh? && Live(s, op.token) && s'.sessions[s.next].login == s.sessions[op.token].login
            && s'.sessions[s.next].userId == s.sessions[op.token].userId
            && s'.sessions[s.next].tenantId == s.sessions[op.token].tenantId)
  {
    hide CreateInviteAt, AcceptInviteAt, SetPlanAt, CleanInvitesAt;
    OtherOpsKeepSessions(cfg, s, op);
  }

  lemma StepKeepsAllowed(cfg: Config, s: State, step: Step, bound: Uuid, allowed: (Uuid, Uuid, Uuid) -> bool)
    requires OnlyAllowed(s, allowed) && bound <= s.next
    requires forall login, u, t :: login >= bound ==> allowed(login, u, t)
    ensures OnlyAllowed(Apply(cfg, s, step).state, allowed) && bound <= Apply(cfg, s, step).state.next
  {
    var now, s' := Later(s, step.wait), Apply(cfg, s, step).state;
    PerformMoves(cfg, now, step.op);
    NewTokens(cfg, now, step.op);
    hide Perform;
    forall x | Live(s', x)
      ensures allowed(s'.sessions[x].login, s'.sessions[x].userId, s'.sessions[x].tenantId)
    {
      if x in s.sessions && SameToken(s.sessions[x], s'.sessions[x]) {
        assert Live(s, x);
      }
    }
  }

  lemma {:induction false} RunKeepsAllowed(
    cfg: Config, s: State, steps: seq<Step>, bound: Uuid, allowed: (Uuid, Uuid, Uuid) -> bool)
    requires OnlyAllowed(s, allowed) && bound <= s.next
    requires forall login, u, t :: login >= bound ==> allowed(login, u, t)
    ensures OnlyAllowed(Run(cfg, s, steps), allowed)
    decreases |steps|
  {
    if steps == [] {
    } else {
      StepKeepsAllowed(cfg, s, steps[0], bound, allowed);
      RunKeepsAllowed(cfg, Apply(cfg, s, steps[0]).state, steps[1..], bound, allowed);
    }
  }

  /**
   After a logout of all sessions of a user, whatever happens next, a token of that user refreshes only if
   it descends from a login made after the logout.
   */
  lemma LogoutAllIsFinal(cfg: Config, s: State, wait: nat, u: Uuid, t: Uuid, steps: seq<Step>, wait': nat, x: Uuid)
    requires Reachable(cfg, s)
    ensures
      var out := Apply(cfg, s, Step(wait, LogoutAll(u, t))).state;
      var s' := Run(cfg, out, steps);
      x in s'.sessions && s'.sessions[x].userId == u && s'.sessions[x].tenantId == t
      && Apply(cfg, s', Step(wait', Refresh(x))).reply.SessionIssued?
      ==> s'.sessions[x].login >= s.next
  {
    var out := Apply(cfg, s, Step(wait, LogoutAll(u, t))).state;
    var allowed := (login: Uuid, u': Uuid, t': Uuid) => login >= s.next || u' != u || t' != t;
    RunKeepsAllowed(cfg, out, steps, s.next, allowed);
    assert x in Run(cfg, out, steps).sessions && Usable(Run(cfg, out, steps).sessions[x], Run(cfg, out, steps).clock + wait')
      ==> Live(Run(cfg, out, steps), x);
  }

  /** Logging out with a live token ends its whole login, by linearity: no descendant ever refreshes. */
  lemma LogoutEndsLogin(cfg: Config, s: State, wait: nat, token: Uuid, steps: seq<Step>, wait': nat, x: Uuid)
    requires Reachable(cfg, s) && Live(s, token)
    ensures
      var s' := Run(cfg, Apply(cfg, s, Step(wait, Logout(token))).state, steps);
      x in s'.sessions && s'.sessions[x].login == s.sessions[token].login
      ==> Apply(cfg, s', Step(wait', Refresh(x))).reply == Refused(InvalidToken)
  {
    ReachableOk(cfg, s);
    var login := s.sessions[token].login;
    var out := Apply(cfg, s, Step(wait, Logout(token))).state;
    var allowed := (login': Uuid, u: Uuid, t: Uuid) => login' != login;
    forall y | Live(out, y) ensures out.sessions[y].login != login {
      assert Live(s, y) && y != token;
    }
    RunKeepsAllowed(cfg, out, steps, s.next, allowed);
    assert forall y :: Live(Run(cfg, out, steps), y) ==> Run(cfg, out, steps).sessions[y].login != login;
  }

  // ---- Invites -------------------------------------------------------------------------------

  ghost predicate Used(s: State, i: Uuid) {
    i in s.invites && s.invites[i].usedAt.Some?
  }

  lemma StepKeepsUsed(cfg: Config, s: State, step: Step, i: Uuid)
    requires Used(s, i) && i < s.next
    ensures Used(Apply(cfg, s, step).state, i) && i < Apply(cfg, s, step).state.next
  {
  }

  lemma {:induction false} RunKeepsUsed(cfg: Config, s: State, steps: seq<Step>, i: Uuid)
    requires Used(s, i) && i < s.next
    ensures Used(Run(cfg, s, steps), i)
    decreases |steps|
  {
    if steps == [] {
    } else {
      StepKeepsUsed(cfg, s, steps[0], i);
      RunKeepsUsed(cfg, Apply(cfg, s, steps[0]).state, steps[1..], i);
    }
  }

  /** A used invite stays in the table, used, and never creates a second user. */
  lemma InviteUsedOnce(cfg: Config, s: State, first: Step, steps: seq<Step>, again: Step)
    requires Reachable(cfg, s) && first.op.AcceptInvite? && Apply(cfg, s, first).reply.Joined?
    requires again.op.AcceptInvite? && again.op.token == first.op.token
    ensures
      var s' := Run(cfg, Apply(cfg, s, first).state, steps);
      && Used(s', first.op.token)
      && Apply(cfg, s', again).reply.Refused? && Apply(cfg, s', again).state == Later(s', again.wait)
  {
    ReachableOk(cfg, s);
    RunKeepsUsed(cfg, Apply(cfg, s, first).state, steps, first.op.token);
  }
}
