/** What becomes of an invite: who may issue it, when it can be accepted, and whom it makes a member. */
module AuthInvites {
  import opened Prelude
  import opened SeatPolicy
  import opened Auth
  import opened AuthSeats

  // ---- Issuing ---------------------------------------------------------------------------------

  /**
   An invite is issued exactly for one to thirty days, to an email new to the tenant and of an allowed domain,
   by a super admin of the tenant, or by an organisation admin for any role but super admin. It expires that
   many days later, and nothing else changes; a refusal changes nothing at all.
   */
  lemma InviteIssuedExactly(cfg: Config, s: State, step: Step)
    requires step.op.CreateInvite?
    ensures
      var r, op, now := Apply(cfg, s, step), step.op, s.clock + step.wait;
      var days := if op.days.None? then 7 else op.days.value;
      && (r.reply.InviteIssued? <==>
            && 1 <= days <= 30 && op.tenantId in s.tenants && op.domainOk
            && (forall u :: u in s.users ==> !(s.users[u].tenantId == op.tenantId && s.users[u].email == op.email))
            && op.inviterId in s.users && s.users[op.inviterId].tenantId == op.tenantId
            && (|| s.users[op.inviterId].role == SuperAdmin
                || (s.users[op.inviterId].role == OrgAdmin && op.role != SuperAdmin)))
      && (r.reply.InviteIssued? ==>
            && r.reply == InviteIssued(s.next, now + days * 86_400_000)
            && r.state == s.(clock := now, next := s.next + 1, invites := s.invites[
                             s.next := Invite(op.tenantId, op.email, op.role, now + days * 86_400_000, None)]))
      && (!r.reply.InviteIssued? ==> r.reply.Refused? && r.state == s.(clock := now))
  {
    var op := step.op;
    forall u | u in s.users ensures
      IsUser(s.users, op.tenantId, op.email, u) <==> s.users[u].tenantId == op.tenantId && s.users[u].email == op.email
    {
    }
  }

  // ---- Keeping ---------------------------------------------------------------------------------

  /** The invite is as it was issued, or it expired unused and was swept away. */
  ghost predicate Pending(s: State, i: Uuid, invite: Invite) {
    && i < s.next && invite.tenantId in s.tenants
    && (if i in s.invites then s.invites[i] == invite else s.clock > invite.expiresAt)
  }

  /** Somebody accepted it. */
  ghost predicate Redeemed(s: State, i: Uuid) {
    i in s.invites && s.invites[i].usedAt.Some?
  }

  predicate IsSessionOp(op: Op) {
    op.Login? || op.Refresh? || op.Logout? || op.LogoutAll? || op.CleanSessions? || op.Nothing?
  }

  lemma LoginKeepsInvites(cfg: Config, s: State, op: Op)
    requires op.Login?
    ensures
      var s' := LoginAt(cfg, s, op).state;
      && s'.invites == s.invites && s'.tenants == s.tenants && s'.clock == s.clock && s.next <= s'.next
      && s'.users.Keys == s.users.Keys
      && forall u :: u in s.users ==> s'.users[u].tenantId == s.users[u].tenantId && s'.users[u].role == s.users[u].role
  {
  }

  lemma SessionOpsKeepInvites(cfg: Config, s: State, op: Op)
    requires IsSessionOp(op)
    ensures
      var s' := Perform(cfg, s, op).state;
      && s'.invites == s.invites && s'.tenants == s.tenants && s'.clock == s.clock && s.next <= s'.next
      && s'.users.Keys == s.users.Keys
      && forall u :: u in s.users ==> s'.users[u].tenantId == s.users[u].tenantId && s'.users[u].role == s.users[u].role
  {
    if op.Login? {
      LoginKeepsInvites(cfg, s, op);
    }
    hide LoginAt;
  }

  lemma OpKeepsPending(cfg: Config, s: State, op: Op, i: Uuid, invite: Invite)
    requires Pending(s, i, invite) && invite.usedAt.None?
    ensures op.CreateInvite? ==> Pending(CreateInviteAt(s, op).state, i, invite)
    ensures op.AcceptInvite? ==>
      && i < AcceptInviteAt(cfg, s, op).state.next
      && (Pending(AcceptInviteAt(cfg, s, op).state, i, invite) || Redeemed(AcceptInviteAt(cfg, s, op).state, i))
    ensures op.SetPlan? ==> Pending(SetPlanAt(s, op).state, i, invite)
    ensures Pending(CleanInvitesAt(s).state, i, invite)
  {
    hide SeatCheck, EmailInUse;
  }

  lemma StepKeepsPending(cfg: Config, s: State, step: Step, i: Uuid, invite: Invite)
    requires Pending(s, i, invite) && invite.usedAt.None?
    ensures Pending(Apply(cfg, s, step).state, i, invite) || Redeemed(Apply(cfg, s, step).state, i)
    ensures i < Apply(cfg, s, step).state.next
  {
    var now := Later(s, step.wait);
    assert Pending(now, i, invite);
    if IsSessionOp(step.op) {
      SessionOpsKeepInvites(cfg, now, step.op);
    } else {
      OpKeepsPending(cfg, now, step.op, i, invite);
    }
    hide LoginAt, RefreshAt, LogoutAt, LogoutAllAt, CreateInviteAt, AcceptInviteAt, SetPlanAt, CleanInvitesAt,
         CleanSessionsAt;
  }

  lemma OpKeepsRedeemed(cfg: Config, s: State, op: Op, i: Uuid)
    requires Redeemed(s, i) && i < s.next
    ensures op.CreateInvite? ==> Redeemed(CreateInviteAt(s, op).state, i) && i < CreateInviteAt(s, op).state.next
    ensures op.AcceptInvite? ==>
      Redeemed(AcceptInviteAt(cfg, s, op).state, i) && i < AcceptInviteAt(cfg, s, op).state.next
    ensures op.SetPlan? ==> Redeemed(SetPlanAt(s, op).state, i) && i < SetPlanAt(s, op).state.next
    ensures Redeemed(CleanInvitesAt(s).state, i) && i < CleanInvitesAt(s).state.next
  {
    hide SeatCheck, EmailInUse;
  }

  lemma StepKeepsRedeemed(cfg: Config, s: State, step: Step, i: Uuid)
    requires Redeemed(s, i) && i < s.next
    ensures Redeemed(Apply(cfg, s, step).state, i) && i < Apply(cfg, s, step).state.next
  {
    var now := Later(s, step.wait);
    assert Redeemed(now, i);
    if IsSessionOp(step.op) {
      SessionOpsKeepInvites(cfg, now, step.op);
    } else {
      OpKeepsRedeemed(cfg, now, step.op, i);
    }
    hide LoginAt, RefreshAt, LogoutAt, LogoutAllAt, CreateInviteAt, AcceptInviteAt, SetPlanAt, CleanInvitesAt,
         CleanSessionsAt;
  }

  lemma {:induction false} RunKeepsInvite(cfg: Config, s: State, steps: seq<Step>, i: Uuid, invite: Invite)
    requires invite.usedAt.None? && (Pending(s, i, invite) || (Redeemed(s, i) && i < s.next))
    ensures Pending(Run(cfg, s, steps), i, invite) || Redeemed(Run(cfg, s, steps), i)
    decreases |steps|
  {
    hide Redeemed, Apply;
    if steps == [] {
    } else {
      var s' := Apply(cfg, s, steps[0]).state;
      if Pending(s, i, invite) {
        StepKeepsPending(cfg, s, steps[0], i, invite);
      } else {
        StepKeepsRedeemed(cfg, s, steps[0], i);
      }
      RunKeepsInvite(cfg, s', steps[1..], i, invite);
    }
  }

  // ---- Accepting -------------------------------------------------------------------------------

  /** A learner finds a free seat, or the tenant is on grace. */
  ghost predicate RoomFor(cfg: Config, s: State, invite: Invite)
    requires invite.tenantId in s.tenants
  {
    var tenant := s.tenants[invite.tenantId];
    || invite.role != Learner
    || |Seated(s, invite.tenantId, s.clock)| < LimitIn(cfg, s, invite.tenantId)
    || (cfg.graceDays > 0 && tenant.subscription.Some? && s.clock <= tenant.updatedAt + cfg.graceDays * 86_400_000)
  }

  /** The new member, its place in the tables, and the used invite; nothing else changes. */
  function Welcomed(s: State, i: Uuid, invite: Invite): State {
    var learner := invite.role == Learner;
    State(s.clock, s.next + 1, s.tenants,
          s.users[s.next := User(invite.tenantId, invite.email, invite.role, None)],
          s.memberships[s.next := Membership(invite.tenantId, true, learner, if learner then Some(s.clock) else None)],
          s.sessions,
          s.invites[i := Invite(invite.tenantId, invite.email, invite.role, invite.expiresAt, Some(s.clock))])
  }

  lemma AcceptDecides(cfg: Config, s: State, op: Op, invite: Invite)
    requires op.AcceptInvite? && Pending(s, op.token, invite) && invite.usedAt.None?
    ensures
      var r := AcceptInviteAt(cfg, s, op);
      && (r.reply.Joined? <==>
            && op.passwordOk && op.domainOk && s.clock <= invite.expiresAt
            && (forall u :: u in s.users ==>
                  !(s.users[u].tenantId == invite.tenantId && s.users[u].email == invite.email))
            && RoomFor(cfg, s, invite))
      && (r.reply.Joined? ==> r.state == Welcomed(s, op.token, invite) && r.reply.userId == s.next)
      && (!r.reply.Joined? ==> r.reply.Refused? && r.state == s)
  {
    QueryCountsPolicy(s, invite.tenantId);
    hide SeatCount, Seated;
    forall u | u in s.users ensures
      IsUser(s.users, invite.tenantId, invite.email, u)
      <==> s.users[u].tenantId == invite.tenantId && s.users[u].email == invite.email
    {
    }
  }

  /**
   An invite is good until it expires. Whatever happens after it was issued, jobs included, as long as nobody
   accepted it, it can be accepted if and only if it has not expired, the password and the email's domain are
   acceptable, the email is still new to the tenant and there is room for the role. Acceptance makes exactly
   the invited person a member, with the invited role; a refusal, whatever its reason, changes nothing.
   */
  lemma InviteIsGood(cfg: Config, s: State, offer: Step, steps: seq<Step>, accept: Step)
    requires offer.op.CreateInvite? && Apply(cfg, s, offer).reply.InviteIssued?
    requires accept.op.AcceptInvite? && accept.op.token == Apply(cfg, s, offer).reply.token
    requires !Redeemed(Run(cfg, Apply(cfg, s, offer).state, steps), accept.op.token)
    ensures
      var op, days := offer.op, if offer.op.days.None? then 7 else offer.op.days.value;
      var invite := Invite(op.tenantId, op.email, op.role, s.clock + offer.wait + days * 86_400_000, None);
      var before := Run(cfg, Apply(cfg, s, offer).state, steps);
      var now, r := before.(clock := before.clock + accept.wait), Apply(cfg, before, accept);
      && invite.tenantId in now.tenants
      && (r.reply.Joined? <==>
            && accept.op.passwordOk && accept.op.domainOk && now.clock <= invite.expiresAt
            && (forall u :: u in now.users ==>
                  !(now.users[u].tenantId == invite.tenantId && now.users[u].email == invite.email))
            && RoomFor(cfg, now, invite))
      && (r.reply.Joined? ==> r.state == Welcomed(now, accept.op.token, invite) && r.reply.userId == now.next)
      && (!r.reply.Joined? ==> r.reply.Refused? && r.state == now)
  {
    InviteIssuedExactly(cfg, s, offer);
    var op, days := offer.op, if offer.op.days.None? then 7 else offer.op.days.value;
    var invite := Invite(op.tenantId, op.email, op.role, s.clock + offer.wait + days * 86_400_000, None);
    var before := Run(cfg, Apply(cfg, s, offer).state, steps);
    assert Pending(Apply(cfg, s, offer).state, s.next, invite);
    RunKeepsInvite(cfg, Apply(cfg, s, offer).state, steps, s.next, invite);
    hide RoomFor, Run, AcceptInviteAt, CreateInviteAt;
    assert Pending(before, accept.op.token, invite);
    AcceptDecides(cfg, Later(before, accept.wait), accept.op, invite);
  }

  /** Which reason a refusal gives: that of the first check that fails, in this order. */
  lemma AcceptReasons(cfg: Config, s: State, step: Step)
    requires step.op.AcceptInvite? && Apply(cfg, s, step).reply.Refused?
    ensures
      var op, now, reason := step.op, s.(clock := s.clock + step.wait), Apply(cfg, s, step).reply.reason;
      var known := op.token in s.invites;
      && (reason == BadRequest <==> !op.passwordOk)
      && (reason == NotFound ==> op.passwordOk && (known ==> s.invites[op.token].tenantId !in s.tenants))
      && (op.passwordOk && !known ==> reason == NotFound)
      && (op.passwordOk && known ==>
            var invite := s.invites[op.token];
            && (reason == AlreadyUsed <==> invite.usedAt.Some?)
            && (reason == Expired <==> invite.usedAt.None? && now.clock > invite.expiresAt)
            && (invite.usedAt.None? && now.clock <= invite.expiresAt && invite.tenantId in s.tenants ==>
                  && (reason == DomainNotAllowed <==> !op.domainOk)
                  && (reason == SeatLimit <==> op.domainOk && !RoomFor(cfg, now, invite))
                  && (reason == EmailTaken <==> op.domainOk && RoomFor(cfg, now, invite))))
  {
    if step.op.token in s.invites && s.invites[step.op.token].tenantId in s.tenants {
      QueryCountsPolicy(Later(s, step.wait), s.invites[step.op.token].tenantId);
    }
    hide SeatCount, Seated;
  }

  lemma IssueReasons(cfg: Config, s: State, step: Step)
    requires step.op.CreateInvite? && Apply(cfg, s, step).reply.Refused?
    ensures
      var op, reason := step.op, Apply(cfg, s, step).reply.reason;
      var days := if op.days.None? then 7 else op.days.value;
      var taken := exists u :: u in s.users && s.users[u].tenantId == op.tenantId && s.users[u].email == op.email;
      var member := op.inviterId in s.users && s.users[op.inviterId].tenantId == op.tenantId;
      && (reason == BadRequest <==> days < 1 || days > 30)
      && (reason == EmailTaken <==> 1 <= days <= 30 && taken)
      && (1 <= days <= 30 && !taken && !member ==> reason == NotFound)
      && (1 <= days <= 30 && !taken && member ==>
            var actor := s.users[op.inviterId].role;
            var may := actor == SuperAdmin || (actor == OrgAdmin && op.role != SuperAdmin);
            && (reason == Forbidden <==> !may)
            && (reason == NotFound <==> may && op.tenantId !in s.tenants)
            && (reason == DomainNotAllowed <==> may && op.tenantId in s.tenants))
  {
    var op := step.op;
    if u :| u in s.users && s.users[u].tenantId == op.tenantId && s.users[u].email == op.email {
      assert IsUser(s.users, op.tenantId, op.email, u);
    }
  }

  // ---- Roles -----------------------------------------------------------------------------------

  /** The tenant has no super admin, and nobody is about to become one. */
  ghost predicate NoSuperAdmin(s: State, t: Uuid) {
    && (forall u :: u in s.users && s.users[u].tenantId == t ==> s.users[u].role != SuperAdmin)
    && (forall i :: i in s.invites && s.invites[i].tenantId == t ==> s.invites[i].role != SuperAdmin)
  }

  lemma OpNeverPromotes(cfg: Config, s: State, op: Op, t: Uuid)
    requires NoSuperAdmin(s, t)
    ensures op.CreateInvite? ==> NoSuperAdmin(CreateInviteAt(s, op).state, t)
    ensures op.AcceptInvite? ==> NoSuperAdmin(AcceptInviteAt(cfg, s, op).state, t)
    ensures op.SetPlan? ==> NoSuperAdmin(SetPlanAt(s, op).state, t)
    ensures NoSuperAdmin(CleanInvitesAt(s).state, t)
  {
    hide SeatCheck, EmailInUse;
  }

  lemma SamePeople(s: State, s': State, t: Uuid)
    requires NoSuperAdmin(s, t) && s'.invites == s.invites && s'.users.Keys == s.users.Keys
    requires forall u :: u in s.users ==>
      u in s'.users && s'.users[u].tenantId == s.users[u].tenantId && s'.users[u].role == s.users[u].role
    ensures NoSuperAdmin(s', t)
  {
    assert forall u :: u in s'.users ==> u in s.users;
  }

  lemma StepNeverPromotes(cfg: Config, s: State, step: Step, t: Uuid)
    requires NoSuperAdmin(s, t)
    ensures NoSuperAdmin(Apply(cfg, s, step).state, t)
  {
    var now := Later(s, step.wait);
    assert NoSuperAdmin(now, t);
    if IsSessionOp(step.op) {
      SessionOpsKeepInvites(cfg, now, step.op);
      SamePeople(now, Perform(cfg, now, step.op).state, t);
    } else {
      OpNeverPromotes(cfg, now, step.op, t);
    }
    hide LoginAt, RefreshAt, LogoutAt, LogoutAllAt, CreateInviteAt, AcceptInviteAt, SetPlanAt, CleanInvitesAt,
         CleanSessionsAt, NoSuperAdmin;
  }

  /** Nobody can be promoted past the tenant: without a super admin to begin with, no run ever makes one. */
  lemma {:induction false} NobodyBecomesSuperAdmin(cfg: Config, s: State, steps: seq<Step>, t: Uuid)
    requires NoSuperAdmin(s, t)
    ensures NoSuperAdmin(Run(cfg, s, steps), t)
    decreases |steps|
  {
    hide NoSuperAdmin, Apply;
    if steps == [] {
    } else {
      StepNeverPromotes(cfg, s, steps[0], t);
      NobodyBecomesSuperAdmin(cfg, Apply(cfg, s, steps[0]).state, steps[1..], t);
    }
  }

  // ---- The jobs --------------------------------------------------------------------------------

  /** After a job, no invite is left that expired unused, and every other one is still there. */
  lemma InviteJobDeletes(cfg: Config, s: State, wait: nat, i: Uuid)
    ensures
      var s', now := Apply(cfg, s, Step(wait, CleanInvites)).state, s.clock + wait;
      && (i in s'.invites <==> i in s.invites && !(s.invites[i].usedAt.None? && now > s.invites[i].expiresAt))
      && (i in s'.invites ==> s'.invites[i] == s.invites[i])
      && s' == s.(clock := now, invites := s'.invites)
  {
  }

  /** After the other, no token is left that expired or was revoked over fourteen days ago. */
  lemma TokenJobDeletes(cfg: Config, s: State, wait: nat, x: Uuid)
    ensures
      var s', now := Apply(cfg, s, Step(wait, CleanSessions)).state, s.clock + wait;
      && (x in s'.sessions <==>
            && x in s.sessions && now <= s.sessions[x].expiresAt
            && (s.sessions[x].revokedAt.Some? ==> now - s.sessions[x].revokedAt.value <= 14 * 86_400_000))
      && (x in s'.sessions ==> s'.sessions[x] == s.sessions[x])
      && s' == s.(clock := now, sessions := s'.sessions)
  {
  }
}
