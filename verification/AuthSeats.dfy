/** Seat accounting: the count query against the written policy, and how the count moves in runs. */
module AuthSeats {
  import opened Prelude
  import opened SeatPolicy
  import opened Auth

  /** The memberships of a tenant that occupy a seat at `now`, by the policy. */
  ghost function Seated(s: State, t: Uuid, now: int): set<Uuid>
    requires t in s.tenants
  {
    set u | u in s.memberships && u in s.users && s.memberships[u].tenantId == t
            && IsActiveLearnerSeat(s.users[u].role, s.memberships[u].isActive, s.memberships[u].eligible,
                                   s.memberships[u].lastActivity, s.tenants[t].periodDays, now)
  }

  /** The database counts exactly the memberships the policy calls active seats. */
  lemma QueryCountsPolicy(s: State, t: Uuid)
    requires t in s.tenants
    ensures SeatsInUse(s, t) == |Seated(s, t, s.clock)|
  {
    var threshold := s.clock - s.tenants[t].periodDays * DAY_MS;
    assert (set u | u in s.memberships && MatchesSeatQuery(s.users, s.memberships, t, threshold, u)) == Seated(s, t, s.clock);
  }

  /** The capacity check in plain terms: seats in use, limit, and the end of a grace period that applies. */
  lemma VerdictSpelledOut(cfg: Config, s: State, t: Uuid)
    requires t in s.tenants
    ensures
      var verdict, tenant := SeatCheck(cfg, s, t), s.tenants[t];
      var until := tenant.updatedAt + cfg.graceDays * 86_400_000;
      && verdict.used == |Seated(s, t, s.clock)|
      && verdict.limit == (if tenant.includedSeats.Some? then tenant.includedSeats.value else cfg.freeSeats)
      && (verdict.Free? <==> verdict.used < verdict.limit)
      && (verdict.Grace? <==>
            verdict.used >= verdict.limit && cfg.graceDays > 0 && tenant.subscription.Some? && s.clock <= until)
      && (verdict.Grace? ==> verdict.until == until)
  {
    QueryCountsPolicy(s, t);
  }

  // ---- What an operation does to the seats -----------------------------------------------------

  /** The learner a successful invite acceptance seats. */
  ghost function Newcomer(cfg: Config, s: State, op: Op, t: Uuid): set<Uuid> {
    var r := Perform(cfg, s, op);
    if op.AcceptInvite? && r.reply.Joined? && r.reply.tenantId == t && s.invites[op.token].role.Learner?
    then {r.reply.userId} else {}
  }

  /** The learner whose seat a login brings back: eligible, but without activity inside the window. */
  ghost function Returner(cfg: Config, s: State, op: Op, t: Uuid): set<Uuid>
    requires t in s.tenants
  {
    var r := Perform(cfg, s, op);
    if op.Login? && r.reply.SessionIssued? then
      var u := r.reply.userId;
      if u in s.memberships && u in s.users && s.memberships[u].tenantId == t && u !in Seated(s, t, s.clock)
         && s.users[u].role.Learner? && s.memberships[u].isActive && s.memberships[u].eligible
      then {u} else {}
    else {}
  }

  lemma SeatsStay(s: State, s': State, t: Uuid)
    requires t in s.tenants && t in s'.tenants && s'.tenants[t].periodDays == s.tenants[t].periodDays
    requires s'.users == s.users && s'.memberships == s.memberships
    ensures Seated(s', t, s.clock) == Seated(s, t, s.clock)
  {
  }

  lemma LoginSeats(cfg: Config, s: State, op: Op, t: Uuid)
    requires PeopleOk(s) && op.Login? && t in s.tenants
    ensures
      var s' := LoginAt(cfg, s, op).state;
      t in s'.tenants && s'.clock == s.clock && Seated(s', t, s.clock) == Seated(s, t, s.clock) + Returner(cfg, s, op, t)
  {
    var r := LoginAt(cfg, s, op);
    assert Perform(cfg, s, op) == r;
    if r.reply.SessionIssued? {
      var u := r.reply.userId;
      assert IsUser(s.users, op.tenantId, op.email, u);
      assert r.state.memberships == Touched(s, u).memberships && r.state.users == Touched(s, u).users;
      forall v ensures v in Seated(r.state, t, s.clock) <==> v in Seated(s, t, s.clock) + Returner(cfg, s, op, t) {
      }
    }
  }

  lemma AcceptSeats(cfg: Config, s: State, op: Op, t: Uuid)
    requires PeopleOk(s) && op.AcceptInvite? && t in s.tenants
    ensures
      var s' := AcceptInviteAt(cfg, s, op).state;
      t in s'.tenants && s'.clock == s.clock && Seated(s', t, s.clock) == Seated(s, t, s.clock) + Newcomer(cfg, s, op, t)
  {
    var r := AcceptInviteAt(cfg, s, op);
    assert Perform(cfg, s, op) == r;
    if r.reply.Joined? {
      forall v ensures v in Seated(r.state, t, s.clock) <==> v in Seated(s, t, s.clock) + Newcomer(cfg, s, op, t) {
        assert s.next !in s.users && s.next !in s.memberships;
      }
    }
  }

  lemma SeatsLapse(s: State, wait: nat, t: Uuid)
    requires t in s.tenants
    ensures Seated(Later(s, wait), t, s.clock + wait) <= Seated(s, t, s.clock)
  {
  }

  lemma NobodySeated(cfg: Config, s: State, op: Op, t: Uuid)
    requires t in s.tenants
    ensures !op.AcceptInvite? ==> Newcomer(cfg, s, op, t) == {}
    ensures !op.Login? ==> Returner(cfg, s, op, t) == {}
  {
  }

  /**
   At one instant, an operation seats exactly the learner it lets in and the learner it brings back; no
   operation frees a seat. Between operations, seats only lapse.
   */
  lemma StepSeats(cfg: Config, s: State, step: Step, t: Uuid)
    requires PeopleOk(s) && t in s.tenants
    ensures
      var now, s' := Later(s, step.wait), Apply(cfg, s, step).state;
      && t in s'.tenants && s'.clock == now.clock
      && Seated(now, t, now.clock) <= Seated(s, t, s.clock)
      && Seated(s', t, s'.clock) ==
           Seated(now, t, now.clock) + Newcomer(cfg, now, step.op, t) + Returner(cfg, now, step.op, t)
  {
    hide PeopleOk, SeatCount, EmailInUse, LoginAt, AcceptInviteAt, Newcomer, Returner;
    var now := Later(s, step.wait);
    PeopleUntouched(s, now);
    SeatsLapse(s, step.wait, t);
    NobodySeated(cfg, now, step.op, t);
    match step.op
    case Login(_, _, _) => LoginSeats(cfg, now, step.op, t);
    case AcceptInvite(_, _, _) => AcceptSeats(cfg, now, step.op, t);
    case _ => SeatsStay(now, Apply(cfg, s, step).state, t);
  }

  // ---- Runs ------------------------------------------------------------------------------------

  /** A step that may take the tenant over its limit: a lapsed learner's login or an acceptance on grace. */
  ghost predicate Overrun(cfg: Config, s: State, step: Step, t: Uuid)
    requires t in s.tenants
  {
    var now := Later(s, step.wait);
    || Returner(cfg, now, step.op, t) != {}
    || (Newcomer(cfg, now, step.op, t) != {} && Apply(cfg, s, step).reply.grace)
  }

  ghost function LimitIn(cfg: Config, s: State, t: Uuid): int
    requires t in s.tenants
  {
    SeatLimitOf(cfg, s.tenants[t])
  }

  lemma OneAtATime(cfg: Config, s: State, op: Op, t: Uuid)
    requires t in s.tenants
    ensures |Newcomer(cfg, s, op, t)| <= 1 && |Returner(cfg, s, op, t)| <= 1
    ensures Newcomer(cfg, s, op, t) == {} || Returner(cfg, s, op, t) == {}
  {
    hide Perform;
  }

  lemma NewcomerFits(cfg: Config, s: State, op: Op, t: Uuid)
    requires t in s.tenants && Newcomer(cfg, s, op, t) != {}
    ensures Perform(cfg, s, op).reply.Joined?
    ensures Perform(cfg, s, op).reply.grace || |Seated(s, t, s.clock)| < LimitIn(cfg, s, t)
  {
    hide Seated, SeatsInUse, EmailInUse;
    QueryCountsPolicy(s, t);
  }

  lemma StepSeatsBound(cfg: Config, s: State, step: Step, t: Uuid)
    requires PeopleOk(s) && t in s.tenants
    ensures t in Apply(cfg, s, step).state.tenants
    ensures
      var s' := Apply(cfg, s, step).state;
      |Seated(s', t, s'.clock)|
        <= Max(|Seated(s, t, s.clock)|, LimitIn(cfg, s, t)) + if Overrun(cfg, s, step, t) then 1 else 0
  {
    hide PeopleOk, Seated, Newcomer, Returner, Perform;
    StepSeats(cfg, s, step, t);
    var now := Later(s, step.wait);
    SubsetCardinality(Seated(now, t, now.clock), Seated(s, t, s.clock));
    OneAtATime(cfg, now, step.op, t);
    if Newcomer(cfg, now, step.op, t) != {} {
      NewcomerFits(cfg, now, step.op, t);
    }
  }

  ghost predicate NoCut(cfg: Config, s: State, steps: seq<Step>, t: Uuid)
    requires t in s.tenants
    decreases |steps|
  {
    steps != [] ==>
      var s' := Apply(cfg, s, steps[0]).state;
      t in s'.tenants && LimitIn(cfg, s, t) <= LimitIn(cfg, s', t) && NoCut(cfg, s', steps[1..], t)
  }

  /** How many steps of the run overran. */
  ghost function Overruns(cfg: Config, s: State, steps: seq<Step>, t: Uuid): nat
    requires t in s.tenants && NoCut(cfg, s, steps, t)
    decreases |steps|
  {
    if steps == [] then 0
    else (if Overrun(cfg, s, steps[0], t) then 1 else 0) + Overruns(cfg, Apply(cfg, s, steps[0]).state, steps[1..], t)
  }

  lemma {:induction false} RunSeatsBound(cfg: Config, s: State, steps: seq<Step>, t: Uuid)
    requires Inv(s) && t in s.tenants && NoCut(cfg, s, steps, t)
    ensures
      var s' := Run(cfg, s, steps);
      && t in s'.tenants && LimitIn(cfg, s, t) <= LimitIn(cfg, s', t)
      && |Seated(s', t, s'.clock)|
           <= Max(|Seated(s, t, s.clock)|, LimitIn(cfg, s', t)) + Overruns(cfg, s, steps, t)
    decreases |steps|
  {
    if steps == [] {
    } else {
      StepKeeps(cfg, s, steps[0]);
      StepSeatsBound(cfg, s, steps[0], t);
      RunSeatsBound(cfg, Apply(cfg, s, steps[0]).state, steps[1..], t);
    }
  }

  /**
   While the limit is not cut, a tenant that starts within it exceeds it by at most one seat for each
   lapsed learner's login and each acceptance on grace; without any, it stays within its limit.
   */
  lemma SeatLimitKept(cfg: Config, s: State, steps: seq<Step>, t: Uuid)
    requires Reachable(cfg, s) && t in s.tenants && NoCut(cfg, s, steps, t)
    requires SeatsInUse(s, t) <= LimitIn(cfg, s, t)
    ensures
      var s' := Run(cfg, s, steps);
      t in s'.tenants && SeatsInUse(s', t) <= LimitIn(cfg, s', t) + Overruns(cfg, s, steps, t)
  {
    ReachableOk(cfg, s);
    RunSeatsBound(cfg, s, steps, t);
    QueryCountsPolicy(s, t);
    QueryCountsPolicy(Run(cfg, s, steps), t);
  }

  // ---- The grace period ------------------------------------------------------------------------

  /** Nothing writes the tenant's row. */
  predicate Unwritten(steps: seq<Step>, t: Uuid) {
    forall i :: 0 <= i < |steps| ==> !(steps[i].op.SetPlan? && steps[i].op.tenantId == t)
  }

  lemma OthersKeepTenants(cfg: Config, s: State, op: Op)
    ensures !op.SetPlan? ==> Perform(cfg, s, op).state.tenants == s.tenants
  {
  }

  lemma {:induction false} TenantStays(cfg: Config, s: State, steps: seq<Step>, t: Uuid)
    requires t in s.tenants && Unwritten(steps, t)
    ensures t in Run(cfg, s, steps).tenants && Run(cfg, s, steps).tenants[t] == s.tenants[t]
    decreases |steps|
  {
    hide LoginAt, AcceptInviteAt, CreateInviteAt;
    if steps == [] {
    } else {
      OthersKeepTenants(cfg, Later(s, steps[0].wait), steps[0].op);
      TenantStays(cfg, Apply(cfg, s, steps[0]).state, steps[1..], t);
    }
  }

  /**
   The grace period restarts with every write to the tenant's row. Until the next write, the capacity check
   refuses if and only if the seats of the written plan are used up and the tenant has no subscription, no
   grace is configured, or the grace period counted from that write is over.
   */
  lemma GraceRestarts(cfg: Config, s: State, write: Step, steps: seq<Step>, t: Uuid)
    requires t in s.tenants && write.op.SetPlan? && write.op.tenantId == t && Unwritten(steps, t)
    ensures
      var s' := Run(cfg, Apply(cfg, s, write).state, steps);
      && t in s'.tenants
      && (SeatCheck(cfg, s', t).Full? <==>
            && SeatsInUse(s', t) >= write.op.seats.GetOr(cfg.freeSeats)
            && (cfg.graceDays == 0 || write.op.subscription.None?
                || s'.clock > s.clock + write.wait + cfg.graceDays * DAY_MS))
  {
    hide Run, SeatCount;
    TenantStays(cfg, Apply(cfg, s, write).state, steps, t);
  }
}
