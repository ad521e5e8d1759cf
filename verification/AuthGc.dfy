/** The two cleanup jobs are invisible: no request can tell whether, when or how often they ran. */
module AuthGc {
  import opened Prelude
  import opened SeatPolicy
  import opened Auth

  /** The same step without garbage collection: time passes all the same. */
  function Uncollected(step: Step): Step {
    if step.op.CleanSessions? || step.op.CleanInvites? then Step(step.wait, Nothing) else step
  }

  function UncollectedRun(steps: seq<Step>): (r: seq<Step>)
    ensures |r| == |steps| && forall i :: 0 <= i < |steps| ==> r[i] == Uncollected(steps[i])
  {
    seq(|steps|, i requires 0 <= i < |steps| => Uncollected(steps[i]))
  }

  /** Accepted in both or refused in both, and if accepted, with the same tokens and users. */
  predicate SameOutcome(a: Reply, b: Reply) {
    a == b || (a.Refused? && b.Refused?)
  }

  /** `lean` lacks only rows of `full` that no request will ever accept again. */
  ghost predicate Collected(full: State, lean: State) {
    && lean.clock == full.clock && lean.next == full.next
    && lean.tenants == full.tenants && lean.users == full.users && lean.memberships == full.memberships
    && (forall x :: x in lean.sessions ==> x in full.sessions && lean.sessions[x] == full.sessions[x])
    && (forall x :: x in full.sessions && x !in lean.sessions ==> !Usable(full.sessions[x], full.clock))
    && (forall i :: i in lean.invites ==> i in full.invites && lean.invites[i] == full.invites[i])
    && (forall i :: i in full.invites && i !in lean.invites ==>
          full.invites[i].usedAt.None? && full.invites[i].expiresAt < full.clock)
  }

  lemma LoginAgrees(cfg: Config, full: State, lean: State, op: Op)
    requires Collected(full, lean) && SessionsOk(full) && op.Login?
    ensures LoginAt(cfg, full, op).reply == LoginAt(cfg, lean, op).reply
    ensures Collected(LoginAt(cfg, full, op).state, LoginAt(cfg, lean, op).state)
  {
  }

  lemma RefreshAgrees(cfg: Config, full: State, lean: State, token: Uuid)
    requires Collected(full, lean) && SessionsOk(full)
    ensures RefreshAt(cfg, full, token).reply == RefreshAt(cfg, lean, token).reply
    ensures Collected(RefreshAt(cfg, full, token).state, RefreshAt(cfg, lean, token).state)
  {
  }

  lemma LogoutAgrees(full: State, lean: State, token: Uuid)
    requires Collected(full, lean)
    ensures Collected(LogoutAt(full, token).state, LogoutAt(lean, token).state)
    ensures LogoutAt(full, token).reply == LogoutAt(lean, token).reply
  {
    if token in lean.sessions {
      assert lean.sessions[token] == full.sessions[token];
    } else {
      assert LogoutAt(lean, token).state == lean;
    }
  }

  lemma LogoutAllAgrees(full: State, lean: State, u: Uuid, t: Uuid)
    requires Collected(full, lean)
    ensures Collected(LogoutAllAt(full, u, t).state, LogoutAllAt(lean, u, t).state)
    ensures LogoutAllAt(full, u, t).reply == LogoutAllAt(lean, u, t).reply
  {
  }

  lemma CreateInviteAgrees(full: State, lean: State, op: Op)
    requires Collected(full, lean) && PeopleOk(full) && op.CreateInvite?
    ensures CreateInviteAt(full, op).reply == CreateInviteAt(lean, op).reply
    ensures Collected(CreateInviteAt(full, op).state, CreateInviteAt(lean, op).state)
  {
  }

  /** The request is to accept an invite that expired unused and was swept away. */
  predicate Swept(full: State, lean: State, op: Op) {
    op.AcceptInvite? && op.passwordOk && op.token in full.invites && op.token !in lean.invites
  }

  /** The replies to a request are equal, but for a swept invite, which is unknown instead of expired. */
  predicate AgreesOn(full: State, lean: State, op: Op, a: Reply, b: Reply) {
    if Swept(full, lean, op) then a == Refused(Expired) && b == Refused(NotFound) else a == b
  }

  lemma SeatsAgree(cfg: Config, full: State, lean: State)
    requires Collected(full, lean)
    ensures forall t :: t in full.tenants ==> SeatCheck(cfg, full, t) == SeatCheck(cfg, lean, t)
  {
    hide SeatCount;
  }

  lemma JoinAgrees(full: State, lean: State, token: Uuid, grace: bool)
    requires Collected(full, lean) && token in lean.invites && token in full.invites
    ensures Join(full, token, grace).reply == Join(lean, token, grace).reply
    ensures Collected(Join(full, token, grace).state, Join(lean, token, grace).state)
  {
  }

  lemma AcceptInviteAgrees(cfg: Config, full: State, lean: State, op: Op)
    requires Collected(full, lean) && op.AcceptInvite?
    ensures AgreesOn(full, lean, op, AcceptInviteAt(cfg, full, op).reply, AcceptInviteAt(cfg, lean, op).reply)
    ensures Collected(AcceptInviteAt(cfg, full, op).state, AcceptInviteAt(cfg, lean, op).state)
  {
    hide EmailInUse, SeatCheck, Join;
    SeatsAgree(cfg, full, lean);
    if op.token in lean.invites && op.token in full.invites && full.invites[op.token] == lean.invites[op.token] {
      JoinAgrees(full, lean, op.token, true);
      JoinAgrees(full, lean, op.token, false);
    }
  }

  lemma SetPlanAgrees(full: State, lean: State, op: Op)
    requires Collected(full, lean) && op.SetPlan?
    ensures SetPlanAt(full, op).reply == SetPlanAt(lean, op).reply
    ensures Collected(SetPlanAt(full, op).state, SetPlanAt(lean, op).state)
  {
  }

  /** What the jobs delete, nobody would have accepted. */
  lemma CleanupsCollect(full: State, lean: State)
    requires Collected(full, lean)
    ensures Collected(full, CleanSessionsAt(lean).state)
    ensures Collected(full, CleanInvitesAt(lean).state)
    ensures CleanSessionsAt(lean).reply == CleanInvitesAt(lean).reply == Done
  {
  }

  lemma PerformAgrees(cfg: Config, full: State, lean: State, step: Step)
    requires Collected(full, lean) && Inv(full)
    ensures
      var a, b := Perform(cfg, full, Uncollected(step).op), Perform(cfg, lean, step.op);
      AgreesOn(full, lean, step.op, a.reply, b.reply) && Collected(a.state, b.state)
  {
    hide Collected, SessionsOk, PeopleOk, LoginAt, RefreshAt, LogoutAt, LogoutAllAt, CreateInviteAt, AcceptInviteAt,
         SetPlanAt, CleanSessionsAt, CleanInvitesAt;
    match step.op
    case Login(_, _, _) => LoginAgrees(cfg, full, lean, step.op);
    case Refresh(token) => RefreshAgrees(cfg, full, lean, token);
    case Logout(token) => LogoutAgrees(full, lean, token);
    case LogoutAll(u, t) => LogoutAllAgrees(full, lean, u, t);
    case CreateInvite(_, _, _, _, _, _) => CreateInviteAgrees(full, lean, step.op);
    case AcceptInvite(_, _, _) => AcceptInviteAgrees(cfg, full, lean, step.op);
    case SetPlan(_, _, _) => SetPlanAgrees(full, lean, step.op);
    case _ => CleanupsCollect(full, lean);
  }

  lemma TimeAgrees(full: State, lean: State, wait: nat)
    requires Collected(full, lean) && Inv(full)
    ensures Collected(Later(full, wait), Later(lean, wait)) && Inv(Later(full, wait))
  {
    PeopleUntouched(full, Later(full, wait));
    NoNewLifeKeeps(full, Later(full, wait));
  }

  /** The replies to request i, and the tables it meets, with the cleanups and without them. */
  ghost predicate AgreesAt(cfg: Config, full: State, lean: State, steps: seq<Step>, i: nat)
    requires i < |steps| == |Replies(cfg, lean, steps)| == |Replies(cfg, full, UncollectedRun(steps))|
  {
    AgreesOn(Run(cfg, full, UncollectedRun(steps)[..i]), Run(cfg, lean, steps[..i]), steps[i].op,
             Replies(cfg, full, UncollectedRun(steps))[i], Replies(cfg, lean, steps)[i])
  }

  lemma {:induction false} OneReplyEach(cfg: Config, s: State, steps: seq<Step>)
    ensures |Replies(cfg, s, steps)| == |steps|
    decreases |steps|
  {
    if steps == [] {
    } else {
      OneReplyEach(cfg, Apply(cfg, s, steps[0]).state, steps[1..]);
    }
  }

  lemma StepAgrees(cfg: Config, full: State, lean: State, step: Step)
    requires Collected(full, lean) && Inv(full)
    ensures
      var a, b := Apply(cfg, full, Uncollected(step)), Apply(cfg, lean, step);
      AgreesOn(full, lean, step.op, a.reply, b.reply) && Collected(a.state, b.state) && Inv(a.state)
  {
    hide Collected, Inv, Perform;
    StepKeeps(cfg, full, Uncollected(step));
    TimeAgrees(full, lean, step.wait);
    PerformAgrees(cfg, Later(full, step.wait), Later(lean, step.wait), step);
  }

  /** The simulation: the tables with cleanups always lack only rows no request will ever accept again. */
  lemma {:induction false} RunAgrees(cfg: Config, full: State, lean: State, steps: seq<Step>)
    requires Collected(full, lean) && Inv(full)
    ensures |Replies(cfg, lean, steps)| == |steps| == |Replies(cfg, full, UncollectedRun(steps))|
    ensures forall i :: 0 <= i < |steps| ==> AgreesAt(cfg, full, lean, steps, i)
    ensures Collected(Run(cfg, full, UncollectedRun(steps)), Run(cfg, lean, steps))
    decreases |steps|
  {
    hide Collected, Inv, Apply, AgreesOn;
    OneReplyEach(cfg, lean, steps);
    OneReplyEach(cfg, full, UncollectedRun(steps));
    if steps == [] {
    } else {
      var step, rest := steps[0], steps[1..];
      var plain := UncollectedRun(steps);
      assert plain[0] == Uncollected(step) && plain[1..] == UncollectedRun(rest);
      var a, b := Apply(cfg, full, plain[0]), Apply(cfg, lean, step);
      StepAgrees(cfg, full, lean, step);
      RunAgrees(cfg, a.state, b.state, rest);
      forall i | 0 <= i < |steps| ensures AgreesAt(cfg, full, lean, steps, i) {
        if i == 0 {
        } else {
          assert AgreesAt(cfg, a.state, b.state, rest, i - 1);
          assert steps[..i][1..] == rest[..i - 1] && plain[..i][1..] == UncollectedRun(rest)[..i - 1];
        }
      }
    }
  }

  /**
   Run the same requests with any number of cleanups in between, and without them. Every request is accepted
   in both or refused in both, with the same tokens and users. The replies differ if and only if the request
   is to accept an invite that is gone from the one table and still in the other: it is unknown in the one
   run and expired in the other.
   */
  lemma CleanupInvisible(cfg: Config, start: State, steps: seq<Step>, i: nat)
    requires IsStart(start) && i < |steps|
    ensures |Replies(cfg, start, steps)| == |steps| == |Replies(cfg, start, UncollectedRun(steps))|
    ensures
      var plain := UncollectedRun(steps);
      var a, b := Replies(cfg, start, plain)[i], Replies(cfg, start, steps)[i];
      && SameOutcome(a, b)
      && (a != b <==> Swept(Run(cfg, start, plain[..i]), Run(cfg, start, steps[..i]), steps[i].op))
      && (a != b ==> a == Refused(Expired) && b == Refused(NotFound))
  {
    hide Run, Replies;
    RunAgrees(cfg, start, start, steps);
    assert AgreesAt(cfg, start, start, steps, i);
  }

  lemma LastOfThree(cfg: Config, s: State, steps: seq<Step>)
    requires |steps| == 3
    ensures
      var second := Apply(cfg, Apply(cfg, s, steps[0]).state, steps[1]).state;
      |Replies(cfg, s, steps)| == 3 && Replies(cfg, s, steps)[2] == Apply(cfg, second, steps[2]).reply
  {
    hide Apply;
    var first := Apply(cfg, s, steps[0]).state;
    var second := Apply(cfg, first, steps[1]).state;
    var rest := steps[1..];
    assert rest[0] == steps[1] && rest[1..][0] == steps[2] && rest[1..][1..] == [];
    assert Replies(cfg, second, rest[1..]) == [Apply(cfg, second, steps[2]).reply];
    assert Replies(cfg, first, rest) == [Apply(cfg, first, steps[1]).reply] + Replies(cfg, second, rest[1..]);
  }

  /** An organisation with its admin, and an invite for a day. */
  ghost function Founded(): State {
    State(0, 2, map[0 := Tenant(None, 30, None, 0)], map[1 := User(0, "admin", OrgAdmin, None)], map[], map[], map[])
  }

  const OFFER: Op := CreateInvite(0, 1, "learner", Learner, Some(1), true)

  ghost function Offered(): State {
    Founded().(invites := map[2 := Invite(0, "learner", Learner, DAY_MS, None)], next := 3)
  }

  lemma OfferMade()
    ensures CreateInviteAt(Founded(), OFFER).state == Offered()
  {
    assert !EmailInUse(Founded().users, 0, "learner");
  }

  lemma OfferExpires(cfg: Config)
    ensures
      var late := Later(Offered(), 2 * DAY_MS);
      && AcceptInviteAt(cfg, late, AcceptInvite(2, true, true)).reply == Refused(Expired)
      && AcceptInviteAt(cfg, CleanInvitesAt(late).state, AcceptInvite(2, true, true)).reply == Refused(NotFound)
  {
    hide SeatCheck, EmailInUse, Join;
  }

  lemma SameNow(s: State)
    ensures Later(s, 0) == s
  {
  }

  /** It does happen: an invite for a day, accepted after two, is unknown if the job ran and expired if not. */
  lemma CleanupChangesReason(cfg: Config) returns (start: State, steps: seq<Step>)
    ensures IsStart(start) && |steps| == 3
    ensures |Replies(cfg, start, steps)| == |Replies(cfg, start, UncollectedRun(steps))| == 3
    ensures Replies(cfg, start, steps)[2] == Refused(NotFound)
    ensures Replies(cfg, start, UncollectedRun(steps))[2] == Refused(Expired)
  {
    hide CreateInviteAt, AcceptInviteAt, CleanInvitesAt, Offered, Replies;
    start := Founded();
    steps := [Step(0, OFFER), Step(2 * DAY_MS, CleanInvites), Step(0, AcceptInvite(2, true, true))];
    OfferMade();
    OfferExpires(cfg);
    LastOfThree(cfg, start, steps);
    LastOfThree(cfg, start, UncollectedRun(steps));
    SameNow(start);
    SameNow(Later(Offered(), 2 * DAY_MS));
    SameNow(CleanInvitesAt(Later(Offered(), 2 * DAY_MS)).state);
  }
}
