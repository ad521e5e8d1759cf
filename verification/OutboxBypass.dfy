/** A run in which a requeue takes a waiting event off the backlog that no tick ever served. */
module OutboxBypass {
  import opened Prelude
  import opened Backoff
  import opened Outbox
  import opened OutboxInvariant
  import opened OutboxTheorems
  import opened OutboxBacklog

  const TENANT: Uuid := 7
  const NEVER: Outcome := HttpFail("HTTP 500")

  lemma ReachableStep(cfg: Config, s: State, step: Step)
    requires Reachable(cfg, s) && Legal(s, step)
    ensures Reachable(cfg, Apply(cfg, s, step))
  {
    var clock, steps :| LegalRun(cfg, Initial(clock), steps) && Run(cfg, Initial(clock), steps) == s;
    RunExtend(cfg, Initial(clock), steps, step);
  }

  // ---- One event fails ten times ---------------------------------------------------------------

  /** One event, k times refused by the tenant's endpoint. */
  ghost predicate Refused(s: State, k: nat) {
    && s.worker.Idle? && s.nextId == 1 && s.events.Keys == {0} && s.endpoints.Keys == {TENANT}
    && s.endpoints[TENANT].isActive
    && s.events[0].tenantId == TENANT && s.events[0].key == "" && s.events[0].attempts == k
    && (k < 10 ==> s.events[0].status.Pending? && s.deadLetters == map[])
    && (k == 10 ==> s.events[0].status.Failed? && s.deadLetters.Keys == {0} && s.deadLetters[0].tenantId == TENANT)
  }

  lemma FirstSteps(cfg: Config) returns (s: State)
    ensures Reachable(cfg, s) && Refused(s, 0)
  {
    s := Initial(0);
    assert LegalRun(cfg, s, []) && Run(cfg, s, []) == s;
    var ingest, upsert :=
      Step(0, Ingest(TENANT, "lesson.started", "", "")), Step(0, UpsertEndpoint(TENANT, "url", "secret", None));
    ReachableStep(cfg, s, ingest);
    s := Apply(cfg, s, ingest);
    ReachableStep(cfg, s, upsert);
    s := Apply(cfg, s, upsert);
  }

  /** Long enough for the event to be due and the breaker to let it through. */
  ghost function Patience(s: State): nat
    requires 0 in s.events && TENANT in s.endpoints
  {
    Max(0, Max(s.events[0].nextAttemptAt, s.endpoints[TENANT].openUntil.GetOr(s.clock)) - s.clock)
  }

  lemma RefusedOnceMore(cfg: Config, s: State, k: nat) returns (s': State)
    requires Reachable(cfg, s) && Refused(s, k) && k < 10
    ensures Reachable(cfg, s') && Refused(s', k + 1)
  {
    hide Reachable, BackoffMs;
    var begin, claim, settle := Step(Patience(s), BeginTick([0])), Step(0, Claim(0.0)), Step(0, Settle(NEVER, 0.0));
    assert IsBatch(s.events, s.clock + begin.wait, [0]);
    ReachableStep(cfg, s, begin);
    var begun := Apply(cfg, s, begin);
    assert begun.worker == Draining(begun.clock, [Ticket(0, s.events[0])], None);
    ReachableStep(cfg, begun, claim);
    var sent := Apply(cfg, begun, claim);
    assert [Ticket(0, s.events[0])][1..] == [];
    assert sent.worker.Draining? && sent.worker.queue == [] && sent.worker.flight.Some?;
    ReachableStep(cfg, sent, settle);
    s' := Apply(cfg, sent, settle);
  }

  lemma {:induction false} RefusedTimes(cfg: Config, k: nat) returns (s: State)
    requires k <= 10
    ensures Reachable(cfg, s) && Refused(s, k)
  {
    if k == 0 {
      s := FirstSteps(cfg);
    } else {
      s := RefusedTimes(cfg, k - 1);
      s := RefusedOnceMore(cfg, s, k - 1);
    }
  }

  // ---- Fifty others arrive ---------------------------------------------------------------------

  /** The dead-lettered event, and n that have just arrived. */
  ghost predicate Crowded(s: State, n: nat) {
    && s.worker.Idle? && s.nextId == n + 1 && (forall e: nat :: e in s.events <==> e <= n)
    && s.events[0].status.Failed? && 0 in s.deadLetters && s.deadLetters[0].tenantId == TENANT
    && s.events[0].key == ""
    && (forall e: nat :: 1 <= e <= n ==>
          s.events[e].status.Pending? && s.events[e].nextAttemptAt == s.clock && s.events[e].createdAt == s.clock
          && |s.events[e].key| == e)
  }

  lemma {:induction false} CrowdArrives(cfg: Config, n: nat) returns (s: State)
    ensures Reachable(cfg, s) && Crowded(s, n)
  {
    if n == 0 {
      s := RefusedTimes(cfg, 10);
    } else {
      s := CrowdArrives(cfg, n - 1);
      var key := seq(n, _ => 'k');
      var ingest := Step(0, Ingest(TENANT, "lesson.started", key, ""));
      assert !HasKey(s.events, key);
      ReachableStep(cfg, s, ingest);
      s := Apply(cfg, s, ingest);
    }
  }

  // ---- The requeue that bypasses the batch -----------------------------------------------------

  ghost function Newcomers(): seq<Uuid> {
    seq(50, i => i + 1)
  }

  lemma NewcomersAre()
    ensures forall e: nat :: e in Newcomers() <==> 1 <= e <= 50
  {
    forall e: nat | 1 <= e <= 50 ensures e in Newcomers() {
      assert Newcomers()[e - 1] == e;
    }
  }

  lemma BacklogOfCrowd(s: State, cutoff: int)
    requires forall e: nat :: e in s.events <==> e <= 50
    requires forall e: nat :: e <= 50 ==> Due(s.events[e], cutoff)
    ensures |Backlog(s, cutoff)| == 51
  {
    var all := [0] + Newcomers();
    DistinctCardinality(all);
    forall e ensures e in Elements(all) <==> e in Backlog(s, cutoff) {
      if e in Backlog(s, cutoff) {
        assert all[e] == e;
      }
    }
    assert Elements(all) == Backlog(s, cutoff);
  }

  lemma NewcomersFirst(s: State)
    requires forall e: nat :: e in s.events <==> e <= 50
    requires forall e: nat :: 1 <= e <= 50 ==>
      Due(s.events[e], s.clock) && s.events[e].nextAttemptAt == s.clock - 1 && s.events[e].createdAt == s.clock - 1
    requires s.events[0].nextAttemptAt == s.clock
    ensures IsBatch(s.events, s.clock, Newcomers())
  {
    NewcomersAre();
  }

  lemma LeftOver(s: State)
    requires forall e: nat :: e in s.events <==> e <= 50
    ensures Backlog(s, s.clock) - Elements(Newcomers()) <= {0}
  {
    NewcomersAre();
  }

  // ---- The tick to its end ---------------------------------------------------------------------

  /** The worker comes to the end of its tick by itself. */
  lemma {:induction false} TickEnds(cfg: Config, s: State, cutoff: int) returns (rest: seq<Step>)
    requires Reachable(cfg, s)
    ensures LegalRun(cfg, s, rest) && RunAfterCutoff(cfg, s, rest, cutoff) && Ticks(rest) == 0
    ensures Run(cfg, s, rest).worker.Idle?
    decreases TickWork(s.worker)
  {
    rest := [];
    if s.worker.Draining? {
      var next := Step(0, if s.worker.flight.Some? then Settle(NEVER, 0.0) else Claim(0.0));
      NeverStuck(cfg, s, 0, NEVER, 0.0, 0, 0);
      ReachableStep(cfg, s, next);
      hide Reachable, Apply, Legal;
      rest := TickEnds(cfg, Apply(cfg, s, next), cutoff);
      assert ([next] + rest)[1..] == rest;
      rest := [next] + rest;
    }
  }

  lemma RunOfTwo(cfg: Config, s: State, first: Step, second: Step, rest: seq<Step>, cutoff: int)
    requires Legal(s, first) && Legal(Apply(cfg, s, first), second)
    requires AfterCutoff(s, first, cutoff) && AfterCutoff(Apply(cfg, s, first), second, cutoff)
    requires LegalRun(cfg, Apply(cfg, Apply(cfg, s, first), second), rest)
    requires RunAfterCutoff(cfg, Apply(cfg, Apply(cfg, s, first), second), rest, cutoff)
    ensures
      var run, end := [first, second] + rest, Apply(cfg, Apply(cfg, s, first), second);
      && LegalRun(cfg, s, run) && RunAfterCutoff(cfg, s, run, cutoff) && Run(cfg, s, run) == Run(cfg, end, rest)
      && Postponed(Apply(cfg, s, first), second) <= PostponedIn(cfg, s, run)
      && Ticks(run[1..]) == Ticks([second]) + Ticks(rest)
  {
    hide Apply, Legal, AfterCutoff, Postponed;
    var run := [first, second] + rest;
    assert run[1..] == [second] + rest && run[1..][1..] == rest;
    assert [second][1..] == [];
  }

  /**
   It happens: a tick reads fifty of fifty-one due events, and the one left over is requeued while the tick
   is under way. When the worker is idle again, none of the fifty-one is due at the time the tick began,
   where serving fifty of them would have left one.
   */
  lemma RequeueBypassesBatch(cfg: Config) returns (s: State, run: seq<Step>)
    ensures Reachable(cfg, s) && IsWholeTick(cfg, s, run, s.clock)
    ensures |Backlog(s, s.clock)| == 51 && |Backlog(Run(cfg, s, run), s.clock)| == 0
    ensures |Backlog(Run(cfg, s, run), s.clock)| != 51 - Min(50, 51)
  {
    hide Reachable, IsBatch, Backlog, InHand, Newcomers, Run, LegalRun, RunAfterCutoff, PostponedIn, Inv, Unserved;
    s := CrowdArrives(cfg, 50);
    var requeue := Step(1, Requeue(TENANT, 0));
    ReachableStep(cfg, s, requeue);
    s := Apply(cfg, s, requeue);
    var tick := Step(0, BeginTick(Newcomers()));
    NewcomersFirst(s);
    BacklogOfCrowd(s, s.clock);
    LeftOver(s);
    ReachableStep(cfg, s, tick);
    var begun := Apply(cfg, s, tick);
    ReachableStep(cfg, begun, requeue);
    var rest := TickEnds(cfg, Apply(cfg, begun, requeue), s.clock);
    RunOfTwo(cfg, s, tick, requeue, rest, s.clock);
    run := [tick, requeue] + rest;
    assert [requeue][1..] == [];
    ReachableOk(cfg, s);
    WholeTickLeaves(cfg, s, run, s.clock);
  }
}
