/** What holds of every run of the outbox that starts from empty tables. */
module OutboxTheorems {
  import opened Prelude
  import opened Backoff
  import opened Outbox
  import opened OutboxInvariant

  /** Some run from empty tables leads here. */
  ghost predicate Reachable(cfg: Config, s: State) {
    exists clock, steps :: LegalRun(cfg, Initial(clock), steps) && Run(cfg, Initial(clock), steps) == s
  }

  lemma ReachableOk(cfg: Config, s: State)
    requires Reachable(cfg, s)
    ensures Inv(cfg, s)
  {
    var clock, steps :|
      LegalRun(cfg, Initial(clock), steps) && Run(cfg, Initial(clock), steps) == s;
    InitialOk(cfg, clock);
    RunKeeps(cfg, Initial(clock), steps);
  }

  // ---- Progress ------------------------------------------------------------------------------

  /** Work the current tick still has to do. */
  function TickWork(w: Worker): nat {
    match w
    case Idle => 0
    case Draining(_, queue, flight) => 2 * |queue| + if flight.Some? then 1 else 0
  }

  lemma WorkShrinks(cfg: Config, s: State, outcome: Outcome, jitter: Jitter)
    requires s.worker.Draining?
    ensures (s.worker.flight.None? && s.worker.queue != [] && s.worker.queue[0].eventId in s.events)
      ==> TickWork(ClaimAt(s, jitter).worker) < TickWork(s.worker)
    ensures (s.worker.flight.Some? && s.worker.flight.value.ticket.eventId in s.events
             && s.worker.flight.value.ticket.row.tenantId in s.endpoints)
      ==> TickWork(SettleAt(cfg, s, outcome, jitter).worker) < TickWork(s.worker)
  {
    hide BackoffMs, SettledEvent, SettledEndpoint, Buried, Message, Blocked;
  }

  lemma RequeueIsLegal(cfg: Config, s: State, wait: nat, tenantId: Uuid, id: Uuid)
    requires Inv(cfg, s)
    ensures Legal(s, Step(wait, Requeue(tenantId, id)))
  {
    hide EventsOk, WorkerOk, EndpointsOk, HistoryOk;
    assert id in s.deadLetters ==> DeadLetterOk(s, id);
  }

  lemma ClaimIsLegal(cfg: Config, s: State, wait: nat, jitter: Jitter)
    requires Inv(cfg, s) && s.worker.Draining? && s.worker.flight.None?
    ensures Legal(s, Step(wait, Claim(jitter)))
    ensures TickWork(Apply(cfg, s, Step(wait, Claim(jitter))).worker) < TickWork(s.worker)
  {
    WorkerRowsExist(cfg, s);
    hide EventsOk, DeadLettersOk, EndpointsOk, HistoryOk, ClaimAt, TickWork;
    WorkShrinks(cfg, Later(s, wait), Ok, jitter);
  }

  lemma SettleIsLegal(cfg: Config, s: State, wait: nat, outcome: Outcome, jitter: Jitter)
    requires Inv(cfg, s) && s.worker.Draining? && s.worker.flight.Some?
    ensures Legal(s, Step(wait, Settle(outcome, jitter)))
    ensures TickWork(Apply(cfg, s, Step(wait, Settle(outcome, jitter))).worker) < TickWork(s.worker)
  {
    WorkerRowsExist(cfg, s);
    hide Inv, SettleAt, TickWork;
    WorkShrinks(cfg, Later(s, wait), outcome, jitter);
  }

  /**
   No update ever hits a missing row: requeues always succeed, and whatever happens meanwhile, a draining
   worker can take its next step, which brings the tick closer to its end.
   */
  lemma NeverStuck(cfg: Config, s: State, wait: nat, outcome: Outcome, jitter: Jitter, tenantId: Uuid, id: Uuid)
    requires Reachable(cfg, s)
    ensures Legal(s, Step(wait, Requeue(tenantId, id)))
    ensures s.worker.Draining? ==>
      var step := Step(wait, if s.worker.flight.Some? then Settle(outcome, jitter) else Claim(jitter));
      Legal(s, step) && TickWork(Apply(cfg, s, step).worker) < TickWork(s.worker)
  {
    ReachableOk(cfg, s);
    hide Reachable, Inv, Legal, Apply, TickWork;
    RequeueIsLegal(cfg, s, wait, tenantId, id);
    if s.worker.Draining? {
      if s.worker.flight.Some? {
        SettleIsLegal(cfg, s, wait, outcome, jitter);
      } else {
        ClaimIsLegal(cfg, s, wait, jitter);
      }
    }
  }

  // ---- Dead letters --------------------------------------------------------------------------

  /** A FAILED event has a dead letter, a dead letter has a tried-out event, and an open one a FAILED event. */
  lemma DeadLettersMirrorFailures(cfg: Config, s: State, e: Uuid)
    requires Reachable(cfg, s)
    ensures e in s.events && s.events[e].status.Failed? ==> e in s.deadLetters
    ensures e in s.deadLetters ==>
      && e in s.events
      && var dead, row := s.deadLetters[e], s.events[e];
        && dead.tenantId == row.tenantId && dead.eventType == row.eventType
        && dead.key == row.key && dead.payload == row.payload
        && row.attempts >= 10
        && (dead.requeuedAt.None? ==> row.status.Failed?)
        && (dead.requeuedAt.None? <==> Requeues(s.history, e) == 0)
  {
    ReachableOk(cfg, s);
    if e in s.events {
      assert RowOk(s, e);
    }
  }

  /** Nothing is dead-lettered sooner than 11,664,000 ms after it was created. */
  lemma EarliestDeadLetter(cfg: Config, s: State, e: Uuid)
    requires Reachable(cfg, s) && e in s.deadLetters
    ensures e in s.events
    ensures s.deadLetters[e].createdAt - s.events[e].createdAt >= 11_664_000
  {
    ReachableOk(cfg, s);
  }

  // ---- Attempts ------------------------------------------------------------------------------

  /** The attempt counter counts requests; ten of them, and one more for each requeue, are the most. */
  lemma AttemptsBounded(cfg: Config, s: State, e: Uuid)
    requires Reachable(cfg, s) && e in s.events
    ensures s.events[e].attempts == Sends(s.history, e)
    ensures Sends(s.history, e) <= 10 + Requeues(s.history, e)
    ensures s.events[e].status.Pending? ==> Sends(s.history, e) <= 9 + Requeues(s.history, e)
    ensures s.events[e].lastAttemptAt == LastTouch(s.history, e)
    ensures s.events[e].deliveredAt == LastDelivery(s.history, e)
  {
    ReachableOk(cfg, s);
    assert RowOk(s, e);
  }

  /** Requests made and still promised, less the requeues that paid for them. */
  ghost function Debt(s: State, e: Uuid): int {
    Sends(s.history, e) + (if e in s.events && s.events[e].status.Pending? then 1 else 0) - Requeues(s.history, e)
  }

  lemma SettleKeepsDebt(cfg: Config, s: State, outcome: Outcome, jitter: Jitter, e: Uuid)
    requires CanSettle(cfg, s) && e in s.deadLetters
    ensures e in SettleAt(cfg, s, outcome, jitter).deadLetters
    ensures Debt(SettleAt(cfg, s, outcome, jitter), e) <= Debt(s, e)
  {
    assert DeadLetterMatches(s.deadLetters[e], s.events[e]);
    assert TicketOk(s, s.worker.tickAt, s.worker.flight.value.ticket);
  }

  lemma ClaimKeepsDebt(s: State, jitter: Jitter, e: Uuid)
    requires WorkerOk(s) && s.worker.Draining? && s.worker.flight.None? && s.worker.queue != []
    requires s.worker.queue[0].eventId in s.events && e in s.deadLetters
    ensures ClaimAt(s, jitter).deadLetters == s.deadLetters
    ensures Debt(ClaimAt(s, jitter), e) <= Debt(s, e)
  {
    assert TicketOk(s, s.worker.tickAt, s.worker.queue[0]);
  }

  lemma EnvironmentKeepsDebt(s: State, op: Op, e: Uuid)
    requires e in s.deadLetters && e < s.nextId && IsEnvironment(op)
    requires op.Requeue? ==> (CanRequeue(s, op.tenantId, op.deadLetterId) ==> op.deadLetterId in s.events)
    ensures op.Ingest? ==> e in IngestAt(s, op).deadLetters && Debt(IngestAt(s, op), e) <= Debt(s, e)
    ensures op.UpsertEndpoint? ==> e in UpsertAt(s, op).deadLetters && Debt(UpsertAt(s, op), e) <= Debt(s, e)
    ensures op.Requeue? ==> e in RequeueAt(s, op).deadLetters && Debt(RequeueAt(s, op), e) <= Debt(s, e)
  {
    hide HasKey;
  }

  lemma LetterIdKnown(cfg: Config, s: State, e: Uuid)
    requires Inv(cfg, s) && e in s.deadLetters
    ensures e < s.nextId && WorkerOk(s)
  {
    assert DeadLetterOk(s, e);
    RowIdKnown(s, e);
  }

  lemma DebtNeverGrows(cfg: Config, s: State, step: Step, e: Uuid)
    requires Inv(cfg, s) && Legal(s, step) && e in s.deadLetters
    ensures e in Apply(cfg, s, step).deadLetters
    ensures Debt(Apply(cfg, s, step), e) <= Debt(s, e)
  {
    var now := Later(s, step.wait);
    TimePasses(cfg, s, step.wait);
    LetterIdKnown(cfg, now, e);
    if s.worker.Draining? {
      WorkerRowsExist(cfg, now);
    }
    hide Inv, WorkerOk, IsBatch, IngestAt, UpsertAt, RequeueAt, ClaimAt, SettleAt;
    match step.op
    case BeginTick(_) =>
    case Claim(jitter) => ClaimKeepsDebt(now, jitter, e);
    case Settle(outcome, jitter) => SettleKeepsDebt(cfg, now, outcome, jitter, e);
    case _ => EnvironmentKeepsDebt(now, step.op, e);
  }

  lemma {:induction false} DebtNeverGrowsInRuns(cfg: Config, s: State, steps: seq<Step>, e: Uuid)
    requires Inv(cfg, s) && LegalRun(cfg, s, steps) && e in s.deadLetters
    ensures Debt(Run(cfg, s, steps), e) <= Debt(s, e)
    decreases |steps|
  {
    if steps == [] {
    } else {
      var s' := Apply(cfg, s, steps[0]);
      DebtNeverGrows(cfg, s, steps[0], e);
      StepKeeps(cfg, s, steps[0]);
      DebtNeverGrowsInRuns(cfg, s', steps[1..], e);
    }
  }

  /** Once an event is dead-lettered, each requeue buys it at most one request. */
  lemma RequeueBuysOneRequest(cfg: Config, s: State, steps: seq<Step>, e: Uuid)
    requires Reachable(cfg, s) && LegalRun(cfg, s, steps) && e in s.deadLetters
    ensures e in s.events
    ensures
      var h, h' := s.history, Run(cfg, s, steps).history;
      Sends(h', e) - Sends(h, e)
        <= Requeues(h', e) - Requeues(h, e) + if s.events[e].status.Pending? then 1 else 0
  {
    ReachableOk(cfg, s);
    DebtNeverGrowsInRuns(cfg, s, steps, e);
  }

  ghost predicate Closed(s: State, e: Uuid) {
    && e in s.events && e !in s.deadLetters
    && (s.events[e].status.Delivered? || s.events[e].status.Skipped?)
  }

  /** The row of an event in a draining worker's hands is pending. */
  lemma HandsArePending(cfg: Config, s: State)
    requires Inv(cfg, s) && s.worker.Draining?
    ensures s.worker.queue != [] ==>
      s.worker.queue[0].eventId in s.events && s.events[s.worker.queue[0].eventId].status.Pending?
    ensures s.worker.flight.Some? ==>
      && s.worker.flight.value.ticket.eventId in s.events
      && s.events[s.worker.flight.value.ticket.eventId].status.Pending?
  {
    if s.worker.queue != [] {
      assert TicketOk(s, s.worker.tickAt, s.worker.queue[0]);
    }
  }

  /** The operation leaves a closed row closed and as it is. */
  ghost predicate StaysClosed(s: State, s': State, e: Uuid)
    requires e in s.events
  {
    Closed(s', e) && s'.events[e] == s.events[e]
  }

  lemma EnvironmentKeepsClosed(s: State, op: Op, e: Uuid)
    requires Closed(s, e) && e < s.nextId
    requires op.Requeue? ==> (CanRequeue(s, op.tenantId, op.deadLetterId) ==> op.deadLetterId in s.events)
    ensures op.Ingest? ==> StaysClosed(s, IngestAt(s, op), e)
    ensures op.UpsertEndpoint? ==> StaysClosed(s, UpsertAt(s, op), e)
    ensures op.Requeue? ==> StaysClosed(s, RequeueAt(s, op), e)
  {
    hide HasKey;
  }

  lemma ClaimKeepsClosed(s: State, jitter: Jitter, e: Uuid)
    requires Closed(s, e) && s.worker.Draining? && s.worker.flight.None? && s.worker.queue != []
    requires s.worker.queue[0].eventId in s.events && s.events[s.worker.queue[0].eventId].status.Pending?
    ensures StaysClosed(s, ClaimAt(s, jitter), e)
  {
    hide BackoffMs;
  }

  lemma SettleKeepsClosed(cfg: Config, s: State, outcome: Outcome, jitter: Jitter, e: Uuid)
    requires Closed(s, e) && s.worker.Draining? && s.worker.flight.Some?
    requires s.worker.flight.value.ticket.eventId in s.events
    requires s.worker.flight.value.ticket.row.tenantId in s.endpoints
    requires s.events[s.worker.flight.value.ticket.eventId].status.Pending?
    ensures StaysClosed(s, SettleAt(cfg, s, outcome, jitter), e)
  {
    hide SettledEvent, SettledEndpoint, Message;
  }

  lemma StepKeepsClosed(cfg: Config, s: State, step: Step, e: Uuid)
    requires Inv(cfg, s) && Legal(s, step) && Closed(s, e)
    ensures Closed(Apply(cfg, s, step), e) && Apply(cfg, s, step).events[e] == s.events[e]
  {
    RowIdKnown(s, e);
    if s.worker.Draining? {
      HandsArePending(cfg, s);
    }
    hide Inv, IsBatch, IngestAt, UpsertAt, RequeueAt, ClaimAt, SettleAt;
    var now := Later(s, step.wait);
    match step.op
    case BeginTick(_) =>
    case Claim(jitter) => ClaimKeepsClosed(now, jitter, e);
    case Settle(outcome, jitter) => SettleKeepsClosed(cfg, now, outcome, jitter, e);
    case _ => EnvironmentKeepsClosed(now, step.op, e);
  }

  lemma {:induction false} RunKeepsClosed(cfg: Config, s: State, steps: seq<Step>, e: Uuid)
    requires Inv(cfg, s) && LegalRun(cfg, s, steps) && Closed(s, e)
    ensures Closed(Run(cfg, s, steps), e) && Run(cfg, s, steps).events[e] == s.events[e]
    decreases |steps|
  {
    if steps == [] {
    } else {
      StepKeepsClosed(cfg, s, steps[0], e);
      StepKeeps(cfg, s, steps[0]);
      RunKeepsClosed(cfg, Apply(cfg, s, steps[0]), steps[1..], e);
    }
  }

  /** DELIVERED and SKIPPED are final for an event without a dead letter: no run changes its row again. */
  lemma ClosedForGood(cfg: Config, s: State, steps: seq<Step>, e: Uuid)
    requires Reachable(cfg, s) && LegalRun(cfg, s, steps) && Closed(s, e)
    ensures Closed(Run(cfg, s, steps), e) && Run(cfg, s, steps).events[e] == s.events[e]
  {
    ReachableOk(cfg, s);
    RunKeepsClosed(cfg, s, steps, e);
  }

  // ---- The circuit breaker -------------------------------------------------------------------

  /** The circuit columns are the tenant's request history read back, whatever upserts happened in between. */
  lemma CircuitRefinesHistory(cfg: Config, s: State, t: Uuid)
    requires Reachable(cfg, s) && t in s.endpoints
    ensures s.endpoints[t].failures == Trailing(s.history, t)
    ensures s.endpoints[t].openUntil.Some? <==> Trailing(s.history, t) >= cfg.threshold
    ensures s.endpoints[t].openUntil.Some? ==>
      LastSettled(s.history, t, false) == Some(s.endpoints[t].openUntil.value - cfg.openMs)
    ensures s.endpoints[t].lastFailureAt == LastSettled(s.history, t, false)
    ensures s.endpoints[t].lastSuccessAt == LastSettled(s.history, t, true)
  {
    ReachableOk(cfg, s);
  }

  /** `past` is how a history began, up to some moment. */
  predicate IsPast(past: History, h: History) {
    past == h || (h.After? && IsPast(past, h.past))
  }

  lemma {:induction false} AlwaysSpaced(cfg: Config, past: History, h: History)
    requires Spaced(cfg, h) && IsPast(past, h)
    ensures Spaced(cfg, past)
  {
    if past == h {
    } else {
      AlwaysSpaced(cfg, past, h.past);
    }
  }

  /**
   No request of any run starts while the circuit is open: when the requests to its tenant had failed at least
   as often in a row as the threshold says, it starts at least the open time after the last of them ended.
   */
  lemma NoRequestWhileOpen(cfg: Config, s: State, p: History, x: Entry)
    requires Reachable(cfg, s) && IsPast(After(p, x), s.history)
    requires x.Sent? && Trailing(p, x.tenantId) >= cfg.threshold
    ensures LastSettled(p, x.tenantId, false).Some?
    ensures x.sentAt >= LastSettled(p, x.tenantId, false).value + cfg.openMs
    ensures x.sentAt <= x.settledAt
  {
    ReachableOk(cfg, s);
    AlwaysSpaced(cfg, After(p, x), s.history);
  }

  /** When the f-th failure of the tenant's current run of failures ended. */
  function FailureAt(h: History, t: Uuid, f: nat): int
    requires 1 <= f <= Trailing(h, t)
  {
    if h.last.Sent? && h.last.tenantId == t && Trailing(h, t) == f then h.last.settledAt
    else FailureAt(h.past, t, f)
  }

  lemma {:induction false} FailuresSpaced(cfg: Config, h: History, t: Uuid, n: nat)
    requires Spaced(cfg, h) && cfg.threshold <= n <= Trailing(h, t)
    ensures FailureAt(h, t, n) >= FailureAt(h, t, cfg.threshold) + (n - cfg.threshold) * cfg.openMs
    ensures n == Trailing(h, t) ==> LastSettled(h, t, false) == Some(FailureAt(h, t, n))
  {
    if h.last.Sent? && h.last.tenantId == t && Trailing(h, t) == n {
      if n > cfg.threshold {
        FailuresSpaced(cfg, h.past, t, n - 1);
        assert (n - cfg.threshold) * cfg.openMs == (n - 1 - cfg.threshold) * cfg.openMs + cfg.openMs;
      }
    } else {
      FailuresSpaced(cfg, h.past, t, n);
    }
  }

  /**
   While a tenant's endpoint keeps failing, the n-th failure of the stretch ends at least (n - F) open times
   after the F-th: n <= F + (t_n - t_F) / D.
   */
  lemma CircuitRateBound(cfg: Config, s: State, t: Uuid, n: nat)
    requires Reachable(cfg, s) && cfg.threshold <= n <= Trailing(s.history, t)
    ensures (n - cfg.threshold) * cfg.openMs
              <= FailureAt(s.history, t, n) - FailureAt(s.history, t, cfg.threshold)
  {
    ReachableOk(cfg, s);
    FailuresSpaced(cfg, s.history, t, n);
  }
}
