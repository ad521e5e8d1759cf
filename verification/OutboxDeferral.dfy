/** The breaker cannot starve an event: it pays for every deferral with a failed request. */
module OutboxDeferral {
  import opened Prelude
  import opened Backoff
  import opened Outbox
  import opened OutboxInvariant
  import opened OutboxTheorems

  /** Whether the event waits in the current batch. */
  ghost predicate Queued(w: Worker, e: Uuid) {
    w.Draining? && exists i :: 0 <= i < |w.queue| && w.queue[i].eventId == e
  }

  /** Each deferral of the event was paid for; with nothing left to pay, the breaker cannot meet it again. */
  ghost predicate Paid(s: State, e: Uuid)
    requires e in s.events
  {
    var row := s.events[e];
    var means := FailedRequests(s.history, row.tenantId) + Requeues(s.history, e);
    && Deferrals(s.history, e) <= means
    && (Deferrals(s.history, e) == means ==>
          && (row.tenantId in s.endpoints && s.endpoints[row.tenantId].openUntil.Some? ==>
                s.endpoints[row.tenantId].openUntil.value < row.nextAttemptAt)
          && (Queued(s.worker, e) ==> row.nextAttemptAt <= s.worker.tickAt))
  }

  ghost predicate AllPaid(s: State) {
    && (forall e :: e in s.events ==> Paid(s, e))
    && (forall e :: e >= s.nextId ==> Deferrals(s.history, e) == 0)
  }

  /** A run of failures consists of failed requests. */
  lemma {:induction false} TrailingFailed(h: History, t: Uuid)
    ensures Trailing(h, t) <= FailedRequests(h, t)
  {
    if h.Start? {
    } else {
      TrailingFailed(h.past, t);
    }
  }

  // ---- One step --------------------------------------------------------------------------------

  lemma QueueKnown(cfg: Config, s: State)
    requires Inv(cfg, s)
    ensures forall e :: Queued(s.worker, e) ==> e in s.events
    ensures s.nextId !in s.events
  {
    forall e | Queued(s.worker, e) ensures e in s.events {
      var i :| 0 <= i < |s.worker.queue| && s.worker.queue[i].eventId == e;
      assert TicketOk(s, s.worker.tickAt, s.worker.queue[i]);
    }
    assert s.nextId in s.events ==> RowOk(s, s.nextId);
  }

  lemma IngestPays(cfg: Config, s: State, op: Op)
    requires Inv(cfg, s) && AllPaid(s) && op.Ingest?
    ensures AllPaid(IngestAt(s, op))
  {
    var s' := IngestAt(s, op);
    if !HasKey(s.events, op.key) {
      TrailingFailed(s.history, op.tenantId);
      assert op.tenantId in s.endpoints ==> CircuitMatches(cfg, s.history, op.tenantId, s.endpoints[op.tenantId]);
      QueueKnown(cfg, s);
      hide Inv;
      forall e | e in s'.events ensures Paid(s', e) {
        assert e in s.events ==> Paid(s, e);
      }
    }
  }

  lemma UpsertPays(s: State, op: Op)
    requires AllPaid(s) && op.UpsertEndpoint?
    ensures AllPaid(UpsertAt(s, op))
  {
    var s' := UpsertAt(s, op);
    forall e | e in s'.events ensures Paid(s', e) {
      assert Paid(s, e);
    }
  }

  lemma RequeuePays(s: State, op: Op)
    requires AllPaid(s) && op.Requeue?
    requires CanRequeue(s, op.tenantId, op.deadLetterId) ==> op.deadLetterId in s.events
    ensures AllPaid(RequeueAt(s, op))
  {
    var s' := RequeueAt(s, op);
    forall e | e in s'.events ensures Paid(s', e) {
      assert Paid(s, e);
    }
  }

  lemma BeginPays(s: State, batch: seq<Uuid>)
    requires AllPaid(s) && s.worker.Idle? && IsBatch(s.events, s.clock, batch)
    ensures AllPaid(BeginAt(s, batch))
  {
    var s' := BeginAt(s, batch);
    forall e | e in s'.events ensures Paid(s', e) {
      assert Paid(s, e);
      if Queued(s'.worker, e) {
        var i :| 0 <= i < |batch| && batch[i] == e;
      }
    }
  }

  lemma RestQueued(w: Worker, e: Uuid, flight: Option<Flight>)
    requires w.Draining? && w.queue != []
    ensures Queued(Resume(w.tickAt, w.queue[1..]), e) ==> Queued(w, e)
    ensures Queued(Draining(w.tickAt, w.queue[1..], flight), e) ==> Queued(w, e)
  {
    var rest := w.queue[1..];
    if i :| 0 <= i < |rest| && rest[i].eventId == e {
      assert w.queue[i + 1].eventId == e;
    }
  }

  lemma HeadBelongs(cfg: Config, s: State)
    requires Inv(cfg, s) && s.worker.Draining? && s.worker.queue != []
    ensures
      var head := s.worker.queue[0];
      && head.eventId in s.events && head.eventId < s.nextId
      && s.events[head.eventId].tenantId == head.row.tenantId
      && s.worker.tickAt <= s.clock
      && Queued(s.worker, head.eventId)
      && !Queued(Resume(s.worker.tickAt, s.worker.queue[1..]), head.eventId)
      && forall flight :: !Queued(Draining(s.worker.tickAt, s.worker.queue[1..], flight), head.eventId)
  {
    var rest := s.worker.queue[1..];
    assert TicketOk(s, s.worker.tickAt, s.worker.queue[0]);
    assert RowOk(s, s.worker.queue[0].eventId);
    assert forall i :: 0 <= i < |rest| ==> rest[i] == s.worker.queue[i + 1];
  }

  /** The row at the head of the queue: if it is deferred, it had something left to pay with. */
  lemma HeadPays(cfg: Config, s: State, jitter: Jitter)
    requires Inv(cfg, s) && s.worker.Draining? && s.worker.flight.None? && s.worker.queue != []
    requires s.worker.queue[0].eventId in s.events && Paid(s, s.worker.queue[0].eventId)
    ensures Paid(ClaimAt(s, jitter), s.worker.queue[0].eventId)
  {
    HeadBelongs(cfg, s);
    DelayRange(0, jitter);
    hide Inv, BackoffMs, Queued;
  }

  ghost function ClaimedFlight(s: State, jitter: Jitter): Option<Flight>
    requires s.worker.Draining? && s.worker.flight.None? && s.worker.queue != []
    requires s.worker.queue[0].eventId in s.events
  {
    var w := ClaimAt(s, jitter).worker;
    if w.Draining? then w.flight else None
  }

  lemma OthersPaid(s: State, jitter: Jitter, e: Uuid)
    requires s.worker.Draining? && s.worker.flight.None? && s.worker.queue != []
    requires s.worker.queue[0].eventId in s.events
    requires e in s.events && e != s.worker.queue[0].eventId && Paid(s, e)
    ensures Paid(ClaimAt(s, jitter), e)
  {
    RestQueued(s.worker, e, ClaimedFlight(s, jitter));
    hide BackoffMs, Queued;
  }

  lemma ClaimPays(cfg: Config, s: State, jitter: Jitter)
    requires Inv(cfg, s) && AllPaid(s) && s.worker.Draining? && s.worker.flight.None? && s.worker.queue != []
    requires s.worker.queue[0].eventId in s.events
    ensures AllPaid(ClaimAt(s, jitter))
  {
    HeadBelongs(cfg, s);
    HeadPays(cfg, s, jitter);
    var s' := ClaimAt(s, jitter);
    forall e | e in s'.events ensures Paid(s', e) {
      if e != s.worker.queue[0].eventId {
        OthersPaid(s, jitter, e);
      }
    }
    hide Inv, Paid, BackoffMs;
    forall e | e >= s'.nextId ensures Deferrals(s'.history, e) == 0 {
      assert Deferrals(s.history, e) == 0;
    }
  }

  /** A failure pays one more deferral for every event of the tenant, a success closes the circuit. */
  lemma RowSettles(cfg: Config, s: State, outcome: Outcome, jitter: Jitter, e: Uuid)
    requires s.worker.Draining? && s.worker.flight.Some?
    requires s.worker.flight.value.ticket.eventId in s.events
    requires s.worker.flight.value.ticket.row.tenantId in s.endpoints
    requires
      var ticket := s.worker.flight.value.ticket;
      s.events[ticket.eventId].tenantId == ticket.row.tenantId && !Queued(s.worker, ticket.eventId)
    requires e in s.events && Paid(s, e)
    ensures Paid(SettleAt(cfg, s, outcome, jitter), e)
  {
    hide BackoffMs, Buried, Message;
    var s' := SettleAt(cfg, s, outcome, jitter);
    assert Queued(s'.worker, e) ==> Queued(s.worker, e);
    assert s'.events[e].tenantId == s.events[e].tenantId;
  }

  lemma SettlePays(cfg: Config, s: State, outcome: Outcome, jitter: Jitter)
    requires CanSettle(cfg, s) && AllPaid(s)
    ensures AllPaid(SettleAt(cfg, s, outcome, jitter))
  {
    var s', f := SettleAt(cfg, s, outcome, jitter), s.worker.flight.value;
    assert TicketOk(s, s.worker.tickAt, f.ticket);
    assert !Queued(s.worker, f.ticket.eventId);
    hide Inv, Paid, BackoffMs, SettledEvent, SettledEndpoint;
    forall e | e in s'.events ensures Paid(s', e) {
      RowSettles(cfg, s, outcome, jitter, e);
    }
    forall e | e >= s'.nextId ensures Deferrals(s'.history, e) == 0 {
      assert Deferrals(s.history, e) == 0;
    }
  }

  lemma TimePays(s: State, wait: nat)
    requires AllPaid(s)
    ensures AllPaid(Later(s, wait))
  {
    forall e | e in s.events ensures Paid(Later(s, wait), e) {
      assert Paid(s, e);
    }
  }

  lemma StepPays(cfg: Config, s: State, step: Step)
    requires Inv(cfg, s) && Legal(s, step) && AllPaid(s)
    ensures AllPaid(Apply(cfg, s, step))
  {
    TimePasses(cfg, s, step.wait);
    TimePays(s, step.wait);
    hide Inv, AllPaid, IsBatch;
    var now := Later(s, step.wait);
    match step.op
    case Ingest(_, _, _, _) => IngestPays(cfg, now, step.op);
    case UpsertEndpoint(_, _, _, _) => UpsertPays(now, step.op);
    case Requeue(_, _) => RequeuePays(now, step.op);
    case BeginTick(batch) => BeginPays(now, batch);
    case Claim(jitter) => ClaimPays(cfg, now, jitter);
    case Settle(outcome, jitter) =>
      WorkerRowsExist(cfg, now);
      SettlePays(cfg, now, outcome, jitter);
  }

  // ---- Runs ------------------------------------------------------------------------------------

  lemma {:induction false} RunPays(cfg: Config, s: State, steps: seq<Step>)
    requires Inv(cfg, s) && LegalRun(cfg, s, steps) && AllPaid(s)
    ensures AllPaid(Run(cfg, s, steps))
    decreases |steps|
  {
    hide Inv, AllPaid, Apply, Legal;
    if steps == [] {
    } else {
      StepKeeps(cfg, s, steps[0]);
      StepPays(cfg, s, steps[0]);
      RunPays(cfg, Apply(cfg, s, steps[0]), steps[1..]);
    }
  }

  /**
   The breaker cannot starve an event. In every run it defers an event at most once for every failed request
   to the event's tenant and every requeue of the event: to defer it again it must have opened anew.
   */
  lemma DeferralsArePaidFor(cfg: Config, s: State, e: Uuid)
    requires Reachable(cfg, s) && e in s.events
    ensures Deferrals(s.history, e) <= FailedRequests(s.history, s.events[e].tenantId) + Requeues(s.history, e)
  {
    var clock, steps :| LegalRun(cfg, Initial(clock), steps) && Run(cfg, Initial(clock), steps) == s;
    InitialOk(cfg, clock);
    RunPays(cfg, Initial(clock), steps);
    assert Paid(s, e);
  }
}
