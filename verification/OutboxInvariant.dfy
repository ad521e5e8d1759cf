/** What every reachable state of the outbox satisfies. */
module OutboxInvariant {
  import opened Prelude
  import opened Backoff
  import opened Outbox

  // ---- The invariant -------------------------------------------------------------------------

  /** An event's delivery columns are its history read back. */
  ghost predicate RowMatchesHistory(h: History, e: Uuid, row: Event) {
    && row.attempts == Sends(h, e)
    && row.lastAttemptAt == LastTouch(h, e)
    && row.deliveredAt == LastDelivery(h, e)
    && row.attempts <= LAST_ATTEMPT - (if row.status.Pending? then 1 else 0) + Requeues(h, e)
    && (row.status.Delivered? ==> row.deliveredAt.Some?)
  }

  /** An event that was never dead-lettered has waited out every delay its attempts imposed. */
  ghost predicate OnSchedule(row: Event) {
    row.status.Pending? ==>
      row.attempts < LAST_ATTEMPT && row.nextAttemptAt >= row.createdAt + MinimumWait(row.attempts)
  }

  ghost predicate DeadLetterMatches(dead: DeadLetter, row: Event) {
    && dead.tenantId == row.tenantId && dead.eventType == row.eventType
    && dead.key == row.key && dead.payload == row.payload
    && row.attempts >= LAST_ATTEMPT
    && (dead.requeuedAt.None? ==> row.status.Failed?)
    && dead.createdAt >= row.createdAt + EARLIEST_DEAD_LETTER_MS
    && dead.failedAt >= dead.createdAt
  }

  ghost predicate RowOk(s: State, e: Uuid)
    requires e in s.events
  {
    && e < s.nextId
    && RowMatchesHistory(s.history, e, s.events[e])
    && (e !in s.deadLetters ==>
          !s.events[e].status.Failed? && Requeues(s.history, e) == 0 && OnSchedule(s.events[e]))
  }

  /** The unique index on idempotencyKey. */
  ghost predicate KeysUnique(events: map<Uuid, Event>) {
    forall e, e' :: e in events && e' in events && events[e].key == events[e'].key ==> e == e'
  }

  ghost predicate EventsOk(s: State) {
    (forall e :: e in s.events ==> RowOk(s, e)) && KeysUnique(s.events)
  }

  ghost predicate DeadLetterOk(s: State, e: Uuid)
    requires e in s.deadLetters
  {
    && e in s.events && DeadLetterMatches(s.deadLetters[e], s.events[e])
    && s.deadLetters[e].failedAt <= s.clock
    && (s.deadLetters[e].requeuedAt.None? <==> Requeues(s.history, e) == 0)
  }

  ghost predicate DeadLettersOk(s: State) {
    forall e :: e in s.deadLetters ==> DeadLetterOk(s, e)
  }

  /** A row of the running batch is still pending, and the snapshot taken of it is still accurate. */
  ghost predicate TicketOk(s: State, tickAt: int, ticket: Ticket) {
    && ticket.eventId in s.events
    && var row := s.events[ticket.eventId];
      && row.status.Pending?
      && row.attempts == ticket.row.attempts && row.createdAt == ticket.row.createdAt
      && row.tenantId == ticket.row.tenantId && row.eventType == ticket.row.eventType
      && row.key == ticket.row.key && row.payload == ticket.row.payload
      && (ticket.eventId !in s.deadLetters ==> row.nextAttemptAt <= tickAt)
  }

  ghost predicate FlightOk(s: State, tickAt: int, f: Flight) {
    && TicketOk(s, tickAt, f.ticket)
    && tickAt <= f.sentAt <= s.clock
    && f.ticket.row.tenantId in s.endpoints
    && var row := s.endpoints[f.ticket.row.tenantId];
      row.failures == f.failures && !Blocked(row, f.sentAt)
  }

  ghost predicate WorkerOk(s: State) {
    s.worker.Draining? ==>
      && s.worker.tickAt <= s.clock
      && (s.worker.queue != [] || s.worker.flight.Some?)
      && (forall i :: 0 <= i < |s.worker.queue| ==> TicketOk(s, s.worker.tickAt, s.worker.queue[i]))
      && (forall i, j :: 0 <= i < j < |s.worker.queue| ==>
            s.worker.queue[i].eventId != s.worker.queue[j].eventId)
      && (s.worker.flight.Some? ==>
            && FlightOk(s, s.worker.tickAt, s.worker.flight.value)
            && forall i :: 0 <= i < |s.worker.queue| ==>
                 s.worker.queue[i].eventId != s.worker.flight.value.ticket.eventId)
  }

  /** An endpoint's circuit columns are the tenant's send history read back. */
  ghost predicate CircuitMatches(cfg: Config, h: History, t: Uuid, row: Endpoint) {
    && row.failures == Trailing(h, t)
    && row.lastFailureAt == LastSettled(h, t, false)
    && row.lastSuccessAt == LastSettled(h, t, true)
    && (row.openUntil.Some? <==> Trailing(h, t) >= cfg.threshold)
    && (row.openUntil.Some? ==> LastSettled(h, t, false) == Some(row.openUntil.value - cfg.openMs))
  }

  ghost predicate NoSends(h: History, t: Uuid) {
    Trailing(h, t) == 0 && LastSettled(h, t, false) == None && LastSettled(h, t, true) == None
  }

  ghost predicate EndpointsOk(cfg: Config, s: State) {
    && (forall t :: t in s.endpoints ==> CircuitMatches(cfg, s.history, t, s.endpoints[t]))
    && (forall t :: t !in s.endpoints ==> NoSends(s.history, t))
  }

  ghost predicate Unheard(h: History, e: Uuid) {
    Sends(h, e) == 0 && Requeues(h, e) == 0 && LastTouch(h, e) == None && LastDelivery(h, e) == None
  }

  /** From the threshold-th failure of a run on, a request follows the last failure by at least the open time. */
  ghost predicate Spaced(cfg: Config, h: History) {
    match h
    case Start => true
    case After(p, x) =>
      && Spaced(cfg, p)
      && (x.Sent? ==>
            && x.sentAt <= x.settledAt
            && (Trailing(p, x.tenantId) >= cfg.threshold ==>
                  && LastSettled(p, x.tenantId, false).Some?
                  && x.sentAt >= LastSettled(p, x.tenantId, false).value + cfg.openMs))
  }

  ghost predicate HistoryOk(cfg: Config, s: State) {
    && Spaced(cfg, s.history)
    && (forall e :: e >= s.nextId ==> Unheard(s.history, e))
  }

  ghost predicate Inv(cfg: Config, s: State) {
    && EventsOk(s) && DeadLettersOk(s) && WorkerOk(s) && EndpointsOk(cfg, s) && HistoryOk(cfg, s)
  }

  // ---- Preservation --------------------------------------------------------------------------

  lemma TimePasses(cfg: Config, s: State, wait: nat)
    requires Inv(cfg, s)
    ensures Inv(cfg, Later(s, wait))
  {
  }

  lemma IdsKnown(s: State)
    requires EventsOk(s)
    ensures s.nextId !in s.events
  {
    assert s.nextId in s.events ==> RowOk(s, s.nextId);
  }

  lemma NewRowOk(s: State, op: Op)
    requires op.Ingest? && !HasKey(s.events, op.key) && EventsOk(s)
    requires Unheard(s.history, s.nextId) && s.nextId !in s.events
    ensures EventsOk(IngestAt(s, op))
  {
    var s' := IngestAt(s, op);
    forall e | e in s'.events ensures RowOk(s', e) {
      assert e in s.events ==> RowOk(s, e);
    }
  }

  lemma NewRowUnseen(s: State, op: Op)
    requires op.Ingest? && !HasKey(s.events, op.key) && s.nextId !in s.events
    requires DeadLettersOk(s) && WorkerOk(s)
    ensures DeadLettersOk(IngestAt(s, op)) && WorkerOk(IngestAt(s, op))
  {
    hide DeadLetterMatches, HasKey;
    var s' := IngestAt(s, op);
    assert forall e :: e in s'.deadLetters ==> e in s.events && s'.events[e] == s.events[e];
    if s.worker.Draining? {
      forall i | 0 <= i < |s.worker.queue| ensures TicketOk(s', s.worker.tickAt, s.worker.queue[i]) {
        assert TicketOk(s, s.worker.tickAt, s.worker.queue[i]);
      }
    }
  }

  lemma IngestKeeps(cfg: Config, s: State, op: Op)
    requires Inv(cfg, s) && op.Ingest?
    ensures Inv(cfg, IngestAt(s, op))
  {
    hide EventsOk, DeadLettersOk, WorkerOk, HasKey;
    if !HasKey(s.events, op.key) {
      assert Unheard(s.history, s.nextId);
      IdsKnown(s);
      NewRowOk(s, op);
      NewRowUnseen(s, op);
    }
  }

  lemma UpsertKeeps(cfg: Config, s: State, op: Op)
    requires Inv(cfg, s) && op.UpsertEndpoint?
    ensures Inv(cfg, UpsertAt(s, op))
  {
    assert op.tenantId !in s.endpoints ==> NoSends(s.history, op.tenantId);
  }

  /** One event's row changed, and the last history entry is about it. */
  lemma RowChangeKeeps(s: State, s': State, id: Uuid)
    requires EventsOk(s) && id in s.events && id in s'.events
    requires s'.events == s.events[id := s'.events[id]] && s'.events[id].key == s.events[id].key
    requires s'.nextId == s.nextId
    requires s'.history.After? && s'.history.past == s.history && s'.history.last.eventId == id
    requires s'.deadLetters.Keys == s.deadLetters.Keys || s'.deadLetters.Keys == s.deadLetters.Keys + {id}
    requires RowOk(s', id)
    ensures EventsOk(s')
  {
    forall e | e in s'.events ensures RowOk(s', e) {
      assert RowOk(s, e);
      assert e != id ==> (e in s'.deadLetters.Keys <==> e in s.deadLetters.Keys);
    }
  }

  /** Nothing was sent, so no circuit column and no spacing changed. */
  lemma QuietEntryKeeps(cfg: Config, s: State, s': State)
    requires EndpointsOk(cfg, s) && HistoryOk(cfg, s)
    requires s'.endpoints == s.endpoints && s'.nextId == s.nextId
    requires s'.history.After? && s'.history.past == s.history
    requires !s'.history.last.Sent? && s'.history.last.eventId < s.nextId
    ensures EndpointsOk(cfg, s') && HistoryOk(cfg, s')
  {
    forall e | e >= s'.nextId ensures Unheard(s'.history, e) {
      assert Unheard(s.history, e);
    }
    forall t | t !in s'.endpoints ensures NoSends(s'.history, t) {
      assert NoSends(s.history, t);
    }
    forall t | t in s'.endpoints ensures CircuitMatches(cfg, s'.history, t, s'.endpoints[t]) {
      assert CircuitMatches(cfg, s.history, t, s.endpoints[t]);
    }
  }

  lemma RequeuedRowsOk(s: State, op: Op)
    requires EventsOk(s) && DeadLettersOk(s) && op.Requeue? && CanRequeue(s, op.tenantId, op.deadLetterId)
    ensures op.deadLetterId in s.events && RowOk(RequeueAt(s, op), op.deadLetterId)
    ensures DeadLettersOk(RequeueAt(s, op))
  {
    assert RowOk(s, op.deadLetterId);
    assert DeadLetterMatches(s.deadLetters[op.deadLetterId], s.events[op.deadLetterId]);
  }

  lemma RequeueKeepsWorker(s: State, op: Op)
    requires WorkerOk(s) && op.Requeue? && CanRequeue(s, op.tenantId, op.deadLetterId)
    requires op.deadLetterId in s.events
    ensures WorkerOk(RequeueAt(s, op))
  {
  }

  lemma RowIdKnown(s: State, e: Uuid)
    requires EventsOk(s) && e in s.events
    ensures e < s.nextId
  {
    assert RowOk(s, e);
  }

  lemma RequeueKeeps(cfg: Config, s: State, op: Op)
    requires Inv(cfg, s) && op.Requeue?
    ensures CanRequeue(s, op.tenantId, op.deadLetterId) ==> op.deadLetterId in s.events
    ensures Inv(cfg, RequeueAt(s, op))
  {
    hide EventsOk, DeadLettersOk, WorkerOk, EndpointsOk, HistoryOk, RowOk;
    if CanRequeue(s, op.tenantId, op.deadLetterId) {
      RequeuedRowsOk(s, op);
      var s', id := RequeueAt(s, op), op.deadLetterId;
      RowIdKnown(s, id);
      RowChangeKeeps(s, s', id);
      QuietEntryKeeps(cfg, s, s');
      RequeueKeepsWorker(s, op);
    }
  }

  lemma BeginKeeps(cfg: Config, s: State, batch: seq<Uuid>)
    requires Inv(cfg, s) && s.worker.Idle? && IsBatch(s.events, s.clock, batch)
    ensures Inv(cfg, BeginAt(s, batch))
  {
  }

  /** The worker goes on to the rest of its batch after changing only the row at its head. */
  lemma HeadDone(s: State, s': State)
    requires WorkerOk(s) && s.worker.Draining? && s.worker.flight.None? && s.worker.queue != []
    requires s'.worker == Resume(s.worker.tickAt, s.worker.queue[1..])
    requires s'.clock == s.clock && s'.endpoints == s.endpoints && s'.deadLetters == s.deadLetters
    requires s.worker.queue[0].eventId in s'.events
    requires s'.events == s.events[s.worker.queue[0].eventId := s'.events[s.worker.queue[0].eventId]]
    ensures WorkerOk(s')
  {
  }

  /** Setting an event aside costs it no attempt and can only make it wait longer. */
  lemma SetAsideRowOk(s: State, jitter: Jitter)
    requires EventsOk(s) && s.worker.Draining? && s.worker.flight.None? && s.worker.queue != []
    requires TicketOk(s, s.worker.tickAt, s.worker.queue[0]) && s.worker.tickAt <= s.clock
    ensures ClaimAt(s, jitter).history != s.history ==> RowOk(ClaimAt(s, jitter), s.worker.queue[0].eventId)
  {
    DelayRange(0, jitter);
    assert RowOk(s, s.worker.queue[0].eventId);
  }

  lemma SetAsideKeepsDeadLetters(s: State, jitter: Jitter)
    requires DeadLettersOk(s) && s.worker.Draining? && s.worker.flight.None? && s.worker.queue != []
    requires TicketOk(s, s.worker.tickAt, s.worker.queue[0])
    ensures DeadLettersOk(ClaimAt(s, jitter))
  {
    hide BackoffMs;
    var s' := ClaimAt(s, jitter);
    forall e | e in s'.deadLetters ensures DeadLetterOk(s', e) {
      assert DeadLetterOk(s, e);
    }
  }

  lemma SetAsideKeeps(cfg: Config, s: State, jitter: Jitter)
    requires Inv(cfg, s) && s.worker.Draining? && s.worker.flight.None? && s.worker.queue != []
    requires TicketOk(s, s.worker.tickAt, s.worker.queue[0]) && s.worker.tickAt <= s.clock
    requires ClaimAt(s, jitter).history != s.history
    ensures Inv(cfg, ClaimAt(s, jitter))
  {
    var id, s' := s.worker.queue[0].eventId, ClaimAt(s, jitter);
    SetAsideRowOk(s, jitter);
    RowIdKnown(s, id);
    SetAsideKeepsDeadLetters(s, jitter);
    hide EventsOk, DeadLettersOk, WorkerOk, EndpointsOk, HistoryOk, RowOk, BackoffMs;
    HeadDone(s, s');
    RowChangeKeeps(s, s', id);
    QuietEntryKeeps(cfg, s, s');
  }

  lemma SameRows(s: State, s': State)
    requires EventsOk(s) && DeadLettersOk(s)
    requires s'.events == s.events && s'.deadLetters == s.deadLetters && s'.history == s.history
    requires s'.nextId == s.nextId && s'.clock == s.clock
    ensures EventsOk(s') && DeadLettersOk(s')
  {
    forall e | e in s'.events ensures RowOk(s', e) {
      assert RowOk(s, e);
    }
    forall e | e in s'.deadLetters ensures DeadLetterOk(s', e) {
      assert DeadLetterOk(s, e);
    }
  }

  lemma SameHistory(cfg: Config, s: State, s': State)
    requires HistoryOk(cfg, s) && s'.history == s.history && s'.nextId == s.nextId
    ensures HistoryOk(cfg, s')
  {
  }

  lemma SendingKeeps(cfg: Config, s: State, jitter: Jitter)
    requires Inv(cfg, s) && s.worker.Draining? && s.worker.flight.None? && s.worker.queue != []
    requires TicketOk(s, s.worker.tickAt, s.worker.queue[0])
    requires ClaimAt(s, jitter).history == s.history
    ensures Inv(cfg, ClaimAt(s, jitter))
  {
    hide EventsOk, DeadLetterOk, HistoryOk, BackoffMs;
    var s' := ClaimAt(s, jitter);
    assert EventsOk(s') && DeadLettersOk(s') by {
      SameRows(s, s');
    }
    assert HistoryOk(cfg, s') by {
      SameHistory(cfg, s, s');
    }
  }

  lemma ClaimKeeps(cfg: Config, s: State, jitter: Jitter)
    requires Inv(cfg, s) && s.worker.Draining? && s.worker.flight.None? && s.worker.queue != []
    ensures s.worker.queue[0].eventId in s.events
    ensures Inv(cfg, ClaimAt(s, jitter))
  {
    assert TicketOk(s, s.worker.tickAt, s.worker.queue[0]) && s.worker.tickAt <= s.clock;
    hide Inv;
    if ClaimAt(s, jitter).history == s.history {
      SendingKeeps(cfg, s, jitter);
    } else {
      SetAsideKeeps(cfg, s, jitter);
    }
  }

  ghost predicate CanSettle(cfg: Config, s: State) {
    && Inv(cfg, s) && s.worker.Draining? && s.worker.flight.Some?
    && s.worker.flight.value.ticket.eventId in s.events
    && s.worker.flight.value.ticket.row.tenantId in s.endpoints
  }

  /** A draining worker's next row and endpoint exist. */
  lemma WorkerRowsExist(cfg: Config, s: State)
    requires Inv(cfg, s) && s.worker.Draining?
    ensures s.worker.queue != [] ==> s.worker.queue[0].eventId in s.events
    ensures s.worker.flight.Some? ==> CanSettle(cfg, s)
  {
    if s.worker.queue != [] {
      assert TicketOk(s, s.worker.tickAt, s.worker.queue[0]);
    }
  }

  lemma SettledRowOk(s: State, cfg: Config, outcome: Outcome, jitter: Jitter)
    requires EventsOk(s) && s.worker.Draining? && s.worker.flight.Some?
    requires TicketOk(s, s.worker.tickAt, s.worker.flight.value.ticket) && s.worker.tickAt <= s.clock
    requires s.worker.flight.value.ticket.row.tenantId in s.endpoints
    ensures RowOk(SettleAt(cfg, s, outcome, jitter), s.worker.flight.value.ticket.eventId)
  {
    var ticket := s.worker.flight.value.ticket;
    DelayNearNominal(ticket.row.attempts + 1, jitter);
    assert RowOk(s, ticket.eventId);
  }

  lemma SettleKeepsEvents(cfg: Config, s: State, outcome: Outcome, jitter: Jitter)
    requires CanSettle(cfg, s)
    ensures EventsOk(SettleAt(cfg, s, outcome, jitter))
  {
    var f := s.worker.flight.value;
    assert TicketOk(s, s.worker.tickAt, f.ticket);
    SettledRowOk(s, cfg, outcome, jitter);
    RowChangeKeeps(s, SettleAt(cfg, s, outcome, jitter), f.ticket.eventId);
  }

  /** What is known of the event in flight. */
  lemma FlightRow(cfg: Config, s: State)
    requires CanSettle(cfg, s)
    ensures
      var ticket := s.worker.flight.value.ticket;
      && TicketOk(s, s.worker.tickAt, ticket) && s.worker.tickAt <= s.clock
      && RowOk(s, ticket.eventId)
      && (ticket.eventId in s.deadLetters ==>
            DeadLetterMatches(s.deadLetters[ticket.eventId], s.events[ticket.eventId])
            && s.deadLetters[ticket.eventId].createdAt <= s.clock
            && (s.deadLetters[ticket.eventId].requeuedAt.None? <==> Requeues(s.history, ticket.eventId) == 0))
  {
  }

  /** The tenth request of an event that was never dead-lettered ends late enough. */
  lemma TenthEndsLate(cfg: Config, s: State)
    requires CanSettle(cfg, s) && s.worker.flight.value.ticket.eventId !in s.deadLetters
    ensures
      var ticket := s.worker.flight.value.ticket;
      var row := s.events[ticket.eventId];
      && row.attempts == ticket.row.attempts && Requeues(s.history, ticket.eventId) == 0
      && (row.attempts + 1 >= LAST_ATTEMPT ==> s.clock >= row.createdAt + EARLIEST_DEAD_LETTER_MS)
  {
    FlightRow(cfg, s);
    NineDelays();
    hide Inv, MinimumWait;
  }

  lemma BuriedFirst(cfg: Config, s: State, outcome: Outcome, jitter: Jitter)
    requires CanSettle(cfg, s) && s.worker.flight.value.ticket.eventId !in s.deadLetters
    ensures
      var id, s' := s.worker.flight.value.ticket.eventId, SettleAt(cfg, s, outcome, jitter);
      id in s'.deadLetters ==> DeadLetterOk(s', id)
  {
    TenthEndsLate(cfg, s);
    FlightRow(cfg, s);
    hide Inv, RowOk, BackoffMs, SettledEndpoint;
  }

  lemma BuriedAgain(cfg: Config, s: State, outcome: Outcome, jitter: Jitter)
    requires CanSettle(cfg, s) && s.worker.flight.value.ticket.eventId in s.deadLetters
    ensures
      var id, s' := s.worker.flight.value.ticket.eventId, SettleAt(cfg, s, outcome, jitter);
      id in s'.deadLetters && DeadLetterOk(s', id)
  {
    FlightRow(cfg, s);
    hide Inv, BackoffMs, SettledEndpoint, RowMatchesHistory, OnSchedule;
  }

  lemma OtherLetterOk(cfg: Config, s: State, outcome: Outcome, jitter: Jitter, e: Uuid)
    requires CanSettle(cfg, s) && e != s.worker.flight.value.ticket.eventId
    ensures e in SettleAt(cfg, s, outcome, jitter).deadLetters ==> DeadLetterOk(SettleAt(cfg, s, outcome, jitter), e)
  {
    assert e in s.deadLetters ==> DeadLetterMatches(s.deadLetters[e], s.events[e]);
    hide EventsOk, WorkerOk, EndpointsOk, HistoryOk, BackoffMs, SettledEndpoint, SettledEvent, DeadLetterMatches;
  }

  lemma SettleKeepsDeadLetters(cfg: Config, s: State, outcome: Outcome, jitter: Jitter)
    requires CanSettle(cfg, s)
    ensures DeadLettersOk(SettleAt(cfg, s, outcome, jitter))
  {
    hide Inv, SettleAt, DeadLetterMatches;
    var s' := SettleAt(cfg, s, outcome, jitter);
    forall e | e in s'.deadLetters ensures DeadLetterOk(s', e) {
      if e != s.worker.flight.value.ticket.eventId {
        OtherLetterOk(cfg, s, outcome, jitter, e);
      } else if e in s.deadLetters {
        BuriedAgain(cfg, s, outcome, jitter);
      } else {
        BuriedFirst(cfg, s, outcome, jitter);
      }
    }
  }

  lemma SettleKeepsWorker(cfg: Config, s: State, outcome: Outcome, jitter: Jitter)
    requires CanSettle(cfg, s)
    ensures WorkerOk(SettleAt(cfg, s, outcome, jitter))
  {
  }

  lemma SettleKeepsCircuit(cfg: Config, s: State, outcome: Outcome, jitter: Jitter)
    requires CanSettle(cfg, s)
    ensures EndpointsOk(cfg, SettleAt(cfg, s, outcome, jitter))
    ensures HistoryOk(cfg, SettleAt(cfg, s, outcome, jitter))
  {
    var f := s.worker.flight.value;
    var t, s' := f.ticket.row.tenantId, SettleAt(cfg, s, outcome, jitter);
    assert CircuitMatches(cfg, s.history, t, s.endpoints[t]);
    forall t' | t' in s'.endpoints && t' != t
      ensures CircuitMatches(cfg, s'.history, t', s'.endpoints[t'])
    {
      assert CircuitMatches(cfg, s.history, t', s.endpoints[t']);
    }
    forall t' | t' !in s'.endpoints ensures NoSends(s'.history, t') {
      assert NoSends(s.history, t');
    }
    forall e | e >= s'.nextId ensures Unheard(s'.history, e) {
      assert Unheard(s.history, e);
    }
  }

  // ---- Runs ----------------------------------------------------------------------------------

  lemma StepKeeps(cfg: Config, s: State, step: Step)
    requires Inv(cfg, s) && Legal(s, step)
    ensures Inv(cfg, Apply(cfg, s, step))
  {
    TimePasses(cfg, s, step.wait);
    var now := Later(s, step.wait);
    match step.op
    case Ingest(_, _, _, _) => IngestKeeps(cfg, now, step.op);
    case UpsertEndpoint(_, _, _, _) => UpsertKeeps(cfg, now, step.op);
    case Requeue(_, _) => RequeueKeeps(cfg, now, step.op);
    case BeginTick(batch) => BeginKeeps(cfg, now, batch);
    case Claim(jitter) => ClaimKeeps(cfg, now, jitter);
    case Settle(outcome, jitter) =>
      SettleKeepsEvents(cfg, now, outcome, jitter);
      SettleKeepsDeadLetters(cfg, now, outcome, jitter);
      SettleKeepsWorker(cfg, now, outcome, jitter);
      SettleKeepsCircuit(cfg, now, outcome, jitter);
  }

  lemma {:induction false} RunKeeps(cfg: Config, s: State, steps: seq<Step>)
    requires Inv(cfg, s) && LegalRun(cfg, s, steps)
    ensures Inv(cfg, Run(cfg, s, steps))
    decreases |steps|
  {
    if steps == [] {
    } else {
      StepKeeps(cfg, s, steps[0]);
      RunKeeps(cfg, Apply(cfg, s, steps[0]), steps[1..]);
    }
  }

  lemma InitialOk(cfg: Config, clock: int)
    ensures Inv(cfg, Initial(clock))
  {
  }
}
