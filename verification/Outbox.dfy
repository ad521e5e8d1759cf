/**
 The webhook outbox as a state machine over its three tables.

 One worker drains the outbox; ingest, requeue and endpoint upserts may happen between any two of its
 steps, also while a delivery is in flight. Time never runs backwards. The HTTP outcome, the jitter and
 the order of equally ranked rows in a batch are inputs of the steps. `history` records what happened;
 no operation reads it.
 */
module Outbox {
  import opened Prelude
  import opened Backoff

  // ---- Configuration -------------------------------------------------------------------------

  datatype CircuitConfig = CircuitConfig(threshold: int, openMs: int)

  type Config = c: CircuitConfig | c.threshold >= 1 && c.openMs >= 10_000
    witness CircuitConfig(5, 180_000)

  /** Reads the two limits from the environment; `None` stands for text parseInt cannot read. */
  function ConfigFromEnv(threshold: Option<int>, openMs: Option<int>): (c: Config)
    ensures threshold.Some? && threshold.value >= 1 ==> c.threshold == threshold.value
    ensures openMs.Some? && openMs.value >= 10_000 ==> c.openMs == openMs.value
    ensures threshold.Some? && threshold.value < 1 ==> c.threshold == 1
    ensures openMs.Some? && openMs.value < 10_000 ==> c.openMs == 10_000
    ensures threshold.None? ==> c.threshold == 5
    ensures openMs.None? ==> c.openMs == 180_000
  {
    CircuitConfig(if threshold.None? then 5 else Max(1, threshold.value),
                  if openMs.None? then 180_000 else Max(10_000, openMs.value))
  }

  // ---- Tables --------------------------------------------------------------------------------

  datatype Status = Pending | Delivered | Failed | Skipped

  datatype Note = NoActiveEndpoint | CircuitOpen(until: int) | DeliveryError(message: string)

  datatype Event = Event(
    tenantId: Uuid, eventType: string, key: string, payload: string, createdAt: int,
    status: Status, attempts: nat, nextAttemptAt: int,
    lastAttemptAt: Option<int>, deliveredAt: Option<int>, lastError: Option<Note>)

  datatype Endpoint = Endpoint(
    url: string, secret: string, isActive: bool, failures: nat, openUntil: Option<int>,
    lastFailureAt: Option<int>, lastSuccessAt: Option<int>)

  /** Kept under the id of its event: eventBufferId is unique in this table. */
  datatype DeadLetter = DeadLetter(
    tenantId: Uuid, eventType: string, key: string, payload: string,
    reason: string, createdAt: int, failedAt: int, requeuedAt: Option<int>)

  // ---- Worker --------------------------------------------------------------------------------

  /** A row of the batch, as it was when the batch was read. */
  datatype Ticket = Ticket(eventId: Uuid, row: Event)

  /** A request under way, with the failure count its endpoint had when it was read. */
  datatype Flight = Flight(ticket: Ticket, failures: nat, sentAt: int)

  datatype Worker =
    | Idle
    | Draining(tickAt: int, queue: seq<Ticket>, flight: Option<Flight>)

  datatype Outcome = Ok | HttpFail(message: string) | Throw(message: string)

  // ---- History -------------------------------------------------------------------------------

  datatype Entry =
    | Sent(eventId: Uuid, tenantId: Uuid, sentAt: int, settledAt: int, ok: bool, message: string)
    | SetAside(eventId: Uuid, at: int, deferred: bool)
    | Requeued(eventId: Uuid, at: int)

  datatype History = Start | After(past: History, last: Entry)

  /** Requests made for an event. */
  function Sends(h: History, e: Uuid): nat {
    match h
    case Start => 0
    case After(p, x) => Sends(p, e) + if x.Sent? && x.eventId == e then 1 else 0
  }

  function Requeues(h: History, e: Uuid): nat {
    match h
    case Start => 0
    case After(p, x) => Requeues(p, e) + if x.Requeued? && x.eventId == e then 1 else 0
  }

  /** How often the circuit breaker made an event wait. */
  function Deferrals(h: History, e: Uuid): nat {
    match h
    case Start => 0
    case After(p, x) => Deferrals(p, e) + if x.SetAside? && x.deferred && x.eventId == e then 1 else 0
  }

  /** Requests to a tenant that failed. */
  function FailedRequests(h: History, t: Uuid): nat {
    match h
    case Start => 0
    case After(p, x) => FailedRequests(p, t) + if x.Sent? && x.tenantId == t && !x.ok then 1 else 0
  }

  /** When the worker last touched an event: sent it, deferred it or skipped it. */
  function LastTouch(h: History, e: Uuid): Option<int> {
    match h
    case Start => None
    case After(p, x) =>
      if x.Sent? && x.eventId == e then Some(x.settledAt)
      else if x.SetAside? && x.eventId == e then Some(x.at)
      else LastTouch(p, e)
  }

  function LastDelivery(h: History, e: Uuid): Option<int> {
    match h
    case Start => None
    case After(p, x) =>
      if x.Sent? && x.eventId == e && x.ok then Some(x.settledAt) else LastDelivery(p, e)
  }

  /** The length of the tenant's current run of failures. */
  function Trailing(h: History, t: Uuid): nat {
    match h
    case Start => 0
    case After(p, x) =>
      if x.Sent? && x.tenantId == t then (if x.ok then 0 else Trailing(p, t) + 1) else Trailing(p, t)
  }

  /** When the tenant's most recent request with this outcome ended. */
  function LastSettled(h: History, t: Uuid, ok: bool): Option<int> {
    match h
    case Start => None
    case After(p, x) =>
      if x.Sent? && x.tenantId == t && x.ok == ok then Some(x.settledAt) else LastSettled(p, t, ok)
  }

  // ---- State ---------------------------------------------------------------------------------

  datatype State = State(
    clock: int, nextId: Uuid,
    events: map<Uuid, Event>, endpoints: map<Uuid, Endpoint>, deadLetters: map<Uuid, DeadLetter>,
    worker: Worker, history: History)

  function Initial(clock: int): State {
    State(clock, 0, map[], map[], map[], Idle, Start)
  }

  datatype Op =
    | Ingest(tenantId: Uuid, eventType: string, key: string, payload: string)
    | UpsertEndpoint(tenantId: Uuid, url: string, secret: string, isActive: Option<bool>)
    | Requeue(tenantId: Uuid, deadLetterId: Uuid)
    | BeginTick(batch: seq<Uuid>)
    | Claim(jitter: Jitter)
    | Settle(outcome: Outcome, jitter: Jitter)

  /** An operation, and the time that passes before it. */
  datatype Step = Step(wait: nat, op: Op)

  predicate IsEnvironment(op: Op) {
    op.Ingest? || op.UpsertEndpoint? || op.Requeue?
  }

  // ---- Operations ----------------------------------------------------------------------------

  predicate HasKey(events: map<Uuid, Event>, key: string) {
    exists e :: e in events && events[e].key == key
  }

  /** appendEvent: an upsert by idempotency key that never changes an existing row. */
  function IngestAt(s: State, op: Op): State
    requires op.Ingest?
  {
    if HasKey(s.events, op.key) then s
    else
      var row := Event(op.tenantId, op.eventType, op.key, op.payload, s.clock,
                       Pending, 0, s.clock, None, None, None);
      s.(events := s.events[s.nextId := row], nextId := s.nextId + 1)
  }

  /** upsertWebhookEndpoint: the circuit fields of an existing row stay as they are. */
  function UpsertAt(s: State, op: Op): State
    requires op.UpsertEndpoint?
  {
    if op.url == "" || op.secret == "" then s
    else
      var active := op.isActive.GetOr(true);
      var row :=
        if op.tenantId in s.endpoints
        then s.endpoints[op.tenantId].(url := op.url, secret := op.secret, isActive := active)
        else Endpoint(op.url, op.secret, active, 0, None, None, None);
      s.(endpoints := s.endpoints[op.tenantId := row])
  }

  predicate CanRequeue(s: State, tenantId: Uuid, id: Uuid) {
    id in s.deadLetters && s.deadLetters[id].tenantId == tenantId
  }

  /** requeueDeadLetter: whatever the event's status is, and without resetting its attempts. */
  function RequeueAt(s: State, op: Op): State
    requires op.Requeue?
    requires CanRequeue(s, op.tenantId, op.deadLetterId) ==> op.deadLetterId in s.events
  {
    var id := op.deadLetterId;
    if !CanRequeue(s, op.tenantId, id) then s
    else
      var row := s.events[id].(status := Pending, nextAttemptAt := s.clock, lastError := None);
      var dead := s.deadLetters[id].(requeuedAt := Some(s.clock));
      s.(events := s.events[id := row], deadLetters := s.deadLetters[id := dead],
         history := After(s.history, Requeued(id, s.clock)))
  }

  const BATCH: nat := 50

  predicate Due(row: Event, now: int) {
    row.status == Pending && row.nextAttemptAt <= now
  }

  /** The order in which due rows are taken. */
  predicate Before(a: Event, b: Event) {
    a.nextAttemptAt < b.nextAttemptAt || (a.nextAttemptAt == b.nextAttemptAt && a.createdAt <= b.createdAt)
  }

  /** `batch` is an answer the database may give: the first 50 due rows, ties broken either way. */
  ghost predicate IsBatch(events: map<Uuid, Event>, now: int, batch: seq<Uuid>) {
    && Distinct(batch)
    && |batch| <= BATCH
    && (forall i :: 0 <= i < |batch| ==> batch[i] in events && Due(events[batch[i]], now))
    && (forall i, j :: 0 <= i < j < |batch| ==> Before(events[batch[i]], events[batch[j]]))
    && (forall e :: e in events && Due(events[e], now) && e !in batch ==>
          |batch| == BATCH && forall i :: 0 <= i < |batch| ==> Before(events[batch[i]], events[e]))
  }

  function Tickets(events: map<Uuid, Event>, batch: seq<Uuid>): (q: seq<Ticket>)
    requires forall i :: 0 <= i < |batch| ==> batch[i] in events
  {
    seq(|batch|, i requires 0 <= i < |batch| => Ticket(batch[i], events[batch[i]]))
  }

  /** The worker after it is done with a row. */
  function Resume(tickAt: int, queue: seq<Ticket>): Worker {
    if queue == [] then Idle else Draining(tickAt, queue, None)
  }

  function BeginAt(s: State, batch: seq<Uuid>): State
    requires forall i :: 0 <= i < |batch| ==> batch[i] in s.events
  {
    s.(worker := Resume(s.clock, Tickets(s.events, batch)))
  }

  /** Whether the breaker holds requests back at this moment. */
  predicate Blocked(endpoint: Endpoint, now: int) {
    endpoint.openUntil.Some? && endpoint.openUntil.value > now
  }

  function ClaimAt(s: State, jitter: Jitter): State
    requires s.worker.Draining? && s.worker.flight.None? && s.worker.queue != []
    requires s.worker.queue[0].eventId in s.events
  {
    var ticket := s.worker.queue[0];
    var rest := s.worker.queue[1..];
    var id := ticket.eventId;
    var t := ticket.row.tenantId;
    if t !in s.endpoints || !s.endpoints[t].isActive then
      var row := s.events[id].(status := Skipped, lastAttemptAt := Some(s.clock),
                               lastError := Some(NoActiveEndpoint));
      s.(events := s.events[id := row], worker := Resume(s.worker.tickAt, rest),
         history := After(s.history, SetAside(id, s.clock, false)))
    else if Blocked(s.endpoints[t], s.clock) then
      var until := s.endpoints[t].openUntil.value;
      var row := s.events[id].(nextAttemptAt := until + BackoffMs(0, jitter),
                               lastAttemptAt := Some(s.clock), lastError := Some(CircuitOpen(until)));
      s.(events := s.events[id := row], worker := Resume(s.worker.tickAt, rest),
         history := After(s.history, SetAside(id, s.clock, true)))
    else
      s.(worker := Draining(s.worker.tickAt, rest,
                            Some(Flight(ticket, s.endpoints[t].failures, s.clock))))
  }

  function Message(outcome: Outcome): string
    requires !outcome.Ok?
  {
    match outcome
    case HttpFail(m) => m
    case Throw(m) => m
  }

  const LAST_ATTEMPT: nat := 10

  function SettledEvent(row: Event, attempt: nat, outcome: Outcome, now: int, jitter: Jitter): Event {
    if outcome.Ok? then
      row.(status := Delivered, deliveredAt := Some(now), lastAttemptAt := Some(now),
           attempts := attempt, lastError := None)
    else
      row.(attempts := attempt, lastAttemptAt := Some(now),
           nextAttemptAt := now + BackoffMs(attempt, jitter),
           lastError := Some(DeliveryError(Message(outcome))),
           status := if attempt >= LAST_ATTEMPT then Failed else Pending)
  }

  function SettledEndpoint(cfg: Config, row: Endpoint, failures: nat, outcome: Outcome, now: int): Endpoint {
    if outcome.Ok? then
      row.(failures := 0, openUntil := None, lastSuccessAt := Some(now))
    else
      var more := failures + 1;
      row.(failures := more, lastFailureAt := Some(now),
           openUntil := if more >= cfg.threshold then Some(now + cfg.openMs) else row.openUntil)
  }

  /** The dead-letter upsert: an existing row keeps its requeuedAt. */
  function Buried(dead: map<Uuid, DeadLetter>, ticket: Ticket, reason: string, now: int): map<Uuid, DeadLetter> {
    var id := ticket.eventId;
    if id in dead then dead[id := dead[id].(reason := reason, failedAt := now)]
    else
      var r := ticket.row;
      dead[id := DeadLetter(r.tenantId, r.eventType, r.key, r.payload, reason, now, now, None)]
  }

  function SettleAt(cfg: Config, s: State, outcome: Outcome, jitter: Jitter): State
    requires s.worker.Draining? && s.worker.flight.Some?
    requires s.worker.flight.value.ticket.eventId in s.events
    requires s.worker.flight.value.ticket.row.tenantId in s.endpoints
  {
    var f := s.worker.flight.value;
    var id, t := f.ticket.eventId, f.ticket.row.tenantId;
    var attempt := f.ticket.row.attempts + 1;
    s.(events := s.events[id := SettledEvent(s.events[id], attempt, outcome, s.clock, jitter)],
       endpoints := s.endpoints[t := SettledEndpoint(cfg, s.endpoints[t], f.failures, outcome, s.clock)],
       deadLetters := if !outcome.Ok? && attempt >= LAST_ATTEMPT
                      then Buried(s.deadLetters, f.ticket, Message(outcome), s.clock) else s.deadLetters,
       worker := Resume(s.worker.tickAt, s.worker.queue),
       history := After(s.history, Sent(id, t, f.sentAt, s.clock, outcome.Ok?, if outcome.Ok? then "" else Message(outcome))))
  }

  // ---- Steps and runs ------------------------------------------------------------------------

  /** The step can be taken: a single worker, and every row it updates exists. */
  ghost predicate Legal(s: State, step: Step) {
    match step.op
    case Requeue(tenantId, id) => CanRequeue(s, tenantId, id) ==> id in s.events
    case BeginTick(batch) => s.worker.Idle? && IsBatch(s.events, s.clock + step.wait, batch)
    case Claim(_) =>
      && s.worker.Draining? && s.worker.flight.None? && s.worker.queue != []
      && s.worker.queue[0].eventId in s.events
    case Settle(_, _) =>
      && s.worker.Draining? && s.worker.flight.Some?
      && s.worker.flight.value.ticket.eventId in s.events
      && s.worker.flight.value.ticket.row.tenantId in s.endpoints
    case _ => true
  }

  function Later(s: State, wait: nat): State {
    s.(clock := s.clock + wait)
  }

  ghost function Apply(cfg: Config, s: State, step: Step): State
    requires Legal(s, step)
  {
    var now := Later(s, step.wait);
    match step.op
    case Ingest(_, _, _, _) => IngestAt(now, step.op)
    case UpsertEndpoint(_, _, _, _) => UpsertAt(now, step.op)
    case Requeue(_, _) => RequeueAt(now, step.op)
    case BeginTick(batch) => BeginAt(now, batch)
    case Claim(jitter) => ClaimAt(now, jitter)
    case Settle(outcome, jitter) => SettleAt(cfg, now, outcome, jitter)
  }

  ghost predicate LegalRun(cfg: Config, s: State, steps: seq<Step>)
    decreases |steps|
  {
    steps != [] ==> Legal(s, steps[0]) && LegalRun(cfg, Apply(cfg, s, steps[0]), steps[1..])
  }

  ghost function Run(cfg: Config, s: State, steps: seq<Step>): State
    requires LegalRun(cfg, s, steps)
    decreases |steps|
  {
    if steps == [] then s else Run(cfg, Apply(cfg, s, steps[0]), steps[1..])
  }

  /** Runs compose; the worker's method uses this to extend its trace. */
  lemma {:induction false} RunSplit(cfg: Config, s: State, first: seq<Step>, second: seq<Step>)
    requires LegalRun(cfg, s, first) && LegalRun(cfg, Run(cfg, s, first), second)
    ensures LegalRun(cfg, s, first + second)
    ensures Run(cfg, s, first + second) == Run(cfg, Run(cfg, s, first), second)
    decreases |first|
  {
    if first == [] {
      assert first + second == second;
    } else {
      RunSplit(cfg, Apply(cfg, s, first[0]), first[1..], second);
      assert (first + second)[1..] == first[1..] + second;
    }
  }

  lemma RunOne(cfg: Config, s: State, step: Step)
    requires Legal(s, step)
    ensures LegalRun(cfg, s, [step]) && Run(cfg, s, [step]) == Apply(cfg, s, step)
  {
    assert [step][1..] == [];
    assert LegalRun(cfg, Apply(cfg, s, step), []);
  }

  lemma RunExtend(cfg: Config, s: State, steps: seq<Step>, step: Step)
    requires LegalRun(cfg, s, steps) && Legal(Run(cfg, s, steps), step)
    ensures LegalRun(cfg, s, steps + [step])
    ensures Run(cfg, s, steps + [step]) == Apply(cfg, Run(cfg, s, steps), step)
  {
    RunOne(cfg, Run(cfg, s, steps), step);
    RunSplit(cfg, s, steps, [step]);
  }
}
