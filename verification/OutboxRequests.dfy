/** What the outbox owes to the requests made of it: events, endpoints and the decision to send. */
module OutboxRequests {
  import opened Prelude
  import opened Backoff
  import opened Outbox
  import opened OutboxInvariant
  import opened OutboxTheorems

  // ---- Reading the requests of a run -----------------------------------------------------------

  /** An upsert with a url and a secret, by this tenant. */
  predicate Accepted(op: Op, t: Uuid) {
    op.UpsertEndpoint? && op.tenantId == t && op.url != "" && op.secret != ""
  }

  /** The tenant's last accepted upsert. */
  function LastUpsert(steps: seq<Step>, t: Uuid): Option<Op> {
    if steps == [] then None
    else if Accepted(steps[|steps| - 1].op, t) then Some(steps[|steps| - 1].op)
    else LastUpsert(steps[..|steps| - 1], t)
  }

  /** The endpoint is switched on unless the upsert said otherwise. */
  predicate AsksActive(op: Op)
    requires op.UpsertEndpoint?
  {
    op.isActive == None || op.isActive == Some(true)
  }

  function TimeAfter(clock: int, steps: seq<Step>): int {
    if steps == [] then clock else TimeAfter(clock, steps[..|steps| - 1]) + steps[|steps| - 1].wait
  }

  /** The first message with this key, and when it came. */
  function FirstMessage(clock: int, steps: seq<Step>, key: string): Option<(Op, int)> {
    if steps == [] then None
    else
      var front, last := steps[..|steps| - 1], steps[|steps| - 1];
      if FirstMessage(clock, front, key).Some? then FirstMessage(clock, front, key)
      else if last.op.Ingest? && last.op.key == key then Some((last.op, TimeAfter(clock, steps)))
      else None
  }

  // ---- The tables say what was requested -------------------------------------------------------

  ghost predicate EndpointAsked(s: State, steps: seq<Step>, t: Uuid) {
    && (t in s.endpoints <==> LastUpsert(steps, t).Some?)
    && (t in s.endpoints ==>
          var op, row := LastUpsert(steps, t).value, s.endpoints[t];
          op.UpsertEndpoint? && row.url == op.url && row.secret == op.secret && (row.isActive <==> AsksActive(op)))
  }

  /** The event is the first message with its key. */
  ghost predicate EventAsked(s: State, clock: int, steps: seq<Step>, e: Uuid)
    requires e in s.events
  {
    var row, first := s.events[e], FirstMessage(clock, steps, s.events[e].key);
    && first.Some? && first.value.0.Ingest? && first.value.0.key == row.key
    && row.tenantId == first.value.0.tenantId && row.eventType == first.value.0.eventType
    && row.payload == first.value.0.payload && row.createdAt == first.value.1
  }

  ghost predicate Asked(s: State, clock: int, steps: seq<Step>) {
    && s.clock == TimeAfter(clock, steps)
    && (forall t :: EndpointAsked(s, steps, t))
    && (forall e :: e in s.events ==> EventAsked(s, clock, steps, e))
    && (forall key :: FirstMessage(clock, steps, key).Some? ==> HasKey(s.events, key))
  }

  /** Events keep what they came with. */
  predicate SameMessage(a: Event, b: Event) {
    a.tenantId == b.tenantId && a.eventType == b.eventType && a.key == b.key
    && a.payload == b.payload && a.createdAt == b.createdAt
  }

  ghost predicate SameMessages(before: map<Uuid, Event>, after: map<Uuid, Event>) {
    && before.Keys == after.Keys
    && forall e :: e in before ==> e in after && SameMessage(before[e], after[e])
  }

  predicate SameAddress(a: Endpoint, b: Endpoint) {
    a.url == b.url && a.secret == b.secret && a.isActive == b.isActive
  }

  ghost predicate SameAddresses(before: map<Uuid, Endpoint>, after: map<Uuid, Endpoint>) {
    && before.Keys == after.Keys
    && forall t :: t in before ==> t in after && SameAddress(before[t], after[t])
  }

  lemma RequeueKeepsRequests(s: State, op: Op)
    requires op.Requeue? && (CanRequeue(s, op.tenantId, op.deadLetterId) ==> op.deadLetterId in s.events)
    ensures SameMessages(s.events, RequeueAt(s, op).events)
    ensures SameAddresses(s.endpoints, RequeueAt(s, op).endpoints)
  {
  }

  lemma ClaimKeepsRequests(s: State, jitter: Jitter)
    requires s.worker.Draining? && s.worker.flight.None? && s.worker.queue != []
    requires s.worker.queue[0].eventId in s.events
    ensures SameMessages(s.events, ClaimAt(s, jitter).events)
    ensures SameAddresses(s.endpoints, ClaimAt(s, jitter).endpoints)
  {
    hide BackoffMs;
  }

  lemma SettledKeepsRequests(cfg: Config, row: Event, end: Endpoint, attempt: nat, failures: nat,
                             outcome: Outcome, now: int, jitter: Jitter)
    ensures SameMessage(row, SettledEvent(row, attempt, outcome, now, jitter))
    ensures SameAddress(end, SettledEndpoint(cfg, end, failures, outcome, now))
  {
  }

  lemma SameAsItself()
    ensures forall a: Event :: SameMessage(a, a)
    ensures forall a: Endpoint :: SameAddress(a, a)
  {
  }

  lemma SettleKeepsRequests(cfg: Config, s: State, outcome: Outcome, jitter: Jitter)
    requires s.worker.Draining? && s.worker.flight.Some?
    requires s.worker.flight.value.ticket.eventId in s.events
    requires s.worker.flight.value.ticket.row.tenantId in s.endpoints
    ensures SameMessages(s.events, SettleAt(cfg, s, outcome, jitter).events)
    ensures SameAddresses(s.endpoints, SettleAt(cfg, s, outcome, jitter).endpoints)
  {
    var f := s.worker.flight.value;
    SettledKeepsRequests(cfg, s.events[f.ticket.eventId], s.endpoints[f.ticket.row.tenantId],
                         f.ticket.row.attempts + 1, f.failures, outcome, s.clock, jitter);
    hide SettledEvent, SettledEndpoint, Buried, Message, SameMessage, SameAddress;
    assert forall a: Event :: SameMessage(a, a) by {
      SameAsItself();
    }
    assert forall a: Endpoint :: SameAddress(a, a) by {
      SameAsItself();
    }
  }

  /** The worker and requeues change neither messages nor addresses. */
  lemma WorkerKeepsRequests(cfg: Config, s: State, step: Step)
    requires Legal(s, step) && !step.op.Ingest? && !step.op.UpsertEndpoint?
    ensures
      var s' := Apply(cfg, s, step);
      SameMessages(s.events, s'.events) && SameAddresses(s.endpoints, s'.endpoints)
  {
    hide IsBatch, RequeueAt, ClaimAt, SettleAt;
    var now := Later(s, step.wait);
    match step.op
    case Requeue(_, _) => RequeueKeepsRequests(now, step.op);
    case BeginTick(_) =>
    case Claim(jitter) => ClaimKeepsRequests(now, jitter);
    case Settle(outcome, jitter) => SettleKeepsRequests(cfg, now, outcome, jitter);
  }

  lemma ClockSteps(cfg: Config, s: State, step: Step)
    requires Legal(s, step)
    ensures Apply(cfg, s, step).clock == s.clock + step.wait
  {
    hide IsBatch;
  }

  lemma SameRowAsked(s: State, s': State, t: Uuid)
    requires SameAddresses(s.endpoints, s'.endpoints)
    ensures t in s.endpoints <==> t in s'.endpoints
    ensures t in s.endpoints ==> SameAddress(s.endpoints[t], s'.endpoints[t])
    ensures t in s.endpoints ==>
      s.endpoints[t].url == s'.endpoints[t].url && s.endpoints[t].secret == s'.endpoints[t].secret
      && s.endpoints[t].isActive == s'.endpoints[t].isActive
  {
    assert t in s.endpoints.Keys <==> t in s'.endpoints.Keys;
  }

  lemma QuietAsked(s: State, s': State, clock: int, steps: seq<Step>, step: Step)
    requires Asked(s, clock, steps) && s'.clock == s.clock + step.wait
    requires !step.op.Ingest? && (step.op.UpsertEndpoint? ==> !Accepted(step.op, step.op.tenantId))
    requires SameMessages(s.events, s'.events) && SameAddresses(s.endpoints, s'.endpoints)
    ensures Asked(s', clock, steps + [step])
  {
    var all := steps + [step];
    assert all[..|steps|] == steps;
    hide SameAddress;
    forall t ensures EndpointAsked(s', all, t) {
      assert EndpointAsked(s, steps, t) && LastUpsert(all, t) == LastUpsert(steps, t);
      SameRowAsked(s, s', t);
    }
    forall e | e in s'.events ensures EventAsked(s', clock, all, e) {
      assert EventAsked(s, clock, steps, e);
    }
    forall key | FirstMessage(clock, all, key).Some? ensures HasKey(s'.events, key) {
      assert FirstMessage(clock, all, key) == FirstMessage(clock, steps, key);
      var e :| e in s.events && s.events[e].key == key;
      assert s'.events[e].key == key;
    }
  }

  lemma UpsertAsked(s: State, clock: int, steps: seq<Step>, step: Step)
    requires Asked(s, clock, steps) && step.op.UpsertEndpoint? && Accepted(step.op, step.op.tenantId)
    ensures Asked(UpsertAt(Later(s, step.wait), step.op), clock, steps + [step])
  {
    var all, s' := steps + [step], UpsertAt(Later(s, step.wait), step.op);
    assert all[..|steps|] == steps;
    forall t ensures EndpointAsked(s', all, t) {
      assert EndpointAsked(s, steps, t);
    }
    forall e | e in s'.events ensures EventAsked(s', clock, all, e) {
      assert EventAsked(s, clock, steps, e);
    }
  }

  lemma NoUpsert(steps: seq<Step>, step: Step, t: Uuid)
    requires !step.op.UpsertEndpoint?
    ensures LastUpsert(steps + [step], t) == LastUpsert(steps, t)
  {
    assert (steps + [step])[..|steps|] == steps;
  }

  lemma NoMessageYet(s: State, clock: int, steps: seq<Step>, key: string)
    requires Asked(s, clock, steps) && !HasKey(s.events, key)
    ensures FirstMessage(clock, steps, key).None?
  {
  }

  lemma IngestAsked(s: State, clock: int, steps: seq<Step>, step: Step)
    requires Asked(s, clock, steps) && step.op.Ingest? && s.nextId !in s.events
    ensures Asked(IngestAt(Later(s, step.wait), step.op), clock, steps + [step])
  {
    var all, s' := steps + [step], IngestAt(Later(s, step.wait), step.op);
    assert all[..|steps|] == steps;
    hide Accepted, AsksActive;
    forall t ensures EndpointAsked(s', all, t) {
      assert EndpointAsked(s, steps, t);
      NoUpsert(steps, step, t);
    }
    forall e | e in s'.events ensures EventAsked(s', clock, all, e) {
      if e in s.events {
        assert EventAsked(s, clock, steps, e);
      } else {
        NoMessageYet(s, clock, steps, step.op.key);
      }
    }
    forall key | FirstMessage(clock, all, key).Some? ensures HasKey(s'.events, key) {
      if HasKey(s.events, key) {
        var e :| e in s.events && s.events[e].key == key;
        assert e in s'.events && s'.events[e].key == key;
      } else {
        assert s'.events[s.nextId].key == key;
      }
    }
  }

  lemma StepAsked(cfg: Config, s: State, clock: int, steps: seq<Step>, step: Step)
    requires Inv(cfg, s) && Asked(s, clock, steps) && Legal(s, step)
    ensures Asked(Apply(cfg, s, step), clock, steps + [step])
  {
    IdsKnown(s);
    ClockSteps(cfg, s, step);
    if !step.op.Ingest? && !step.op.UpsertEndpoint? {
      WorkerKeepsRequests(cfg, s, step);
    }
    hide Inv, Asked, IsBatch, IngestAt, RequeueAt, BeginAt, ClaimAt, SettleAt;
    match step.op
    case Ingest(_, _, _, _) => IngestAsked(s, clock, steps, step);
    case UpsertEndpoint(t, _, _, _) =>
      if Accepted(step.op, t) {
        UpsertAsked(s, clock, steps, step);
      } else {
        QuietAsked(s, Apply(cfg, s, step), clock, steps, step);
      }
    case _ => QuietAsked(s, Apply(cfg, s, step), clock, steps, step);
  }

  lemma NothingAsked(clock: int)
    ensures Asked(Initial(clock), clock, [])
  {
  }

  lemma {:induction false} RunAsked(cfg: Config, s: State, clock: int, before: seq<Step>, steps: seq<Step>)
    requires Inv(cfg, s) && Asked(s, clock, before) && LegalRun(cfg, s, steps)
    ensures Asked(Run(cfg, s, steps), clock, before + steps)
    decreases |steps|
  {
    hide Inv, Asked, Apply, Legal;
    if steps == [] {
      assert before + steps == before;
    } else {
      StepKeeps(cfg, s, steps[0]);
      StepAsked(cfg, s, clock, before, steps[0]);
      RunAsked(cfg, Apply(cfg, s, steps[0]), clock, before + [steps[0]], steps[1..]);
      assert before + [steps[0]] + steps[1..] == before + steps;
    }
  }

  // ---- Theorems --------------------------------------------------------------------------------

  /**
   In every run, a tenant has an endpoint exactly if one of its upserts had a url and a secret, and the
   endpoint's url, secret and switch are those of the last such upsert.
   */
  lemma EndpointIsLastUpsert(cfg: Config, clock: int, steps: seq<Step>, t: Uuid)
    requires LegalRun(cfg, Initial(clock), steps)
    ensures
      var endpoints, last := Run(cfg, Initial(clock), steps).endpoints, LastUpsert(steps, t);
      && (t in endpoints <==> last.Some?)
      && (t in endpoints ==>
            && last.value.UpsertEndpoint?
            && endpoints[t].url == last.value.url && endpoints[t].secret == last.value.secret
            && (endpoints[t].isActive <==> AsksActive(last.value)))
  {
    hide Inv, LegalRun, Run, LastUpsert;
    InitialOk(cfg, clock);
    NothingAsked(clock);
    RunAsked(cfg, Initial(clock), clock, [], steps);
    assert [] + steps == steps;
    assert EndpointAsked(Run(cfg, Initial(clock), steps), steps, t);
  }

  /**
   In every run, there is an event for a key exactly if a message with the key came, and its tenant, type,
   payload and time of creation are those of the first such message.
   */
  lemma EventIsFirstMessage(cfg: Config, clock: int, steps: seq<Step>)
    requires LegalRun(cfg, Initial(clock), steps)
    ensures
      var events := Run(cfg, Initial(clock), steps).events;
      && (forall key :: HasKey(events, key) <==> FirstMessage(clock, steps, key).Some?)
      && (forall e :: e in events ==>
            var row, first := events[e], FirstMessage(clock, steps, events[e].key);
            && first.Some? && first.value.0.Ingest?
            && row.tenantId == first.value.0.tenantId && row.eventType == first.value.0.eventType
            && row.payload == first.value.0.payload && row.createdAt == first.value.1)
  {
    hide Inv, LegalRun, Run, FirstMessage;
    InitialOk(cfg, clock);
    NothingAsked(clock);
    RunAsked(cfg, Initial(clock), clock, [], steps);
    assert [] + steps == steps;
    var s := Run(cfg, Initial(clock), steps);
    forall e | e in s.events ensures EventAsked(s, clock, steps, e) {
    }
  }

  /** The breaker holds the tenant back: its last requests failed often enough, and recently enough. */
  predicate HeldBack(cfg: Config, h: History, t: Uuid, now: int) {
    && Trailing(h, t) >= cfg.threshold
    && LastSettled(h, t, false).Some? && LastSettled(h, t, false).value + cfg.openMs > now
  }

  lemma BreakerRead(cfg: Config, s: State, t: Uuid, now: int)
    requires Inv(cfg, s)
    ensures t in s.endpoints ==> (Blocked(s.endpoints[t], now) <==> HeldBack(cfg, s.history, t, now))
  {
    assert t in s.endpoints ==> CircuitMatches(cfg, s.history, t, s.endpoints[t]);
  }

  /**
   What becomes of the row a worker turns to depends on the requests and the history alone. It is set aside
   for good if and only if the tenant's last accepted upsert is missing or switched the endpoint off; a request
   goes out if and only if that upsert left it on and the breaker does not hold the tenant back; and otherwise
   the row is deferred.
   */
  lemma ClaimDecides(cfg: Config, clock: int, steps: seq<Step>, step: Step)
    requires LegalRun(cfg, Initial(clock), steps) && step.op.Claim?
    requires Legal(Run(cfg, Initial(clock), steps), step)
    ensures
      var s := Run(cfg, Initial(clock), steps);
      var s', ticket := Apply(cfg, s, step), s.worker.queue[0];
      var last, now := LastUpsert(steps, ticket.row.tenantId), s.clock + step.wait;
      var on := last.Some? && last.value.UpsertEndpoint? && AsksActive(last.value);
      var heldBack := HeldBack(cfg, s.history, ticket.row.tenantId, now);
      && (!on <==> s'.history == After(s.history, SetAside(ticket.eventId, now, false)))
      && (on && heldBack <==> s'.history == After(s.history, SetAside(ticket.eventId, now, true)))
      && (on && !heldBack <==> s'.worker.Draining? && s'.worker.flight.Some?)
      && (on && !heldBack ==> s'.worker.flight.value.ticket == ticket && s'.worker.flight.value.sentAt == now
                              && s'.history == s.history)
  {
    var s := Run(cfg, Initial(clock), steps);
    var t := s.worker.queue[0].row.tenantId;
    EndpointIsLastUpsert(cfg, clock, steps, t);
    InitialOk(cfg, clock);
    RunKeeps(cfg, Initial(clock), steps);
    BreakerRead(cfg, s, t, s.clock + step.wait);
    hide Inv, LegalRun, Run, LastUpsert, HeldBack, Blocked;
  }

  /**
   The history records what the steps did, and nothing else: a settled request with its outcome, a successful
   requeue, and a row set aside.
   */
  lemma HistoryRecordsSteps(cfg: Config, s: State, step: Step)
    requires Legal(s, step)
    ensures
      var h, now := Apply(cfg, s, step).history, s.clock + step.wait;
      && (step.op.Ingest? || step.op.UpsertEndpoint? || step.op.BeginTick? ==> h == s.history)
      && (step.op.Requeue? ==>
            h == if step.op.deadLetterId in s.deadLetters
                    && s.deadLetters[step.op.deadLetterId].tenantId == step.op.tenantId
                 then After(s.history, Requeued(step.op.deadLetterId, now)) else s.history)
      && (step.op.Settle? ==>
            var f := s.worker.flight.value;
            h == After(s.history, Sent(f.ticket.eventId, f.ticket.row.tenantId, f.sentAt, now, step.op.outcome.Ok?,
                                       if step.op.outcome.Ok? then "" else step.op.outcome.message)))
      && (step.op.Claim? ==>
            h == s.history || (h.After? && h.past == s.history && h.last.SetAside? && h.last.at == now
                               && h.last.eventId == s.worker.queue[0].eventId))
  {
    hide IsBatch, Buried;
  }
}
