/**
 The webhook service over its tables, method by method. Each method is proved to take exactly the steps of
 the outbox machine; what the machine guarantees over runs therefore holds of it.
 */
module OutboxService {
  import opened Prelude
  import opened Backoff
  import opened Outbox
  import opened OutboxInvariant
  import opened OutboxBacklog

  /** What surrounds the handling of one batch row: other callers, delays, jitter and the HTTP outcome. */
  datatype Slot = Slot(
    before: seq<Step>, claimWait: nat, deferJitter: Jitter,
    during: seq<Step>, settleWait: nat, outcome: Outcome, retryJitter: Jitter)

  ghost predicate OnlyEnvironment(steps: seq<Step>) {
    forall i :: 0 <= i < |steps| ==> IsEnvironment(steps[i].op)
  }

  ghost predicate WellFormed(slot: Slot) {
    OnlyEnvironment(slot.before) && OnlyEnvironment(slot.during)
  }

  // ---- The trace a tick must produce -----------------------------------------------------------

  ghost function Claiming(slot: Slot): Step {
    Step(slot.claimWait, Claim(slot.deferJitter))
  }

  ghost function Settling(slot: Slot): Step {
    Step(slot.settleWait, Settle(slot.outcome, slot.retryJitter))
  }

  /** Run, but stopping where a step is not legal. */
  ghost function Forward(cfg: Config, s: State, steps: seq<Step>): State
    decreases |steps|
  {
    if steps == [] || !Legal(s, steps[0]) then s else Forward(cfg, Apply(cfg, s, steps[0]), steps[1..])
  }

  lemma {:induction false} ForwardIsRun(cfg: Config, s: State, steps: seq<Step>)
    requires LegalRun(cfg, s, steps)
    ensures Forward(cfg, s, steps) == Run(cfg, s, steps)
    decreases |steps|
  {
    if steps == [] {
    } else {
      ForwardIsRun(cfg, Apply(cfg, s, steps[0]), steps[1..]);
    }
  }

  /** One row: whoever comes first, the claim, and if it led to a request, its settlement. */
  ghost function RowTrace(cfg: Config, s: State, slot: Slot): seq<Step> {
    var claimed := slot.before + [Claiming(slot)];
    var w := Forward(cfg, s, claimed).worker;
    if w.Draining? && w.flight.Some? then claimed + slot.during + [Settling(slot)] else claimed
  }

  /** The rest of a tick: one row after the other until the batch is used up. */
  ghost function TickTrace(cfg: Config, s: State, slots: seq<Slot>): seq<Step>
    decreases |slots|
  {
    if s.worker.Idle? || slots == [] then []
    else
      var row := RowTrace(cfg, s, slots[0]);
      row + TickTrace(cfg, Forward(cfg, s, row), slots[1..])
  }

  lemma TickTraceUnfolds(cfg: Config, s: State, slots: seq<Slot>, i: nat, row: seq<Step>)
    requires s.worker.Draining? && i < |slots| && row == RowTrace(cfg, s, slots[i])
    ensures TickTrace(cfg, s, slots[i..]) == row + TickTrace(cfg, Forward(cfg, s, row), slots[i + 1..])
  {
    assert slots[i..][0] == slots[i] && slots[i..][1..] == slots[i + 1..];
  }

  lemma TickTraceEnds(cfg: Config, s: State, slots: seq<Slot>)
    requires s.worker.Idle?
    ensures TickTrace(cfg, s, slots) == []
  {
  }

  lemma {:induction false} TicksAdd(a: seq<Step>, b: seq<Step>)
    ensures Ticks(a + b) == Ticks(a) + Ticks(b)
  {
    if a == [] {
      assert a + b == b;
    } else {
      assert (a + b)[1..] == a[1..] + b;
      TicksAdd(a[1..], b);
    }
  }

  lemma {:induction false} EnvironmentNeverTicks(steps: seq<Step>)
    requires OnlyEnvironment(steps)
    ensures Ticks(steps) == 0
  {
    if steps == [] {
    } else {
      EnvironmentNeverTicks(steps[1..]);
    }
  }

  /** The service's trace is one whole tick, so what a tick does to a backlog holds of every cron run. */
  lemma {:induction false} OneTickOnly(cfg: Config, s: State, slots: seq<Slot>)
    requires forall i :: 0 <= i < |slots| ==> WellFormed(slots[i])
    ensures Ticks(TickTrace(cfg, s, slots)) == 0
    decreases |slots|
  {
    if s.worker.Idle? || slots == [] {
    } else {
      var slot := slots[0];
      assert WellFormed(slot);
      EnvironmentNeverTicks(slot.before);
      EnvironmentNeverTicks(slot.during);
      TicksAdd(slot.before, [Claiming(slot)]);
      TicksAdd(slot.before + [Claiming(slot)], slot.during);
      TicksAdd(slot.before + [Claiming(slot)] + slot.during, [Settling(slot)]);
      var row := RowTrace(cfg, s, slot);
      TicksAdd(row, TickTrace(cfg, Forward(cfg, s, row), slots[1..]));
      OneTickOnly(cfg, Forward(cfg, s, row), slots[1..]);
    }
  }

  lemma ClockAfter(cfg: Config, s: State, step: Step)
    requires Legal(s, step)
    ensures Apply(cfg, s, step).clock == s.clock + step.wait
  {
  }

  /** From a moment after the cutoff on, everything happens after it. */
  lemma {:induction false} TimeOnlyAdvances(cfg: Config, s: State, steps: seq<Step>, cutoff: int)
    requires LegalRun(cfg, s, steps) && cutoff < s.clock
    ensures RunAfterCutoff(cfg, s, steps, cutoff)
    decreases |steps|
  {
    if steps == [] {
    } else {
      ClockAfter(cfg, s, steps[0]);
      hide Apply, Legal;
      TimeOnlyAdvances(cfg, Apply(cfg, s, steps[0]), steps[1..], cutoff);
    }
  }

  /** A cron run is a whole tick for every cutoff before it, and takes its share of every such backlog. */
  lemma CronRunIsWholeTick(cfg: Config, s: State, begin: Step, slots: seq<Slot>, trace: seq<Step>, cutoff: int)
    requires Inv(cfg, s) && begin.op.BeginTick? && Legal(s, begin) && cutoff < s.clock + begin.wait
    requires forall i :: 0 <= i < |slots| ==> WellFormed(slots[i])
    requires trace == [begin] + TickTrace(cfg, Apply(cfg, s, begin), slots)
    requires LegalRun(cfg, s, trace) && Run(cfg, s, trace).worker.Idle?
    ensures IsWholeTick(cfg, s, trace, cutoff)
    ensures |Backlog(Run(cfg, s, trace), cutoff)|
              <= |Backlog(s, cutoff)| - Min(BATCH, |Backlog(s, cutoff)|)
  {
    ClockAfter(cfg, s, begin);
    hide Inv, Apply, Legal, Backlog, TickTrace;
    var rest := TickTrace(cfg, Apply(cfg, s, begin), slots);
    assert trace[1..] == rest;
    TimeOnlyAdvances(cfg, Apply(cfg, s, begin), rest, cutoff);
    OneTickOnly(cfg, Apply(cfg, s, begin), slots);
    WholeTickLeaves(cfg, s, trace, cutoff);
    SubsetCardinality(Backlog(Run(cfg, s, trace), cutoff), Backlog(s, cutoff) - Elements(begin.op.batch));
  }

  // ---- Selecting the batch -----------------------------------------------------------------------

  /** The first due row outside `taken`, if there is one. */
  method FirstDue(events: map<Uuid, Event>, now: int, taken: seq<Uuid>) returns (first: Option<Uuid>)
    ensures first.Some? ==>
      && first.value in events && Due(events[first.value], now) && first.value !in taken
      && forall e :: e in events && Due(events[e], now) && e !in taken ==> Before(events[first.value], events[e])
    ensures first.None? ==> forall e :: e in events && Due(events[e], now) ==> e in taken
  {
    first := None;
    var rest := events.Keys;
    while rest != {}
      invariant rest <= events.Keys
      invariant first.Some? ==>
        && first.value in events && Due(events[first.value], now) && first.value !in taken
        && forall e :: e in events && e !in rest && Due(events[e], now) && e !in taken ==>
             Before(events[first.value], events[e])
      invariant first.None? ==> forall e :: e in events && e !in rest && Due(events[e], now) ==> e in taken
      decreases rest
    {
      var e :| e in rest;
      rest := rest - {e};
      if Due(events[e], now) && e !in taken
         && (first.None? || Before(events[e], events[first.value])) {
        first := Some(e);
      }
    }
  }

  /** The worker's query: the first fifty due rows. */
  method FindBatch(events: map<Uuid, Event>, now: int) returns (batch: seq<Uuid>)
    ensures IsBatch(events, now, batch)
  {
    batch := [];
    var more := true;
    while more && |batch| < BATCH
      invariant Distinct(batch) && |batch| <= BATCH
      invariant forall i :: 0 <= i < |batch| ==> batch[i] in events && Due(events[batch[i]], now)
      invariant forall i, j :: 0 <= i < j < |batch| ==> Before(events[batch[i]], events[batch[j]])
      invariant forall e :: e in events && Due(events[e], now) && e !in batch ==>
        more && forall i :: 0 <= i < |batch| ==> Before(events[batch[i]], events[e])
      decreases if more then BATCH - |batch| + 1 else 0
    {
      var first := FirstDue(events, now, batch);
      if first.Some? {
        batch := batch + [first.value];
      } else {
        more := false;
      }
    }
  }

  // ---- The service -------------------------------------------------------------------------------

  class AnalyticsWebhookService {
    const cfg: Config
    var clock: int
    var nextId: Uuid
    var events: map<Uuid, Event>
    var endpoints: map<Uuid, Endpoint>
    var deadLetters: map<Uuid, DeadLetter>
    ghost var worker: Worker
    ghost var history: History

    ghost function Contents(): State
      reads this
    {
      State(clock, nextId, events, endpoints, deadLetters, worker, history)
    }

    ghost predicate Valid()
      reads this
    {
      Inv(cfg, Contents())
    }

    constructor (cfg: Config, clock: int)
      ensures this.cfg == cfg && Contents() == Initial(clock) && Valid()
    {
      this.cfg, this.clock, nextId := cfg, clock, 0;
      events, endpoints, deadLetters := map[], map[], map[];
      worker, history := Idle, Start;
    }

    method AppendEvent(wait: nat, tenantId: Uuid, eventType: string, key: string, payload: string)
      returns (id: Uuid)
      requires Valid()
      modifies this
      ensures Legal(old(Contents()), Step(wait, Ingest(tenantId, eventType, key, payload)))
      ensures Contents() == Apply(cfg, old(Contents()), Step(wait, Ingest(tenantId, eventType, key, payload)))
      ensures Valid() && id in events && events[id].key == key && worker == old(worker)
    {
      hide Inv, IsBatch;
      ghost var before := Contents();
      clock := clock + wait;
      if e :| e in events && events[e].key == key {
        id := e;
      } else {
        id := nextId;
        events := events[id := Event(tenantId, eventType, key, payload, clock,
                                     Pending, 0, clock, None, None, None)];
        nextId := nextId + 1;
      }
      StepKeeps(cfg, before, Step(wait, Ingest(tenantId, eventType, key, payload)));
    }

    method UpsertWebhookEndpoint(wait: nat, tenantId: Uuid, url: string, secret: string, isActive: Option<bool>)
      returns (ok: bool)
      requires Valid()
      modifies this
      ensures Legal(old(Contents()), Step(wait, UpsertEndpoint(tenantId, url, secret, isActive)))
      ensures Contents() == Apply(cfg, old(Contents()), Step(wait, UpsertEndpoint(tenantId, url, secret, isActive)))
      ensures Valid() && (ok <==> url != "" && secret != "") && worker == old(worker)
    {
      StepKeeps(cfg, Contents(), Step(wait, UpsertEndpoint(tenantId, url, secret, isActive)));
      hide Inv, IsBatch;
      clock := clock + wait;
      ok := url != "" && secret != "";
      if ok {
        var row := Endpoint(url, secret, isActive.GetOr(true), 0, None, None, None);
        if tenantId in endpoints {
          row := endpoints[tenantId].(url := url, secret := secret, isActive := isActive.GetOr(true));
        }
        endpoints := endpoints[tenantId := row];
      }
    }

    method RequeueDeadLetter(wait: nat, tenantId: Uuid, id: Uuid) returns (ok: bool)
      requires Valid()
      modifies this
      ensures Legal(old(Contents()), Step(wait, Requeue(tenantId, id)))
      ensures Contents() == Apply(cfg, old(Contents()), Step(wait, Requeue(tenantId, id)))
      ensures Valid() && (ok <==> CanRequeue(old(Contents()), tenantId, id)) && worker == old(worker)
    {
      RequeueKeeps(cfg, Contents(), Requeue(tenantId, id));
      StepKeeps(cfg, Contents(), Step(wait, Requeue(tenantId, id)));
      hide Inv, IsBatch;
      clock := clock + wait;
      ok := id in deadLetters && deadLetters[id].tenantId == tenantId;
      if ok {
        events := events[id := events[id].(status := Pending, nextAttemptAt := clock, lastError := None)];
        deadLetters := deadLetters[id := deadLetters[id].(requeuedAt := Some(clock))];
        history := After(history, Requeued(id, clock));
      }
    }

    /** Other callers' requests, in the order they arrive. */
    method Interleave(steps: seq<Step>)
      requires Valid() && OnlyEnvironment(steps)
      modifies this
      ensures Valid() && worker == old(worker)
      ensures LegalRun(cfg, old(Contents()), steps) && Contents() == Run(cfg, old(Contents()), steps)
    {
      hide Inv, Apply, Legal;
      ghost var start := Contents();
      for i := 0 to |steps|
        invariant Valid() && worker == old(worker)
        invariant LegalRun(cfg, start, steps[..i]) && Contents() == Run(cfg, start, steps[..i])
      {
        ghost var here := Contents();
        match steps[i].op {
        case Ingest(t, kind, key, payload) => var _ := AppendEvent(steps[i].wait, t, kind, key, payload);
        case UpsertEndpoint(t, url, secret, active) =>
          var _ := UpsertWebhookEndpoint(steps[i].wait, t, url, secret, active);
        case Requeue(t, id) => var _ := RequeueDeadLetter(steps[i].wait, t, id);
        }
        assert steps[..i + 1] == steps[..i] + [steps[i]];
        assert Legal(here, steps[i]) && Contents() == Apply(cfg, here, steps[i]);
        RunExtend(cfg, start, steps[..i], steps[i]);
      }
      assert steps[..|steps|] == steps;
    }
  
    /** Looks at a row's endpoint: skips the row, defers it, or sends the request. */
    method Examine(ticket: Ticket, jitter: Jitter) returns (flight: Option<Flight>)
      requires worker.Draining? && worker.flight.None? && worker.queue != [] && worker.queue[0] == ticket
      requires ticket.eventId in events
      modifies this
      ensures Contents() == ClaimAt(old(Contents()), jitter)
      ensures worker == if flight.Some? then Draining(old(worker.tickAt), old(worker.queue[1..]), flight)
                        else Resume(old(worker.tickAt), old(worker.queue[1..]))
    {
      hide BackoffMs;
      ghost var rest := worker.queue[1..];
      ghost var entry: Entry;
      flight := None;
      var id, t := ticket.eventId, ticket.row.tenantId;
      if t !in endpoints || !endpoints[t].isActive {
        entry := SetAside(id, clock, false);
        events := events[id := events[id].(
          status := Skipped, lastAttemptAt := Some(clock), lastError := Some(NoActiveEndpoint))];
      } else if endpoints[t].openUntil.Some? && endpoints[t].openUntil.value > clock {
        var until := endpoints[t].openUntil.value;
        entry := SetAside(id, clock, true);
        events := events[id := events[id].(
          nextAttemptAt := until + BackoffMs(0, jitter), lastAttemptAt := Some(clock),
          lastError := Some(CircuitOpen(until)))];
      } else {
        flight := Some(Flight(ticket, endpoints[t].failures, clock));
      }
      if flight.Some? {
        worker := Draining(worker.tickAt, rest, flight);
      } else {
        worker := Resume(worker.tickAt, rest);
        history := After(history, entry);
      }
    }

    method ClaimRow(wait: nat, ticket: Ticket, jitter: Jitter) returns (flight: Option<Flight>)
      requires Valid() && worker.Draining? && worker.flight.None?
      requires worker.queue != [] && worker.queue[0] == ticket
      modifies this
      ensures Legal(old(Contents()), Step(wait, Claim(jitter)))
      ensures Contents() == Apply(cfg, old(Contents()), Step(wait, Claim(jitter))) && Valid()
      ensures flight.Some? <==> worker.Draining? && worker.flight.Some?
      ensures worker == if flight.Some? then Draining(old(worker.tickAt), old(worker.queue[1..]), flight)
                        else Resume(old(worker.tickAt), old(worker.queue[1..]))
    {
      hide Inv;
      WorkerRowsExist(cfg, Contents());
      StepKeeps(cfg, Contents(), Step(wait, Claim(jitter)));
      clock := clock + wait;
      flight := Examine(ticket, jitter);
    }

    /** A 2xx answer: the event is delivered and the circuit closed. */
    method RecordSuccess(flight: Flight, ghost jitter: Jitter)
      requires worker.Draining? && worker.flight == Some(flight)
      requires flight.ticket.eventId in events && flight.ticket.row.tenantId in endpoints
      modifies this
      ensures Contents() == SettleAt(cfg, old(Contents()), Ok, jitter)
    {
      var id, t := flight.ticket.eventId, flight.ticket.row.tenantId;
      events := events[id := events[id].(
        status := Delivered, deliveredAt := Some(clock), lastAttemptAt := Some(clock),
        attempts := flight.ticket.row.attempts + 1, lastError := None)];
      endpoints := endpoints[t := endpoints[t].(failures := 0, openUntil := None, lastSuccessAt := Some(clock))];
      history := After(history, Sent(id, t, flight.sentAt, clock, true, ""));
      worker := Resume(worker.tickAt, worker.queue);
    }

    /** Any other answer, or none: schedule a retry or bury the event, and count the failure. */
    method RecordFailure(flight: Flight, outcome: Outcome, jitter: Jitter)
      requires worker.Draining? && worker.flight == Some(flight) && !outcome.Ok?
      requires flight.ticket.eventId in events && flight.ticket.row.tenantId in endpoints
      modifies this
      ensures Contents() == SettleAt(cfg, old(Contents()), outcome, jitter)
    {
      hide BackoffMs, Buried, Message;
      var id, t := flight.ticket.eventId, flight.ticket.row.tenantId;
      var attempt := flight.ticket.row.attempts + 1;
      var next := clock + BackoffMs(attempt, jitter);
      var failures := flight.failures + 1;
      var openUntil := endpoints[t].openUntil;
      if failures >= cfg.threshold {
        openUntil := Some(clock + cfg.openMs);
      }
      var status := Pending;
      if attempt >= LAST_ATTEMPT {
        status := Failed;
        deadLetters := Buried(deadLetters, flight.ticket, Message(outcome), clock);
      }
      events := events[id := events[id].(
        attempts := attempt, lastAttemptAt := Some(clock), nextAttemptAt := next,
        lastError := Some(DeliveryError(Message(outcome))), status := status)];
      endpoints := endpoints[t := endpoints[t].(
        failures := failures, lastFailureAt := Some(clock), openUntil := openUntil)];
      history := After(history, Sent(id, t, flight.sentAt, clock, false, Message(outcome)));
      worker := Resume(worker.tickAt, worker.queue);
    }

    /** Writes down how a request ended, in all three tables at once. */
    method SettleRow(wait: nat, flight: Flight, outcome: Outcome, jitter: Jitter)
      requires Valid() && worker.Draining? && worker.flight == Some(flight)
      modifies this
      ensures Legal(old(Contents()), Step(wait, Settle(outcome, jitter)))
      ensures Contents() == Apply(cfg, old(Contents()), Step(wait, Settle(outcome, jitter))) && Valid()
      ensures worker == Resume(old(worker.tickAt), old(worker.queue))
    {
      hide Inv;
      WorkerRowsExist(cfg, Contents());
      StepKeeps(cfg, Contents(), Step(wait, Settle(outcome, jitter)));
      clock := clock + wait;
      if outcome.Ok? {
        RecordSuccess(flight, jitter);
      } else {
        RecordFailure(flight, outcome, jitter);
      }
    }

    /** One row of the batch, with whatever else happens around it. */
    method HandleRow(ticket: Ticket, slot: Slot) returns (ghost trace: seq<Step>)
      requires Valid() && WellFormed(slot)
      requires worker.Draining? && worker.flight.None? && worker.queue != [] && worker.queue[0] == ticket
      modifies this
      ensures Valid() && worker == Resume(old(worker.tickAt), old(worker.queue[1..]))
      ensures trace == RowTrace(cfg, old(Contents()), slot)
      ensures LegalRun(cfg, old(Contents()), trace) && Contents() == Run(cfg, old(Contents()), trace)
    {
      ghost var start := Contents();
      Interleave(slot.before);
      var flight := ClaimRow(slot.claimWait, ticket, slot.deferJitter);
      RunExtend(cfg, start, slot.before, Claiming(slot));
      trace := slot.before + [Claiming(slot)];
      ForwardIsRun(cfg, start, trace);
      if flight.Some? {
        ghost var claimed := Contents();
        Interleave(slot.during);
        RunSplit(cfg, start, trace, slot.during);
        trace := trace + slot.during;
        SettleRow(slot.settleWait, flight.value, slot.outcome, slot.retryJitter);
        RunExtend(cfg, start, trace, Settling(slot));
        trace := trace + [Settling(slot)];
      }
    }
  
    /** Reads the clock and the batch. */
    method ReadBatch(wait: nat) returns (batch: seq<Uuid>, queue: seq<Ticket>)
      requires Valid() && worker.Idle?
      modifies this
      ensures Valid() && Legal(old(Contents()), Step(wait, BeginTick(batch)))
      ensures Contents() == Apply(cfg, old(Contents()), Step(wait, BeginTick(batch)))
      ensures |queue| <= BATCH && worker == Resume(clock, queue)
    {
      hide Inv;
      ghost var before := Contents();
      clock := clock + wait;
      batch := FindBatch(events, clock);
      queue := Tickets(events, batch);
      worker := Resume(clock, queue);
      StepKeeps(cfg, before, Step(wait, BeginTick(batch)));
    }

    /**
     The cron job: read a batch, then handle its rows one after the other. Every slot's interruptions,
     delays and outcome end up in the trace, in order, and the tick always comes to its end.
     */
    method DeliverPendingWebhooks(wait: nat, slots: seq<Slot>) returns (batch: seq<Uuid>, ghost trace: seq<Step>)
      requires Valid() && worker.Idle? && |slots| >= BATCH
      requires forall i :: 0 <= i < |slots| ==> WellFormed(slots[i])
      modifies this
      ensures Valid() && worker.Idle?
      ensures Legal(old(Contents()), Step(wait, BeginTick(batch)))
      ensures
        var begin := Step(wait, BeginTick(batch));
        trace == [begin] + TickTrace(cfg, Apply(cfg, old(Contents()), begin), slots)
      ensures LegalRun(cfg, old(Contents()), trace) && Contents() == Run(cfg, old(Contents()), trace)
      ensures forall cutoff :: cutoff < old(clock) + wait ==>
        |Backlog(Contents(), cutoff)|
          <= |Backlog(old(Contents()), cutoff)| - Min(BATCH, |Backlog(old(Contents()), cutoff)|)
    {
      hide Inv, Apply, Legal, Backlog, LegalRun, Run, TickTrace, RowTrace, WellFormed;
      ghost var start := Contents();
      var queue: seq<Ticket>;
      batch, queue := ReadBatch(wait);
      ghost var begin := Step(wait, BeginTick(batch));
      ghost var begun := Contents();
      RunOne(cfg, start, begin);
      trace := [begin];
      for i := 0 to |queue|
        invariant Valid() && worker == Resume(begun.clock, queue[i..])
        invariant LegalRun(cfg, start, trace) && Contents() == Run(cfg, start, trace)
        invariant [begin] + TickTrace(cfg, begun, slots) == trace + TickTrace(cfg, Contents(), slots[i..])
      {
        ghost var here := Contents();
        var row := HandleRow(queue[i], slots[i]);
        TickTraceUnfolds(cfg, here, slots, i, row);
        ForwardIsRun(cfg, here, row);
        RunSplit(cfg, start, trace, row);
        trace := trace + row;
        assert queue[i..][1..] == queue[i + 1..];
      }
      TickTraceEnds(cfg, Contents(), slots[|queue|..]);
      forall cutoff | cutoff < start.clock + wait
        ensures |Backlog(Contents(), cutoff)| <= |Backlog(start, cutoff)| - Min(BATCH, |Backlog(start, cutoff)|)
      {
        CronRunIsWholeTick(cfg, start, begin, slots, trace, cutoff);
      }
    }
  }
}
