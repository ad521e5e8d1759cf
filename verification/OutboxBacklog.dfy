/** No starvation: each tick takes its full batch off any backlog, whatever arrives meanwhile. */
module OutboxBacklog {
  import opened Prelude
  import opened Backoff
  import opened Outbox
  import opened OutboxInvariant
  import opened OutboxTheorems

  /** The events due at the cutoff. */
  ghost function Backlog(s: State, cutoff: int): set<Uuid> {
    set e | e in s.events && Due(s.events[e], cutoff)
  }

  /** The events the current tick has taken and not yet dealt with. */
  ghost function InHand(w: Worker): set<Uuid> {
    if w.Idle? then {}
    else (set i | 0 <= i < |w.queue| :: w.queue[i].eventId)
         + (if w.flight.Some? then {w.flight.value.ticket.eventId} else {})
  }

  /** The part of the backlog no tick has taken yet. */
  ghost function Unserved(s: State, cutoff: int): set<Uuid> {
    Backlog(s, cutoff) - InHand(s.worker)
  }

  /** The event this step sends to the back of the line. */
  ghost function Postponed(s: State, step: Step): set<Uuid> {
    if step.op.Requeue? && CanRequeue(s, step.op.tenantId, step.op.deadLetterId)
    then {step.op.deadLetterId} else {}
  }

  ghost function TakenBy(step: Step): set<Uuid> {
    if step.op.BeginTick? then Elements(step.op.batch) else {}
  }

  /** Arrivals come after the cutoff, and ticks start no earlier than it. */
  ghost predicate AfterCutoff(s: State, step: Step, cutoff: int) {
    var at := s.clock + step.wait;
    && (step.op.Ingest? || step.op.Requeue? ==> at > cutoff)
    && (step.op.BeginTick? ==> at >= cutoff)
  }

  ghost predicate RunAfterCutoff(cfg: Config, s: State, steps: seq<Step>, cutoff: int)
    requires LegalRun(cfg, s, steps)
    decreases |steps|
  {
    steps != [] ==>
      AfterCutoff(s, steps[0], cutoff) && RunAfterCutoff(cfg, Apply(cfg, s, steps[0]), steps[1..], cutoff)
  }

  /** A tick under way started no earlier than the cutoff. */
  ghost predicate Underway(s: State, cutoff: int) {
    s.worker.Draining? ==> s.worker.tickAt >= cutoff
  }

  // ---- One step ------------------------------------------------------------------------------

  lemma InHandOfBatch(s: State, batch: seq<Uuid>)
    requires forall i :: 0 <= i < |batch| ==> batch[i] in s.events
    ensures InHand(BeginAt(s, batch).worker) == Elements(batch)
  {
    var w := BeginAt(s, batch).worker;
    forall e ensures e in InHand(w) <==> e in batch {
      if e in batch {
        var i :| 0 <= i < |batch| && batch[i] == e;
        assert w.queue[i].eventId == e;
      }
    }
  }

  lemma RestInHand(w: Worker)
    requires w.Draining? && w.queue != []
    ensures InHand(w) == InHand(Draining(w.tickAt, w.queue[1..], w.flight)) + {w.queue[0].eventId}
    ensures w.flight.None? ==> InHand(Resume(w.tickAt, w.queue[1..]))
                               == InHand(Draining(w.tickAt, w.queue[1..], None))
  {
    var rest := w.queue[1..];
    forall e | e in InHand(w) && e != w.queue[0].eventId && (w.flight.None? || e != w.flight.value.ticket.eventId)
      ensures e in InHand(Draining(w.tickAt, rest, w.flight))
    {
      var i :| 0 <= i < |w.queue| && w.queue[i].eventId == e;
      assert rest[i - 1].eventId == e;
    }
    forall i | 0 <= i < |rest| ensures rest[i].eventId in InHand(w) {
      assert rest[i] == w.queue[i + 1];
    }
  }

  /** A worker's step only ever removes events from its hands, and never puts one back on the backlog. */
  lemma ClaimServes(cfg: Config, s: State, jitter: Jitter, cutoff: int)
    requires Inv(cfg, s) && s.worker.Draining? && s.worker.flight.None? && s.worker.queue != []
    requires s.worker.queue[0].eventId in s.events && s.worker.tickAt >= cutoff
    ensures Unserved(ClaimAt(s, jitter), cutoff) == Unserved(s, cutoff)
    ensures Underway(ClaimAt(s, jitter), cutoff)
  {
    var s', id := ClaimAt(s, jitter), s.worker.queue[0].eventId;
    DelayRange(0, jitter);
    RestInHand(s.worker);
    var rest := s.worker.queue[1..];
    if s'.history == s.history {
      assert InHand(s'.worker) == InHand(s.worker);
      assert Backlog(s', cutoff) == Backlog(s, cutoff);
    } else {
      assert !Due(s'.events[id], cutoff);
      assert id !in InHand(s'.worker);
      assert Backlog(s', cutoff) == Backlog(s, cutoff) - {id};
    }
  }

  lemma SettleServes(cfg: Config, s: State, outcome: Outcome, jitter: Jitter, cutoff: int)
    requires CanSettle(cfg, s) && s.worker.tickAt >= cutoff
    ensures Unserved(SettleAt(cfg, s, outcome, jitter), cutoff) == Unserved(s, cutoff)
    ensures Underway(SettleAt(cfg, s, outcome, jitter), cutoff)
  {
    var f := s.worker.flight.value;
    var s', id := SettleAt(cfg, s, outcome, jitter), f.ticket.eventId;
    DelayRange(f.ticket.row.attempts + 1, jitter);
    assert !Due(s'.events[id], cutoff);
    assert InHand(s.worker) == InHand(s'.worker) + {id};
    assert Backlog(s', cutoff) == Backlog(s, cutoff) - {id};
  }

  lemma IngestServes(s: State, op: Op, cutoff: int)
    requires op.Ingest? && EventsOk(s) && s.clock > cutoff
    ensures Unserved(IngestAt(s, op), cutoff) == Unserved(s, cutoff)
  {
    assert s.nextId in s.events ==> RowOk(s, s.nextId);
    assert Backlog(IngestAt(s, op), cutoff) == Backlog(s, cutoff);
  }

  lemma RequeueServes(s: State, step: Step, cutoff: int)
    requires step.op.Requeue? && s.clock > cutoff
    requires CanRequeue(s, step.op.tenantId, step.op.deadLetterId) ==> step.op.deadLetterId in s.events
    ensures Unserved(RequeueAt(s, step.op), cutoff) == Unserved(s, cutoff) - Postponed(s, step)
  {
    assert Backlog(RequeueAt(s, step.op), cutoff) == Backlog(s, cutoff) - Postponed(s, step);
  }

  lemma BeginServes(s: State, batch: seq<Uuid>, cutoff: int)
    requires s.worker.Idle? && forall i :: 0 <= i < |batch| ==> batch[i] in s.events
    ensures Unserved(BeginAt(s, batch), cutoff) == Unserved(s, cutoff) - Elements(batch)
  {
    InHandOfBatch(s, batch);
    assert Backlog(BeginAt(s, batch), cutoff) == Backlog(s, cutoff);
  }

  lemma TimeServes(s: State, wait: nat, cutoff: int)
    ensures Backlog(Later(s, wait), cutoff) == Backlog(s, cutoff)
    ensures Unserved(Later(s, wait), cutoff) == Unserved(s, cutoff)
  {
    assert Backlog(Later(s, wait), cutoff) == Backlog(s, cutoff);
  }

  /** Each step takes exactly the tick's batch and the requeued event off the unserved backlog. */
  lemma StepServes(cfg: Config, s: State, step: Step, cutoff: int)
    requires Inv(cfg, s) && Legal(s, step) && AfterCutoff(s, step, cutoff) && Underway(s, cutoff)
    ensures
      var s' := Apply(cfg, s, step);
      Unserved(s', cutoff) == Unserved(s, cutoff) - TakenBy(step) - Postponed(s, step)
    ensures Underway(Apply(cfg, s, step), cutoff)
  {
    TimePasses(cfg, s, step.wait);
    TimeServes(s, step.wait, cutoff);
    var now := Later(s, step.wait);
    match step.op
    case Ingest(_, _, _, _) => IngestServes(now, step.op, cutoff);
    case UpsertEndpoint(_, _, _, _) =>
      assert Backlog(UpsertAt(now, step.op), cutoff) == Backlog(now, cutoff);
    case Requeue(_, _) => RequeueServes(now, step, cutoff);
    case BeginTick(batch) => BeginServes(now, batch, cutoff);
    case Claim(jitter) => ClaimServes(cfg, now, jitter, cutoff);
    case Settle(outcome, jitter) => SettleServes(cfg, now, outcome, jitter, cutoff);
  }

  /** A batch read at or after the cutoff holds as much of the backlog as fits into it. */
  lemma BatchTakesBacklog(s: State, now: int, batch: seq<Uuid>, cutoff: int)
    requires IsBatch(s.events, now, batch) && cutoff <= now
    ensures |Backlog(s, cutoff) * Elements(batch)| == Min(BATCH, |Backlog(s, cutoff)|)
  {
    var backlog := Backlog(s, cutoff);
    DistinctCardinality(batch);
    if backlog <= Elements(batch) {
      assert backlog * Elements(batch) == backlog;
      SubsetCardinality(backlog, Elements(batch));
    } else {
      var left :| left in backlog && left !in Elements(batch);
      assert Due(s.events[left], now);
      forall i | 0 <= i < |batch| ensures batch[i] in backlog {
        assert Before(s.events[batch[i]], s.events[left]);
      }
      assert backlog * Elements(batch) == Elements(batch);
      SubsetCardinality(Elements(batch), backlog);
    }
  }

  /**
   The batch in plain terms: pending rows that are due, at most fifty, earliest first and among equals the
   older first; and every such row that was left out ranks behind all of the fifty that were taken.
   */
  lemma BatchSpelledOut(events: map<Uuid, Event>, now: int, batch: seq<Uuid>)
    requires IsBatch(events, now, batch)
    ensures |batch| <= 50
    ensures forall i :: 0 <= i < |batch| ==>
      batch[i] in events && events[batch[i]].status.Pending? && events[batch[i]].nextAttemptAt <= now
    ensures forall i, j :: 0 <= i < j < |batch| ==>
      var a, b := events[batch[i]], events[batch[j]];
      a.nextAttemptAt < b.nextAttemptAt || (a.nextAttemptAt == b.nextAttemptAt && a.createdAt <= b.createdAt)
    ensures forall e, i ::
      e in events && events[e].status.Pending? && events[e].nextAttemptAt <= now && e !in batch && 0 <= i < |batch| ==>
        var a, b := events[batch[i]], events[e];
        && |batch| == 50
        && (a.nextAttemptAt < b.nextAttemptAt || (a.nextAttemptAt == b.nextAttemptAt && a.createdAt <= b.createdAt))
    ensures batch == [] ==>
      forall e :: e in events && events[e].status.Pending? ==> events[e].nextAttemptAt > now
  {
  }

  lemma Remaining(all: set<Uuid>, gone: set<Uuid>)
    ensures |all - gone| == |all| - |all * gone|
  {
    assert all == (all - gone) + (all * gone);
  }

  lemma NothingInHand(s: State, cutoff: int)
    requires s.worker.Idle?
    ensures Unserved(s, cutoff) == Backlog(s, cutoff)
  {
  }

  /** A tick takes exactly min(50, n) of the n backlog events. */
  lemma TickTakesItsShare(s: State, batch: seq<Uuid>, cutoff: int)
    requires s.worker.Idle? && IsBatch(s.events, s.clock, batch) && cutoff <= s.clock
    ensures
      var n := |Backlog(s, cutoff)|;
      && Unserved(BeginAt(s, batch), cutoff) == Backlog(s, cutoff) - Elements(batch)
      && |Unserved(BeginAt(s, batch), cutoff)| == n - Min(BATCH, n)
  {
    BeginServes(s, batch, cutoff);
    assert Unserved(s, cutoff) == Backlog(s, cutoff);
    BatchTakesBacklog(s, s.clock, batch, cutoff);
    Remaining(Backlog(s, cutoff), Elements(batch));
  }

  /** The same for the step that begins the tick. */
  lemma TickStepTakesItsShare(cfg: Config, s: State, step: Step, cutoff: int)
    requires step.op.BeginTick? && Legal(s, step) && cutoff <= s.clock + step.wait
    ensures
      var s', n := Apply(cfg, s, step), |Backlog(s, cutoff)|;
      && Unserved(s, cutoff) == Backlog(s, cutoff)
      && Underway(s', cutoff)
      && Unserved(s', cutoff) == Backlog(s, cutoff) - Elements(step.op.batch)
      && |Unserved(s', cutoff)| == n - Min(BATCH, n)
  {
    hide IsBatch, Backlog, InHand, Unserved;
    TimeServes(s, step.wait, cutoff);
    NothingInHand(s, cutoff);
    TickTakesItsShare(Later(s, step.wait), step.op.batch, cutoff);
  }

  lemma StepShrinks(cfg: Config, s: State, step: Step, cutoff: int)
    requires Inv(cfg, s) && Legal(s, step) && AfterCutoff(s, step, cutoff) && Underway(s, cutoff)
    ensures Underway(Apply(cfg, s, step), cutoff)
    ensures |Unserved(Apply(cfg, s, step), cutoff)|
              <= Max(0, |Unserved(s, cutoff)| - if step.op.BeginTick? then BATCH else 0)
  {
    StepServes(cfg, s, step, cutoff);
    if step.op.BeginTick? {
      TickStepTakesItsShare(cfg, s, step, cutoff);
    } else {
      SubsetCardinality(Unserved(Apply(cfg, s, step), cutoff), Unserved(s, cutoff));
    }
  }

  // ---- Runs ----------------------------------------------------------------------------------

  function Ticks(steps: seq<Step>): nat {
    if steps == [] then 0 else (if steps[0].op.BeginTick? then 1 else 0) + Ticks(steps[1..])
  }

  lemma {:induction false} RunServes(cfg: Config, s: State, steps: seq<Step>, cutoff: int)
    requires Inv(cfg, s) && LegalRun(cfg, s, steps) && RunAfterCutoff(cfg, s, steps, cutoff)
    requires Underway(s, cutoff)
    ensures
      var s' := Run(cfg, s, steps);
      |Unserved(s', cutoff)| <= Max(0, |Unserved(s, cutoff)| - BATCH * Ticks(steps))
    decreases |steps|
  {
    hide Inv, Apply, Unserved, Legal;
    if steps == [] {
    } else {
      StepKeeps(cfg, s, steps[0]);
      StepShrinks(cfg, s, steps[0], cutoff);
      RunServes(cfg, Apply(cfg, s, steps[0]), steps[1..], cutoff);
    }
  }

  /**
   No starvation. Let n events be due at the cutoff while the worker is idle. However arrivals after the
   cutoff interleave, once ceil(n / 50) ticks have started, every one of them has been taken by a tick or
   was requeued, and when the worker is next idle none of them is due at the cutoff any more.
   */
  lemma BacklogDrains(cfg: Config, s: State, steps: seq<Step>, cutoff: int)
    requires Reachable(cfg, s) && s.worker.Idle?
    requires LegalRun(cfg, s, steps) && RunAfterCutoff(cfg, s, steps, cutoff)
    ensures
      var s', n := Run(cfg, s, steps), |Backlog(s, cutoff)|;
      && |Unserved(s', cutoff)| <= Max(0, n - 50 * Ticks(steps))
      && (Ticks(steps) >= (n + 49) / 50 ==> Backlog(s', cutoff) <= InHand(s'.worker))
      && (Ticks(steps) >= (n + 49) / 50 && s'.worker.Idle? ==> Backlog(s', cutoff) == {})
  {
    hide Inv, Apply, Legal, Backlog, InHand;
    ReachableOk(cfg, s);
    NothingInHand(s, cutoff);
    RunServes(cfg, s, steps, cutoff);
    var s' := Run(cfg, s, steps);
    if Ticks(steps) >= (|Backlog(s, cutoff)| + 49) / 50 {
      assert Unserved(s', cutoff) == {};
      forall e | e in Backlog(s', cutoff) ensures e in InHand(s'.worker) {
        assert e !in Unserved(s', cutoff);
      }
      if s'.worker.Idle? {
        NothingInHand(s', cutoff);
      }
    }
  }

  // ---- Exactly when a tick's count is exact --------------------------------------------------

  /** The events requeued during a run. */
  ghost function PostponedIn(cfg: Config, s: State, steps: seq<Step>): set<Uuid>
    requires LegalRun(cfg, s, steps)
    decreases |steps|
  {
    if steps == [] then {}
    else Postponed(s, steps[0]) + PostponedIn(cfg, Apply(cfg, s, steps[0]), steps[1..])
  }

  lemma {:induction false} RunWithoutTicks(cfg: Config, s: State, steps: seq<Step>, cutoff: int)
    requires Inv(cfg, s) && LegalRun(cfg, s, steps) && RunAfterCutoff(cfg, s, steps, cutoff)
    requires Underway(s, cutoff) && Ticks(steps) == 0
    ensures Unserved(Run(cfg, s, steps), cutoff) == Unserved(s, cutoff) - PostponedIn(cfg, s, steps)
    decreases |steps|
  {
    if steps == [] {
    } else {
      StepKeeps(cfg, s, steps[0]);
      StepServes(cfg, s, steps[0], cutoff);
      RunWithoutTicks(cfg, Apply(cfg, s, steps[0]), steps[1..], cutoff);
    }
  }

  ghost predicate IsWholeTick(cfg: Config, s: State, run: seq<Step>, cutoff: int) {
    && LegalRun(cfg, s, run) && RunAfterCutoff(cfg, s, run, cutoff)
    && run != [] && run[0].op.BeginTick? && Ticks(run[1..]) == 0
    && Run(cfg, s, run).worker.Idle?
  }

  /** What a whole tick leaves of the backlog. */
  lemma WholeTickLeaves(cfg: Config, s: State, run: seq<Step>, cutoff: int)
    requires Inv(cfg, s) && IsWholeTick(cfg, s, run, cutoff)
    ensures
      var left := Backlog(s, cutoff) - Elements(run[0].op.batch);
      && |left| == |Backlog(s, cutoff)| - Min(BATCH, |Backlog(s, cutoff)|)
      && Backlog(Run(cfg, s, run), cutoff) == left - PostponedIn(cfg, s, run)
  {
    hide Inv, Apply, Legal, Backlog, InHand, Unserved, IsBatch;
    TickStepTakesItsShare(cfg, s, run[0], cutoff);
    StepKeeps(cfg, s, run[0]);
    RunWithoutTicks(cfg, Apply(cfg, s, run[0]), run[1..], cutoff);
    NothingInHand(Run(cfg, s, run), cutoff);
  }

  /**
   A whole tick, from the reading of its batch until the worker is idle again, takes the n events of the
   backlog down by at least min(50, n). It is exactly min(50, n) if and only if no backlog event outside
   the batch is requeued meanwhile: a requeue moves a waiting event behind the cutoff without serving it.
   */
  lemma WholeTick(cfg: Config, s: State, run: seq<Step>, cutoff: int)
    requires Reachable(cfg, s) && IsWholeTick(cfg, s, run, cutoff)
    ensures
      var n, n' := |Backlog(s, cutoff)|, |Backlog(Run(cfg, s, run), cutoff)|;
      var bypassed := (Backlog(s, cutoff) - Elements(run[0].op.batch)) * PostponedIn(cfg, s, run);
      && n' <= n - Min(50, n)
      && (n' == n - Min(50, n) <==> bypassed == {})
  {
    ReachableOk(cfg, s);
    WholeTickLeaves(cfg, s, run, cutoff);
    Remaining(Backlog(s, cutoff) - Elements(run[0].op.batch), PostponedIn(cfg, s, run));
  }
}
