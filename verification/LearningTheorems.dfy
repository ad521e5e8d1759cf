/** The outbox's learning events and the history of the enrollments say the same thing. */
module LearningTheorems {
  import opened Prelude
  import opened CourseStore
  import opened LearningKeys
  import opened LearningEvents
  import O = Outbox
  import I = OutboxInvariant
  import Backoff

  // ---- What outbox traffic does to the rows ----------------------------------------------------

  predicate SameMessage(a: O.Event, b: O.Event) {
    a.tenantId == b.tenantId && a.eventType == b.eventType && a.key == b.key
  }

  predicate IsMessage(row: O.Event, op: O.Op) {
    op.Ingest? && row.tenantId == op.tenantId && row.eventType == op.eventType && row.key == op.key
  }

  /** Rows are never removed or renamed; a new one is the message that was ingested. */
  ghost predicate RowsGrow(before: map<Uuid, O.Event>, op: O.Op, after: map<Uuid, O.Event>) {
    && (forall e :: e in before ==> e in after && SameMessage(after[e], before[e]))
    && (forall e :: e in after && e !in before ==> IsMessage(after[e], op))
    && (op.Ingest? ==> O.HasKey(after, op.key))
  }

  lemma IngestRows(s: O.State, op: O.Op)
    requires I.EventsOk(s) && op.Ingest?
    ensures RowsGrow(s.events, op, O.IngestAt(s, op).events)
  {
    var after := O.IngestAt(s, op).events;
    assert s.nextId in s.events ==> I.RowOk(s, s.nextId);
    if !O.HasKey(s.events, op.key) {
      assert after[s.nextId].key == op.key;
    }
  }

  lemma OneRowChanges(before: map<Uuid, O.Event>, op: O.Op, id: Uuid, row: O.Event)
    requires id in before && SameMessage(row, before[id]) && !op.Ingest?
    ensures RowsGrow(before, op, before[id := row])
  {
  }

  lemma LaterRowsOk(s: O.State, wait: nat)
    requires I.EventsOk(s)
    ensures I.EventsOk(O.Later(s, wait))
  {
    forall e | e in s.events ensures I.RowOk(O.Later(s, wait), e) {
      assert I.RowOk(s, e);
    }
  }

  lemma SettledSame(row: O.Event, attempt: nat, outcome: O.Outcome, now: int, jitter: Backoff.Jitter)
    ensures SameMessage(O.SettledEvent(row, attempt, outcome, now, jitter), row)
  {
  }

  lemma NothingChanges(events: map<Uuid, O.Event>, op: O.Op)
    requires !op.Ingest?
    ensures RowsGrow(events, op, events)
  {
  }

  lemma StepRows(cfg: O.Config, s: O.State, step: O.Step)
    requires I.EventsOk(s) && O.Legal(s, step)
    ensures RowsGrow(s.events, step.op, O.Apply(cfg, s, step).events)
  {
    hide I.EventsOk, RowsGrow, O.IsBatch, O.IngestAt, O.SettledEvent, Backoff.BackoffMs;
    var now, after := O.Later(s, step.wait), O.Apply(cfg, s, step).events;
    match step.op
    case Ingest(_, _, _, _) =>
      LaterRowsOk(s, step.wait);
      IngestRows(now, step.op);
    case Requeue(t, id) =>
      if O.CanRequeue(s, t, id) {
        OneRowChanges(s.events, step.op, id, after[id]);
      } else {
        NothingChanges(s.events, step.op);
      }
    case Claim(_) =>
      var id := s.worker.queue[0].eventId;
      OneRowChanges(s.events, step.op, id, after[id]);
      NothingChanges(s.events, step.op);
    case Settle(outcome, jitter) =>
      var id := s.worker.flight.value.ticket.eventId;
      SettledSame(s.events[id], s.worker.flight.value.ticket.row.attempts + 1, outcome, now.clock, jitter);
      OneRowChanges(s.events, step.op, id, after[id]);
    case _ => NothingChanges(s.events, step.op);
  }

  lemma {:induction false} TrafficRows(cfg: O.Config, s: O.State, steps: seq<O.Step>)
    requires I.Inv(cfg, s) && O.LegalRun(cfg, s, steps)
    ensures I.Inv(cfg, O.Run(cfg, s, steps))
    ensures
      var after := O.Run(cfg, s, steps).events;
      && (forall e :: e in s.events ==> e in after && SameMessage(after[e], s.events[e]))
      && (forall e :: e in after && e !in s.events ==>
            exists i :: 0 <= i < |steps| && IsMessage(after[e], steps[i].op))
      && (forall i :: 0 <= i < |steps| && steps[i].op.Ingest? ==> O.HasKey(after, steps[i].op.key))
    decreases |steps|
  {
    hide I.EventsOk, I.DeadLettersOk, I.WorkerOk, I.EndpointsOk, I.HistoryOk, O.Legal, O.Apply;
    if steps == [] {
    } else {
      var next, rest := O.Apply(cfg, s, steps[0]), steps[1..];
      I.StepKeeps(cfg, s, steps[0]);
      StepRows(cfg, s, steps[0]);
      TrafficRows(cfg, next, rest);
      var after := O.Run(cfg, s, steps).events;
      forall e | e in after && e !in s.events
        ensures exists i :: 0 <= i < |steps| && IsMessage(after[e], steps[i].op)
      {
        if e in next.events {
          assert IsMessage(after[e], steps[0].op);
        } else {
          var i :| 0 <= i < |rest| && IsMessage(after[e], rest[i].op);
          assert IsMessage(after[e], steps[i + 1].op);
        }
      }
      forall i | 0 <= i < |steps| && steps[i].op.Ingest? ensures O.HasKey(after, steps[i].op.key) {
        if i == 0 {
          var e :| e in next.events && next.events[e].key == steps[0].op.key;
          assert after[e].key == steps[0].op.key;
        } else {
          assert rest[i - 1] == steps[i];
        }
      }
    }
  }

  // ---- The invariant of gateway and outbox -----------------------------------------------------

  /** The row is an event that some change was, stored for that change's tenant. */
  ghost predicate Witnessed(r: Rendering, changes: seq<Change>, row: O.Event, i: int, k: Key) {
    && 0 <= i < |changes| && Due(changes[i], k)
    && row.key == Text(r, k) && row.eventType == Kind(k) && row.tenantId == changes[i].after.tenantId
  }

  ghost predicate RowsWitnessed(
    r: Rendering, events: map<Uuid, O.Event>, changes: seq<Change>, arrived: set<string>)
  {
    forall e :: e in events ==> events[e].key in arrived && exists i, k :: Witnessed(r, changes, events[e], i, k)
  }

  ghost predicate ArrivalsStored(events: map<Uuid, O.Event>, arrived: set<string>) {
    forall key :: key in arrived ==> O.HasKey(events, key)
  }

  lemma StillWitnessed(
    r: Rendering, changes: seq<Change>, changes': seq<Change>, row: O.Event, row': O.Event, i: int, k: Key)
    requires Witnessed(r, changes, row, i, k) && changes <= changes' && SameMessage(row', row)
    ensures Witnessed(r, changes', row', i, k)
  {
  }

  lemma StillStored(events: map<Uuid, O.Event>, events': map<Uuid, O.Event>, key: string)
    requires O.HasKey(events, key)
    requires forall e :: e in events ==> e in events' && SameMessage(events'[e], events[e])
    ensures O.HasKey(events', key)
  {
    var e :| e in events && events[e].key == key;
    assert events'[e].key == key;
  }

  lemma NewRowWitnessed(r: Rendering, changes: seq<Change>, traffic: seq<O.Step>, row: O.Event)
    requires forall n :: 0 <= n < |traffic| ==> IsPost(r, changes, traffic[n].op)
    requires exists n :: 0 <= n < |traffic| && IsMessage(row, traffic[n].op)
    ensures row.key in Ingested(traffic)
    ensures exists i, k :: Witnessed(r, changes, row, i, k)
  {
    hide Due, Text, Kind;
    var n :| 0 <= n < |traffic| && IsMessage(row, traffic[n].op);
    assert IsPost(r, changes, traffic[n].op);
    var i, k :| 0 <= i < |changes| && Posted(r, changes[i], k, traffic[n].op);
    assert Witnessed(r, changes, row, i, k);
  }

  /** One action keeps the rows witnessed and the arrivals stored. */
  lemma ActionKeeps(
    r: Rendering, cfg: O.Config, s: O.State, traffic: seq<O.Step>,
    changes: seq<Change>, changes': seq<Change>, arrived: set<string>)
    requires I.Inv(cfg, s) && O.LegalRun(cfg, s, traffic) && changes <= changes'
    requires RowsWitnessed(r, s.events, changes, arrived) && ArrivalsStored(s.events, arrived)
    requires forall n :: 0 <= n < |traffic| ==> IsPost(r, changes', traffic[n].op)
    ensures
      var s', arrived' := O.Run(cfg, s, traffic), arrived + Ingested(traffic);
      I.Inv(cfg, s') && RowsWitnessed(r, s'.events, changes', arrived') && ArrivalsStored(s'.events, arrived')
  {
    hide I.Inv, Witnessed, O.HasKey, IsPost, O.LegalRun, O.Run;
    TrafficRows(cfg, s, traffic);
    var events', arrived' := O.Run(cfg, s, traffic).events, arrived + Ingested(traffic);
    forall e | e in events'
      ensures events'[e].key in arrived' && exists i, k :: Witnessed(r, changes', events'[e], i, k)
    {
      if e in s.events {
        var i, k :| Witnessed(r, changes, s.events[e], i, k);
        StillWitnessed(r, changes, changes', s.events[e], events'[e], i, k);
      } else {
        NewRowWitnessed(r, changes', traffic, events'[e]);
      }
    }
    forall key | key in arrived' ensures O.HasKey(events', key) {
      if key in arrived {
        StillStored(s.events, events', key);
      }
    }
  }

  lemma NothingArrived(r: Rendering, clock: int)
    ensures RowsWitnessed(r, Begin(clock).outbox.events, [], Arrived([]))
    ensures ArrivalsStored(Begin(clock).outbox.events, Arrived([]))
  {
  }

  lemma {:induction false} RunWitnessed(r: Rendering, cfg: O.Config, clock: int, actions: seq<Action>)
    requires AllowedRun(r, cfg, Begin(clock), actions)
    ensures
      var s, changes := OutboxAfter(r, cfg, Begin(clock), actions), Changes(EMPTY, actions);
      && I.Inv(cfg, s)
      && RowsWitnessed(r, s.events, changes, Arrived(actions)) && ArrivalsStored(s.events, Arrived(actions))
    decreases |actions|
  {
    hide I.Inv, Gateway, RowsWitnessed, ArrivalsStored, Ingested, IsPost;
    if actions == [] {
      I.InitialOk(cfg, clock);
      NothingArrived(r, clock);
    } else {
      var front, a := actions[..|actions| - 1], actions[|actions| - 1];
      RunWitnessed(r, cfg, clock, front);
      ActionKeeps(r, cfg, OutboxAfter(r, cfg, Begin(clock), front), a.traffic,
                  Changes(EMPTY, front), Changes(EMPTY, actions), Arrived(front));
    }
  }

  // ---- Theorems --------------------------------------------------------------------------------

  /**
   An event is in the outbox exactly when some update in the run was that event and a message of it arrived,
   however late, in whatever order and how often messages arrive, and whatever the worker does meanwhile.
   */
  lemma StoredExactlyWhenItHappened(r: Rendering, cfg: O.Config, clock: int, actions: seq<Action>, k: Key)
    requires Faithful(r) && AllowedRun(r, cfg, Begin(clock), actions)
    ensures
      var changes := Changes(EMPTY, actions);
      O.HasKey(OutboxAfter(r, cfg, Begin(clock), actions).events, Text(r, k))
      <==> Text(r, k) in Arrived(actions) && exists i :: 0 <= i < |changes| && Due(changes[i], k)
  {
    hide I.Inv, Due, Text, Arrived, Changes, OutboxAfter, AllowedRun;
    RunWitnessed(r, cfg, clock, actions);
    var events := OutboxAfter(r, cfg, Begin(clock), actions).events;
    if O.HasKey(events, Text(r, k)) {
      var e :| e in events && events[e].key == Text(r, k);
      var i, j :| Witnessed(r, Changes(EMPTY, actions), events[e], i, j);
      KeysInjective(r, j, k);
    }
  }

  /** Every row is one event of one enrollment of its tenant, and no other row is the same event. */
  lemma RowsAreEvents(r: Rendering, cfg: O.Config, clock: int, actions: seq<Action>)
    requires Faithful(r) && AllowedRun(r, cfg, Begin(clock), actions)
    ensures
      var events, changes := OutboxAfter(r, cfg, Begin(clock), actions).events, Changes(EMPTY, actions);
      forall e :: e in events ==>
        && (exists i, k :: Witnessed(r, changes, events[e], i, k))
        && (forall i, k, i', k' ::
              Witnessed(r, changes, events[e], i, k) && Witnessed(r, changes, events[e], i', k') ==> k == k')
        && (forall e' :: e' in events && events[e'].key == events[e].key ==> e' == e)
  {
    hide Due, Text, Kind, Arrived, Changes, OutboxAfter, AllowedRun;
    RunWitnessed(r, cfg, clock, actions);
    var events, changes := OutboxAfter(r, cfg, Begin(clock), actions).events, Changes(EMPTY, actions);
    forall e, i, k, i', k' |
      e in events && Witnessed(r, changes, events[e], i, k) && Witnessed(r, changes, events[e], i', k')
      ensures k == k'
    {
      KeysInjective(r, k, k');
    }
  }

  /** No message is lost for good. */
  ghost predicate NothingLost(r: Rendering, changes: seq<Change>, arrived: set<string>) {
    forall i, k :: 0 <= i < |changes| && Due(changes[i], k) ==> Text(r, k) in arrived
  }

  /** The lesson.completed events are exactly the values the number of completed lessons was raised to. */
  lemma LessonsCompletedAreRaises(r: Rendering, cfg: O.Config, clock: int, actions: seq<Action>, e: Uuid, n: nat)
    requires Faithful(r) && AllowedRun(r, cfg, Begin(clock), actions)
    ensures
      var events, changes := OutboxAfter(r, cfg, Begin(clock), actions).events, Changes(EMPTY, actions);
      NothingLost(r, changes, Arrived(actions)) ==>
        (O.HasKey(events, Text(r, LessonCompleted(e, n)))
         <==> exists i :: 0 <= i < |changes| && changes[i].id == e
                && changes[i].before.lessons < changes[i].after.lessons == n)
  {
    hide Text, Arrived, Changes, OutboxAfter, AllowedRun;
    StoredExactlyWhenItHappened(r, cfg, clock, actions, LessonCompleted(e, n));
  }

  /** The lesson.started events are the updates that touched the enrollment or raised a number, with both numbers. */
  lemma LessonsStartedAreActivity(
    r: Rendering, cfg: O.Config, clock: int, actions: seq<Action>, e: Uuid, n: nat, progress: nat, touched: bool)
    requires Faithful(r) && AllowedRun(r, cfg, Begin(clock), actions)
    ensures
      var events, changes := OutboxAfter(r, cfg, Begin(clock), actions).events, Changes(EMPTY, actions);
      NothingLost(r, changes, Arrived(actions)) ==>
        (O.HasKey(events, Text(r, LessonStarted(e, n, progress, touched)))
         <==> exists i :: 0 <= i < |changes| && changes[i].id == e && changes[i].touched == touched
                && changes[i].after.lessons == n && changes[i].after.progress == progress
                && (touched || progress > changes[i].before.progress || n > changes[i].before.lessons))
  {
    hide Text, Arrived, Changes, OutboxAfter, AllowedRun;
    StoredExactlyWhenItHappened(r, cfg, clock, actions, LessonStarted(e, n, progress, touched));
  }

  /** Completions and certificates pair up: one of each for every time at which an enrollment was completed. */
  lemma CertificatesPairWithCompletions(
    r: Rendering, cfg: O.Config, clock: int, actions: seq<Action>, e: Uuid, at: int)
    requires Faithful(r) && AllowedRun(r, cfg, Begin(clock), actions)
    ensures
      var events, changes := OutboxAfter(r, cfg, Begin(clock), actions).events, Changes(EMPTY, actions);
      NothingLost(r, changes, Arrived(actions)) ==>
        && (O.HasKey(events, Text(r, CourseCompleted(e, at)))
            <==> exists i :: 0 <= i < |changes| && changes[i].id == e
                   && changes[i].before.completedAt.None? && changes[i].after.completedAt == Some(at))
        && (O.HasKey(events, Text(r, CertificationEarned(e, at)))
            <==> O.HasKey(events, Text(r, CourseCompleted(e, at))))
  {
    hide Text, Arrived, Changes, OutboxAfter, AllowedRun;
    StoredExactlyWhenItHappened(r, cfg, clock, actions, CourseCompleted(e, at));
    StoredExactlyWhenItHappened(r, cfg, clock, actions, CertificationEarned(e, at));
  }

  /** The row is that of the enrollment's completion by this change. */
  ghost predicate CompletionRow(r: Rendering, c: Change, row: O.Event) {
    c.after.completedAt.Some? && row.key == Text(r, CourseCompleted(c.id, c.after.completedAt.value))
  }

  /** Two completions of an enrollment are one row if and only if they happened at the same millisecond. */
  lemma CompletionsShareRow(r: Rendering, cfg: O.Config, clock: int, actions: seq<Action>, i: nat, j: nat)
    requires Faithful(r) && AllowedRun(r, cfg, Begin(clock), actions)
    ensures
      var events, changes := OutboxAfter(r, cfg, Begin(clock), actions).events, Changes(EMPTY, actions);
      i < |changes| && j < |changes| && changes[i].id == changes[j].id ==>
        forall a, b | a in events && b in events
                      && CompletionRow(r, changes[i], events[a]) && CompletionRow(r, changes[j], events[b]) ::
          (a == b <==> changes[i].after.completedAt == changes[j].after.completedAt)
  {
    hide Text, Arrived, Changes, OutboxAfter, AllowedRun, Witnessed;
    RowsAreEvents(r, cfg, clock, actions);
    var events, changes := OutboxAfter(r, cfg, Begin(clock), actions).events, Changes(EMPTY, actions);
    forall a | a in events && i < |changes| && j < |changes|
      && CompletionRow(r, changes[i], events[a]) && CompletionRow(r, changes[j], events[a])
      ensures changes[i].after.completedAt == changes[j].after.completedAt
    {
      KeysInjective(r, CourseCompleted(changes[i].id, changes[i].after.completedAt.value),
                    CourseCompleted(changes[j].id, changes[j].after.completedAt.value));
    }
  }
}
