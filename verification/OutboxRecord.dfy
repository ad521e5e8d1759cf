/** The rows of the outbox are its history read back: what happened to an event last decides its columns. */
module OutboxRecord {
  import opened Prelude
  import opened Backoff
  import opened Outbox
  import opened OutboxInvariant
  import opened OutboxTheorems

  // ---- Reading a history -----------------------------------------------------------------------

  /** What happened to an event last. */
  function LastEntry(h: History, e: Uuid): Option<Entry> {
    match h
    case Start => None
    case After(p, x) => if x.eventId == e then Some(x) else LastEntry(p, e)
  }

  /** The request failed, and it was the tenth or a later one of its event. */
  predicate Buries(p: History, x: Entry) {
    x.Sent? && !x.ok && Sends(p, x.eventId) + 1 >= 10
  }

  function FirstBurial(h: History, e: Uuid): Option<Entry> {
    match h
    case Start => None
    case After(p, x) =>
      if FirstBurial(p, e).Some? then FirstBurial(p, e)
      else if x.eventId == e && Buries(p, x) then Some(x)
      else None
  }

  function LastBurial(h: History, e: Uuid): Option<Entry> {
    match h
    case Start => None
    case After(p, x) => if x.eventId == e && Buries(p, x) then Some(x) else LastBurial(p, e)
  }

  function LastRequeue(h: History, e: Uuid): Option<int> {
    match h
    case Start => None
    case After(p, x) => if x.eventId == e && x.Requeued? then Some(x.at) else LastRequeue(p, e)
  }

  /** The columns of an event after what happened last; `p` is the history before that. */
  ghost predicate Reads(cfg: Config, p: History, x: Entry, row: Event) {
    match x
    case Sent(e, _, _, settledAt, true, _) => row.status == Delivered && row.lastError == None
    case Sent(e, _, _, settledAt, false, message) =>
      var n := Sends(p, e) + 1;
      && row.status == (if n >= 10 then Failed else Pending)
      && row.lastError == Some(DeliveryError(message))
      && 4 * Nominal(n) <= 5 * (row.nextAttemptAt - settledAt) <= 6 * Nominal(n)
    case SetAside(_, _, false) => row.status == Skipped && row.lastError == Some(NoActiveEndpoint)
    case SetAside(_, at, true) =>
      && row.status == Pending
      && LastSettled(p, row.tenantId, false).Some?
      && var until := LastSettled(p, row.tenantId, false).value + cfg.openMs;
        && until > at && row.lastError == Some(CircuitOpen(until))
        && 24_000 <= row.nextAttemptAt - until <= 36_000
    case Requeued(_, at) => row.status == Pending && row.lastError == None && row.nextAttemptAt == at
  }

  /** The columns of an event that nothing has happened to yet. */
  predicate Untouched(row: Event) {
    row.status == Pending && row.lastError == None && row.nextAttemptAt == row.createdAt
  }

  ghost predicate RowReads(cfg: Config, h: History, e: Uuid, row: Event) {
    match h
    case Start => Untouched(row)
    case After(p, x) => if x.eventId == e then Reads(cfg, p, x, row) else RowReads(cfg, p, e, row)
  }

  /** A dead letter is the burials and requeues of its event. */
  predicate LetterReads(h: History, e: Uuid, dead: DeadLetter) {
    && FirstBurial(h, e).Some? && FirstBurial(h, e).value.Sent? && FirstBurial(h, e).value.settledAt == dead.createdAt
    && LastBurial(h, e).Some? && LastBurial(h, e).value.Sent? && LastBurial(h, e).value.settledAt == dead.failedAt
    && LastBurial(h, e).value.message == dead.reason
    && LastRequeue(h, e) == dead.requeuedAt
  }

  predicate NoLetter(h: History, e: Uuid) {
    FirstBurial(h, e) == LastBurial(h, e) == None
  }

  /** The event is in the hands of the current tick. */
  ghost predicate Held(w: Worker, e: Uuid) {
    && w.Draining?
    && (|| (exists i :: 0 <= i < |w.queue| && w.queue[i].eventId == e)
        || (w.flight.Some? && w.flight.value.ticket.eventId == e))
  }

  /** Unless it was requeued meanwhile, an event in the tick's hands was due when the tick began. */
  ghost predicate HeldDue(s: State, e: Uuid)
    requires e in s.events
  {
    Held(s.worker, e) && !(LastEntry(s.history, e).Some? && LastEntry(s.history, e).value.Requeued?) ==>
      s.events[e].nextAttemptAt <= s.worker.tickAt
  }

  /** A request keeps its distance from what happened to its event last. */
  ghost predicate KeepsDistance(p: History, x: Entry) {
    var last := LastEntry(p, x.eventId);
    x.Sent? && last.Some? ==>
      && (last.value.Sent? && !last.value.ok ==>
            5 * (x.sentAt - last.value.settledAt) >= 4 * Nominal(Sends(p, x.eventId)))
      && (last.value.SetAside? && last.value.deferred ==> x.sentAt >= last.value.at + 24_000)
  }

  ghost predicate AllKeepDistance(h: History) {
    match h
    case Start => true
    case After(p, x) => AllKeepDistance(p) && KeepsDistance(p, x)
  }

  ghost predicate Recorded(cfg: Config, s: State) {
    && (forall e :: e in s.events ==> RowReads(cfg, s.history, e, s.events[e]) && HeldDue(s, e))
    && (forall e :: e in s.deadLetters ==> LetterReads(s.history, e, s.deadLetters[e]))
    && (forall e :: e !in s.deadLetters ==> NoLetter(s.history, e))
    && (forall e :: e >= s.nextId ==> LastEntry(s.history, e).None?)
    && AllKeepDistance(s.history)
  }

  // ---- Facts on reading ------------------------------------------------------------------------

  lemma {:induction false} SilentReads(cfg: Config, h: History, e: Uuid, row: Event)
    requires LastEntry(h, e).None?
    ensures RowReads(cfg, h, e, row) <==> Untouched(row)
  {
    if h.Start? {
    } else {
      SilentReads(cfg, h.past, e, row);
    }
  }

  /** The last entry about an event, and the history it came after. */
  lemma {:induction false} ReadsLast(cfg: Config, h: History, e: Uuid, row: Event) returns (p: History)
    requires RowReads(cfg, h, e, row) && LastEntry(h, e).Some?
    ensures IsPast(After(p, LastEntry(h, e).value), h)
    ensures LastEntry(h, e).value.eventId == e && Reads(cfg, p, LastEntry(h, e).value, row)
    ensures Sends(h, e) == Sends(p, e) + if LastEntry(h, e).value.Sent? then 1 else 0
  {
    if h.last.eventId == e {
      p := h.past;
    } else {
      p := ReadsLast(cfg, h.past, e, row);
    }
  }

  // ---- One step --------------------------------------------------------------------------------

  lemma OtherLetter(h: History, x: Entry, e: Uuid, dead: DeadLetter)
    requires e != x.eventId
    ensures LetterReads(After(h, x), e, dead) <==> LetterReads(h, e, dead)
  {
  }

  lemma OtherNoLetter(h: History, x: Entry, e: Uuid)
    requires e != x.eventId
    ensures NoLetter(After(h, x), e) <==> NoLetter(h, e)
  {
  }

  /** An entry that is no burial and no requeue leaves a dead letter as it is. */
  lemma SameLetter(h: History, x: Entry, e: Uuid, dead: DeadLetter)
    requires !Buries(h, x) && !x.Requeued?
    ensures LetterReads(After(h, x), e, dead) <==> LetterReads(h, e, dead)
  {
  }

  lemma StillNoLetter(h: History, x: Entry, e: Uuid)
    requires !Buries(h, x) && !x.Requeued?
    ensures NoLetter(After(h, x), e) <==> NoLetter(h, e)
  {
  }

  /** A burial makes a dead letter or renews it. */
  lemma BurialLetter(h: History, x: Entry, e: Uuid, dead: Option<DeadLetter>, dead': DeadLetter)
    requires x.Sent? && x.eventId == e && Buries(h, x)
    requires dead.None? ==> NoLetter(h, e) && dead'.createdAt == x.settledAt && dead'.requeuedAt == LastRequeue(h, e)
    requires dead.Some? ==>
      LetterReads(h, e, dead.value) && dead'.createdAt == dead.value.createdAt
      && dead'.requeuedAt == dead.value.requeuedAt
    requires dead'.failedAt == x.settledAt && dead'.reason == x.message
    ensures LetterReads(After(h, x), e, dead')
  {
  }

  /** Something happens to one event, and its row and its dead letter say so. */
  lemma EntryRecords(cfg: Config, s: State, s': State, x: Entry)
    requires Recorded(cfg, s) && s'.history == After(s.history, x) && s'.nextId == s.nextId
    requires x.eventId in s.events && x.eventId < s.nextId && x.eventId in s'.events
    requires s'.events == s.events[x.eventId := s'.events[x.eventId]]
    requires Reads(cfg, s.history, x, s'.events[x.eventId]) && KeepsDistance(s.history, x)
    requires forall e :: e != x.eventId && Held(s'.worker, e) ==>
      Held(s.worker, e) && s'.worker.tickAt == s.worker.tickAt
    requires x.Requeued? || !Held(s'.worker, x.eventId)
    requires forall e :: e != x.eventId ==> (e in s'.deadLetters <==> e in s.deadLetters)
    requires forall e :: e != x.eventId && e in s.deadLetters ==> s'.deadLetters[e] == s.deadLetters[e]
    requires if x.eventId in s'.deadLetters then LetterReads(s'.history, x.eventId, s'.deadLetters[x.eventId])
             else NoLetter(s'.history, x.eventId)
    ensures Recorded(cfg, s')
  {
    hide Reads, Untouched, KeepsDistance, Held, LetterReads, NoLetter;
    forall e | e in s'.events ensures RowReads(cfg, s'.history, e, s'.events[e]) && HeldDue(s', e) {
      assert e in s.events;
    }
    forall e | e in s'.deadLetters ensures LetterReads(s'.history, e, s'.deadLetters[e]) {
      if e != x.eventId {
        OtherLetter(s.history, x, e, s'.deadLetters[e]);
      }
    }
    forall e | e !in s'.deadLetters ensures NoLetter(s'.history, e) {
      if e != x.eventId {
        OtherNoLetter(s.history, x, e);
      }
    }
    forall e | e >= s'.nextId ensures LastEntry(s'.history, e).None? {
      assert LastEntry(s.history, e).None?;
    }
  }

  lemma HeldKnown(cfg: Config, s: State)
    requires Inv(cfg, s)
    ensures forall e :: Held(s.worker, e) ==> e in s.events
  {
    if s.worker.Draining? {
      forall i | 0 <= i < |s.worker.queue| ensures s.worker.queue[i].eventId in s.events {
        assert TicketOk(s, s.worker.tickAt, s.worker.queue[i]);
      }
    }
  }

  lemma IngestRecords(cfg: Config, s: State, op: Op)
    requires Inv(cfg, s) && Recorded(cfg, s) && op.Ingest?
    ensures Recorded(cfg, IngestAt(s, op))
  {
    var s' := IngestAt(s, op);
    if !HasKey(s.events, op.key) {
      IdsKnown(s);
      HeldKnown(cfg, s);
      SilentReads(cfg, s.history, s.nextId, s'.events[s.nextId]);
      hide Inv, RowReads, LetterReads, Held, AllKeepDistance;
    }
  }

  lemma RequeuedLetter(h: History, e: Uuid, at: int, dead: DeadLetter)
    requires LetterReads(h, e, dead)
    ensures LetterReads(After(h, Requeued(e, at)), e, dead.(requeuedAt := Some(at)))
  {
  }

  lemma RequeueRecords(cfg: Config, s: State, op: Op)
    requires Inv(cfg, s) && Recorded(cfg, s) && op.Requeue?
    requires CanRequeue(s, op.tenantId, op.deadLetterId) ==> op.deadLetterId in s.events
    ensures Recorded(cfg, RequeueAt(s, op))
  {
    if CanRequeue(s, op.tenantId, op.deadLetterId) {
      var id := op.deadLetterId;
      assert DeadLetterOk(s, id);
      RowIdKnown(s, id);
      RequeuedLetter(s.history, id, s.clock, s.deadLetters[id]);
      hide Inv, Held, LetterReads, NoLetter, RowReads;
      EntryRecords(cfg, s, RequeueAt(s, op), Requeued(id, s.clock));
    }
  }

  lemma BeginRecords(cfg: Config, s: State, batch: seq<Uuid>)
    requires Recorded(cfg, s) && s.worker.Idle? && IsBatch(s.events, s.clock, batch)
    ensures Recorded(cfg, BeginAt(s, batch))
  {
    var s' := BeginAt(s, batch);
    forall e | e in s'.events ensures HeldDue(s', e) {
      if Held(s'.worker, e) {
        var i :| 0 <= i < |batch| && batch[i] == e;
      }
    }
  }

  /** The row at the head of the queue, and what the worker holds without it. */
  lemma HeadHeld(cfg: Config, s: State)
    requires Inv(cfg, s) && s.worker.Draining? && s.worker.flight.None? && s.worker.queue != []
    ensures
      var id, rest := s.worker.queue[0].eventId, s.worker.queue[1..];
      && id in s.events && id < s.nextId && s.events[id].status.Pending?
      && s.events[id].tenantId == s.worker.queue[0].row.tenantId
      && s.worker.tickAt <= s.clock && Held(s.worker, id)
      && !Held(Resume(s.worker.tickAt, rest), id)
      && forall e :: e != id && Held(Resume(s.worker.tickAt, rest), e) ==> Held(s.worker, e)
  {
    var id, rest := s.worker.queue[0].eventId, s.worker.queue[1..];
    assert TicketOk(s, s.worker.tickAt, s.worker.queue[0]);
    RowIdKnown(s, id);
    assert forall i :: 0 <= i < |rest| ==> rest[i] == s.worker.queue[i + 1];
    forall e | Held(Resume(s.worker.tickAt, rest), e) ensures Held(s.worker, e) {
      var i :| 0 <= i < |rest| && rest[i].eventId == e;
      assert s.worker.queue[i + 1].eventId == e;
    }
  }

  /** Taking off a request moves the head of the queue into flight. */
  lemma FlightHeld(s: State, flight: Flight)
    requires s.worker.Draining? && s.worker.flight.None? && s.worker.queue != []
    requires flight.ticket == s.worker.queue[0]
    ensures forall e ::
      Held(Draining(s.worker.tickAt, s.worker.queue[1..], Some(flight)), e) ==> Held(s.worker, e)
  {
    var rest := s.worker.queue[1..];
    forall e | Held(Draining(s.worker.tickAt, rest, Some(flight)), e) ensures Held(s.worker, e) {
      if i :| 0 <= i < |rest| && rest[i].eventId == e {
        assert s.worker.queue[i + 1].eventId == e;
      } else {
        assert s.worker.queue[0].eventId == e;
      }
    }
  }

  lemma StillRecorded(cfg: Config, s: State, s': State)
    requires Recorded(cfg, s) && s'.events == s.events && s'.deadLetters == s.deadLetters
    requires s'.history == s.history && s'.nextId == s.nextId
    requires forall e :: Held(s'.worker, e) ==> Held(s.worker, e) && s'.worker.tickAt == s.worker.tickAt
    ensures Recorded(cfg, s')
  {
    hide RowReads, LetterReads, NoLetter, Held, AllKeepDistance, LastEntry;
  }

  lemma SetAsideReads(cfg: Config, s: State, jitter: Jitter)
    requires Inv(cfg, s) && s.worker.Draining? && s.worker.flight.None? && s.worker.queue != []
    requires s.worker.queue[0].eventId in s.events && ClaimAt(s, jitter).history != s.history
    ensures
      var s', id := ClaimAt(s, jitter), s.worker.queue[0].eventId;
      Reads(cfg, s.history, s'.history.last, s'.events[id])
  {
    HeadHeld(cfg, s);
    var t := s.worker.queue[0].row.tenantId;
    assert t in s.endpoints ==> CircuitMatches(cfg, s.history, t, s.endpoints[t]);
    DelayNearNominal(0, jitter);
    NominalTable(0);
    hide Inv, Held, BackoffMs, Nominal;
  }

  lemma LetterHere(cfg: Config, s: State, e: Uuid)
    requires Recorded(cfg, s)
    ensures if e in s.deadLetters then LetterReads(s.history, e, s.deadLetters[e]) else NoLetter(s.history, e)
  {
    hide LetterReads, NoLetter;
  }

  lemma NoBurial(h: History, x: Entry)
    requires !x.Sent?
    ensures !Buries(h, x)
  {
  }

  lemma SetAsideShape(s: State, jitter: Jitter)
    requires s.worker.Draining? && s.worker.flight.None? && s.worker.queue != []
    requires s.worker.queue[0].eventId in s.events && ClaimAt(s, jitter).history != s.history
    ensures
      var s', id := ClaimAt(s, jitter), s.worker.queue[0].eventId;
      && s'.history.After? && s'.history.past == s.history && s'.history.last.SetAside?
      && s'.history.last.eventId == id && s'.nextId == s.nextId && s'.deadLetters == s.deadLetters
      && id in s'.events && s'.events == s.events[id := s'.events[id]]
      && s'.worker == Resume(s.worker.tickAt, s.worker.queue[1..])
  {
    hide BackoffMs;
  }

  lemma SetAsideRecords(cfg: Config, s: State, jitter: Jitter)
    requires Inv(cfg, s) && Recorded(cfg, s)
    requires s.worker.Draining? && s.worker.flight.None? && s.worker.queue != []
    requires s.worker.queue[0].eventId in s.events && ClaimAt(s, jitter).history != s.history
    ensures Recorded(cfg, ClaimAt(s, jitter))
  {
    HeadHeld(cfg, s);
    SetAsideReads(cfg, s, jitter);
    var id, s' := s.worker.queue[0].eventId, ClaimAt(s, jitter);
    var x := s'.history.last;
    LetterHere(cfg, s, id);
    SetAsideShape(s, jitter);
    hide Inv, Recorded, ClaimAt, Held, Reads, LetterReads, NoLetter, RowReads, Buries;
    assert !Buries(s.history, x) by {
      NoBurial(s.history, x);
    }
    if id in s.deadLetters {
      SameLetter(s.history, x, id, s.deadLetters[id]);
    } else {
      StillNoLetter(s.history, x, id);
    }
    EntryRecords(cfg, s, s', x);
  }

  lemma ClaimRecords(cfg: Config, s: State, jitter: Jitter)
    requires Inv(cfg, s) && Recorded(cfg, s)
    requires s.worker.Draining? && s.worker.flight.None? && s.worker.queue != []
    requires s.worker.queue[0].eventId in s.events
    ensures Recorded(cfg, ClaimAt(s, jitter))
  {
    var s' := ClaimAt(s, jitter);
    if s'.history == s.history {
      FlightHeld(s, s'.worker.flight.value);
      hide Inv, Recorded, Held, BackoffMs;
      StillRecorded(cfg, s, s');
    } else {
      hide Inv, Recorded, ClaimAt;
      SetAsideRecords(cfg, s, jitter);
    }
  }

  /** What is known of the event in flight. */
  lemma FlightKnown(cfg: Config, s: State)
    requires CanSettle(cfg, s) && Recorded(cfg, s)
    ensures
      var f := s.worker.flight.value;
      var id := f.ticket.eventId;
      && id < s.nextId && s.events[id].tenantId == f.ticket.row.tenantId
      && f.ticket.row.attempts == Sends(s.history, id)
      && RowReads(cfg, s.history, id, s.events[id])
      && f.sentAt >= s.worker.tickAt
      && !Held(Resume(s.worker.tickAt, s.worker.queue), id)
      && (forall e :: Held(Resume(s.worker.tickAt, s.worker.queue), e) ==> Held(s.worker, e))
      && (!(LastEntry(s.history, id).Some? && LastEntry(s.history, id).value.Requeued?) ==>
            s.events[id].nextAttemptAt <= s.worker.tickAt)
  {
    var f := s.worker.flight.value;
    assert TicketOk(s, s.worker.tickAt, f.ticket);
    assert RowOk(s, f.ticket.eventId);
    assert Held(s.worker, f.ticket.eventId);
  }

  lemma RequestKeepsDistance(cfg: Config, s: State, x: Entry)
    requires CanSettle(cfg, s) && Recorded(cfg, s)
    requires x.Sent? && x.eventId == s.worker.flight.value.ticket.eventId && x.sentAt == s.worker.flight.value.sentAt
    ensures KeepsDistance(s.history, x)
  {
    FlightKnown(cfg, s);
    hide Inv, Recorded, Held;
    if LastEntry(s.history, x.eventId).Some? {
      var p := ReadsLast(cfg, s.history, x.eventId, s.events[x.eventId]);
    }
  }

  /** An event without a dead letter was never requeued. */
  lemma {:induction false} NeverRequeued(h: History, e: Uuid)
    requires Requeues(h, e) == 0
    ensures LastRequeue(h, e).None?
  {
    if h.Start? {
    } else {
      NeverRequeued(h.past, e);
    }
  }

  lemma LetterKnown(cfg: Config, s: State)
    requires CanSettle(cfg, s) && Recorded(cfg, s)
    ensures
      var id := s.worker.flight.value.ticket.eventId;
      if id in s.deadLetters then LetterReads(s.history, id, s.deadLetters[id])
      else NoLetter(s.history, id) && LastRequeue(s.history, id).None?
  {
    var id := s.worker.flight.value.ticket.eventId;
    assert RowOk(s, id);
    if id !in s.deadLetters {
      NeverRequeued(s.history, id);
    }
  }

  lemma SettledLetter(cfg: Config, s: State, outcome: Outcome, jitter: Jitter)
    requires CanSettle(cfg, s) && Recorded(cfg, s)
    ensures
      var id, s' := s.worker.flight.value.ticket.eventId, SettleAt(cfg, s, outcome, jitter);
      if id in s'.deadLetters then LetterReads(s'.history, id, s'.deadLetters[id]) else NoLetter(s'.history, id)
  {
    FlightKnown(cfg, s);
    LetterKnown(cfg, s);
    hide Inv, Recorded, Held, BackoffMs, SettledEvent, SettledEndpoint, RowReads, LetterReads, NoLetter;
    var f, s' := s.worker.flight.value, SettleAt(cfg, s, outcome, jitter);
    var id, x := f.ticket.eventId, s'.history.last;
    if Buries(s.history, x) {
      BurialLetter(s.history, x, id, if id in s.deadLetters then Some(s.deadLetters[id]) else None, s'.deadLetters[id]);
    } else if id in s.deadLetters {
      SameLetter(s.history, x, id, s.deadLetters[id]);
    } else {
      StillNoLetter(s.history, x, id);
    }
  }

  lemma SettledReads(cfg: Config, s: State, outcome: Outcome, jitter: Jitter)
    requires CanSettle(cfg, s) && Recorded(cfg, s)
    ensures
      var id, s' := s.worker.flight.value.ticket.eventId, SettleAt(cfg, s, outcome, jitter);
      Reads(cfg, s.history, s'.history.last, s'.events[id])
  {
    FlightKnown(cfg, s);
    DelayNearNominal(s.worker.flight.value.ticket.row.attempts + 1, jitter);
    hide Inv, Recorded, Held, BackoffMs, SettledEndpoint, Buried, Nominal;
  }

  lemma SettleRecords(cfg: Config, s: State, outcome: Outcome, jitter: Jitter)
    requires CanSettle(cfg, s) && Recorded(cfg, s)
    ensures Recorded(cfg, SettleAt(cfg, s, outcome, jitter))
  {
    var s' := SettleAt(cfg, s, outcome, jitter);
    FlightKnown(cfg, s);
    RequestKeepsDistance(cfg, s, s'.history.last);
    SettledLetter(cfg, s, outcome, jitter);
    SettledReads(cfg, s, outcome, jitter);
    hide Inv, Recorded, Held, BackoffMs, SettledEvent, SettledEndpoint, Reads, KeepsDistance, LetterReads, NoLetter;
    EntryRecords(cfg, s, s', s'.history.last);
  }

  lemma QuietRecords(cfg: Config, s: State, op: Op, wait: nat)
    requires Recorded(cfg, s)
    ensures Recorded(cfg, Later(s, wait))
    ensures op.UpsertEndpoint? ==> Recorded(cfg, UpsertAt(s, op))
  {
    hide Held;
    StillRecorded(cfg, s, Later(s, wait));
    if op.UpsertEndpoint? {
      StillRecorded(cfg, s, UpsertAt(s, op));
    }
  }

  lemma StepRecords(cfg: Config, s: State, step: Step)
    requires Inv(cfg, s) && Recorded(cfg, s) && Legal(s, step)
    ensures Recorded(cfg, Apply(cfg, s, step))
  {
    TimePasses(cfg, s, step.wait);
    QuietRecords(cfg, s, step.op, step.wait);
    var now := Later(s, step.wait);
    QuietRecords(cfg, now, step.op, 0);
    hide Inv, Recorded, IsBatch;
    match step.op
    case Ingest(_, _, _, _) => IngestRecords(cfg, now, step.op);
    case UpsertEndpoint(_, _, _, _) =>
    case Requeue(_, _) => RequeueRecords(cfg, now, step.op);
    case BeginTick(batch) => BeginRecords(cfg, now, batch);
    case Claim(jitter) => ClaimRecords(cfg, now, jitter);
    case Settle(outcome, jitter) =>
      WorkerRowsExist(cfg, now);
      SettleRecords(cfg, now, outcome, jitter);
  }

  lemma {:induction false} RunRecords(cfg: Config, s: State, steps: seq<Step>)
    requires Inv(cfg, s) && Recorded(cfg, s) && LegalRun(cfg, s, steps)
    ensures Recorded(cfg, Run(cfg, s, steps))
    decreases |steps|
  {
    hide Inv, Recorded, Apply, Legal;
    if steps == [] {
    } else {
      StepKeeps(cfg, s, steps[0]);
      StepRecords(cfg, s, steps[0]);
      RunRecords(cfg, Apply(cfg, s, steps[0]), steps[1..]);
    }
  }

  lemma ReachableRecords(cfg: Config, s: State)
    requires Reachable(cfg, s)
    ensures Recorded(cfg, s)
  {
    var clock, steps :| LegalRun(cfg, Initial(clock), steps) && Run(cfg, Initial(clock), steps) == s;
    InitialOk(cfg, clock);
    RunRecords(cfg, Initial(clock), steps);
  }

  // ---- Theorems --------------------------------------------------------------------------------

  /**
   An event's status is what happened to it last: delivered after a request that succeeded, skipped after it
   was set aside for want of an active endpoint, failed after a failed request when ten or more were made, and
   pending in every other case.
   */
  lemma StatusIsHistory(cfg: Config, s: State, e: Uuid)
    requires Reachable(cfg, s) && e in s.events
    ensures
      var last, status := LastEntry(s.history, e), s.events[e].status;
      && (status.Delivered? <==> last.Some? && last.value.Sent? && last.value.ok)
      && (status.Skipped? <==> last.Some? && last.value.SetAside? && !last.value.deferred)
      && (status.Failed? <==> last.Some? && last.value.Sent? && !last.value.ok && Sends(s.history, e) >= 10)
      && (status.Pending? <==>
            || last.None? || last.value.Requeued? || (last.value.SetAside? && last.value.deferred)
            || (last.value.Sent? && !last.value.ok && Sends(s.history, e) < 10))
  {
    ReachableRecords(cfg, s);
    var row := s.events[e];
    assert RowReads(cfg, s.history, e, row);
    hide Recorded, Reachable, Nominal;
    if LastEntry(s.history, e).Some? {
      var p := ReadsLast(cfg, s.history, e, row);
    } else {
      SilentReads(cfg, s.history, e, row);
    }
  }

  /**
   So are its schedule and its note: due at once when new or requeued, a jittered backoff for its number of
   requests after a failed one, and about half a minute past the end of the circuit after a deferral.
   */
  lemma ScheduleIsHistory(cfg: Config, s: State, e: Uuid)
    requires Reachable(cfg, s) && e in s.events
    ensures
      var last, row, n := LastEntry(s.history, e), s.events[e], Sends(s.history, e);
      && (last.None? ==> row.nextAttemptAt == row.createdAt && row.lastError == None)
      && (last.Some? && last.value.Requeued? ==> row.nextAttemptAt == last.value.at && row.lastError == None)
      && (last.Some? && last.value.Sent? && last.value.ok ==> row.lastError == None)
      && (last.Some? && last.value.Sent? && !last.value.ok ==>
            && 4 * Nominal(n) <= 5 * (row.nextAttemptAt - last.value.settledAt) <= 6 * Nominal(n)
            && row.lastError == Some(DeliveryError(last.value.message)))
      && (last.Some? && last.value.SetAside? && !last.value.deferred ==> row.lastError == Some(NoActiveEndpoint))
      && (last.Some? && last.value.SetAside? && last.value.deferred ==>
            exists p, until ::
              && IsPast(After(p, last.value), s.history)
              && LastSettled(p, row.tenantId, false) == Some(until - cfg.openMs) && until > last.value.at
              && row.lastError == Some(CircuitOpen(until)) && 24_000 <= row.nextAttemptAt - until <= 36_000)
  {
    ReachableRecords(cfg, s);
    var row := s.events[e];
    assert RowReads(cfg, s.history, e, row);
    hide Recorded, Reachable, Nominal;
    if LastEntry(s.history, e).Some? {
      var x := LastEntry(s.history, e).value;
      var p := ReadsLast(cfg, s.history, e, row);
      if x.SetAside? && x.deferred {
        var until := LastSettled(p, row.tenantId, false).value + cfg.openMs;
        assert LastSettled(p, row.tenantId, false) == Some(until - cfg.openMs);
      }
    } else {
      SilentReads(cfg, s.history, e, row);
    }
  }

  /** A dead letter exists exactly from the first burial on, and its columns are the burials and requeues. */
  lemma DeadLetterIsHistory(cfg: Config, s: State, e: Uuid)
    requires Reachable(cfg, s)
    ensures e in s.deadLetters <==> FirstBurial(s.history, e).Some?
    ensures e in s.deadLetters ==> LetterReads(s.history, e, s.deadLetters[e])
  {
    ReachableRecords(cfg, s);
  }

  lemma {:induction false} PastKeepsDistance(h: History, p: History, x: Entry)
    requires AllKeepDistance(h) && IsPast(After(p, x), h)
    ensures KeepsDistance(p, x)
  {
    hide KeepsDistance;
    if h == After(p, x) {
    } else {
      PastKeepsDistance(h.past, p, x);
    }
  }

  /**
   No request comes early. In every run, a request follows the previous failed request of its event, unless the
   event was requeued in between, by at least four fifths of the backoff for the requests made so far, and a
   deferral by at least 24 seconds.
   */
  lemma RequestsKeepDistance(cfg: Config, s: State, p: History, x: Entry)
    requires Reachable(cfg, s) && IsPast(After(p, x), s.history)
    ensures KeepsDistance(p, x)
  {
    ReachableRecords(cfg, s);
    PastKeepsDistance(s.history, p, x);
  }
}
