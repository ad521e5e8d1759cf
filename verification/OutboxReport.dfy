/** The dead-letter summary, and what its numbers say about events. */
module OutboxReport {
  import opened Prelude
  import opened Outbox
  import opened OutboxTheorems

  datatype DlqSummary = DlqSummary(windowHours: int, totals: nat, requeued: nat, open: int, oldestOpen: Option<Uuid>)

  /** The window: a day unless the caller names one, at least an hour and at most thirty days. */
  function WindowHours(hours: Option<int>): (h: int)
    ensures hours.None? ==> h == 24
    ensures hours.Some? && hours.value < 1 ==> h == 1
    ensures hours.Some? && hours.value > 720 ==> h == 720
    ensures hours.Some? && 1 <= hours.value <= 720 ==> h == hours.value
  {
    Min(24 * 30, Max(1, hours.GetOr(24)))
  }

  function InWindow(s: State, hours: Option<int>): set<Uuid> {
    set d | d in s.deadLetters && s.deadLetters[d].createdAt >= s.clock - WindowHours(hours) * 60 * 60 * 1000
  }

  function RequeuedAmong(s: State, rows: set<Uuid>): set<Uuid> {
    set d | d in rows && d in s.deadLetters && s.deadLetters[d].requeuedAt.Some?
  }

  /** `oldest` is an answer the database may give: a dead letter never requeued, none created before it. */
  ghost predicate IsOldestOpen(s: State, oldest: Option<Uuid>) {
    match oldest
    case None => forall d :: d in s.deadLetters ==> s.deadLetters[d].requeuedAt.Some?
    case Some(d) =>
      && d in s.deadLetters && s.deadLetters[d].requeuedAt.None?
      && forall d' :: d' in s.deadLetters && s.deadLetters[d'].requeuedAt.None? ==>
           s.deadLetters[d].createdAt <= s.deadLetters[d'].createdAt
  }

  function Summarize(s: State, hours: Option<int>, oldest: Option<Uuid>): DlqSummary {
    var rows := InWindow(s, hours);
    var requeued := RequeuedAmong(s, rows);
    DlqSummary(WindowHours(hours), |rows|, |requeued|, |rows| - |requeued|, oldest)
  }

  /** The events that are FAILED and were never requeued. */
  ghost function Stuck(s: State): set<Uuid> {
    set e | e in s.events && s.events[e].status.Failed? && Requeues(s.history, e) == 0
  }

  lemma WindowSpelledOut(s: State, hours: Option<int>)
    ensures InWindow(s, hours)
         == set d | d in s.deadLetters && s.deadLetters[d].createdAt >= s.clock - WindowHours(hours) * 3_600_000
  {
  }

  lemma InWindowRows(s: State, hours: Option<int>)
    ensures InWindow(s, hours) <= s.deadLetters.Keys
  {
  }

  lemma StuckIsOpen(cfg: Config, s: State)
    requires Reachable(cfg, s)
    ensures forall e :: e in Stuck(s) <==> e in s.deadLetters && s.deadLetters[e].requeuedAt.None?
  {
    hide Reachable;
    forall e ensures e in Stuck(s) <==> e in s.deadLetters && s.deadLetters[e].requeuedAt.None? {
      DeadLettersMirrorFailures(cfg, s, e);
    }
  }

  /**
   The difference the summary reports as open counts exactly the events of the window that failed for good
   and that nobody requeued; and a summary without an oldest open letter means there is no such event at all.
   */
  lemma OpenCountsStuckEvents(cfg: Config, s: State, hours: Option<int>, oldest: Option<Uuid>)
    requires Reachable(cfg, s) && IsOldestOpen(s, oldest)
    ensures
      var sum := Summarize(s, hours, oldest);
      var since := s.clock - sum.windowHours * 3_600_000;
      && sum.totals == |set d | d in s.deadLetters && s.deadLetters[d].createdAt >= since|
      && sum.open == sum.totals - sum.requeued
      && sum.open == |set e | e in Stuck(s) && e in s.deadLetters && s.deadLetters[e].createdAt >= since|
    ensures oldest.None? <==> Stuck(s) == {}
    ensures oldest.Some? ==> oldest.value in Stuck(s)
  {
    hide Reachable, Stuck, InWindow;
    var rows := InWindow(s, hours);
    var requeued := RequeuedAmong(s, rows);
    StuckIsOpen(cfg, s);
    assert rows - requeued == Stuck(s) * rows by {
      InWindowRows(s, hours);
    }
    assert rows == (rows - requeued) + requeued;
    WindowSpelledOut(s, hours);
    assert Stuck(s) * rows == set e | e in Stuck(s) && e in s.deadLetters
                                      && s.deadLetters[e].createdAt >= s.clock - WindowHours(hours) * 3_600_000;
  }
}
