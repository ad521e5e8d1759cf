/** An enrollment completed twice within a millisecond: both messages arrive, and the outbox has one row. */
module LearningSameTime {
  import opened Prelude
  import opened SeatPolicy
  import opened Catalog
  import opened CourseStore
  import opened LearningKeys
  import opened LearningEvents
  import O = Outbox

  // ---- Three updates of one enrollment, all at time zero ---------------------------------------

  function Row(completedAt: Option<int>, lastAccessedAt: Option<int>): Enrollment {
    Enrollment(7, 1, 9, 0, 0, completedAt, lastAccessedAt)
  }

  function Enrolled(row: Enrollment): State {
    State(map[1 := Course(7, "course")], map[], map[2 := row])
  }

  function Completing(done: bool): Request {
    Request(7, UpdateEnrollment(2, Actor(Learner, 9), Patch(None, None, Some(done), false), 0))
  }

  lemma EnrollFirst()
    ensures Apply(EMPTY, Request(7, CreateCourse(1, "course", FREE))).state.courses == map[1 := Course(7, "course")]
    ensures
      var s := Apply(EMPTY, Request(7, CreateCourse(1, "course", FREE))).state;
      Apply(s, Request(7, CreateEnrollment(2, 1, 9))).state == Enrolled(Row(None, None))
  {
    assert CoursesOf(EMPTY, 7) == map[];
  }

  lemma UpdateOnce(done: bool, completedAt: Option<int>, lastAccessedAt: Option<int>)
    ensures
      var row, row' := Row(completedAt, lastAccessedAt), Row(if done then Some(0) else None, Some(0));
      && Gateway(Enrolled(row), Completing(done)).result.state == Enrolled(row')
      && Gateway(Enrolled(row), Completing(done)).change == Some(Change(2, row, row', false, 9))
  {
    hide CoursesBehind;
  }

  // ---- The run ---------------------------------------------------------------------------------

  function CompletionKey(): Key { CourseCompleted(2, 0) }

  function CompletionPost(r: Rendering): O.Step {
    O.Step(0, O.Ingest(7, "course.completed", Text(r, CompletionKey()), ""))
  }

  /** Extends a run by one action. */
  lemma Extend(r: Rendering, cfg: O.Config, front: seq<Action>, a: Action)
    requires AllowedRun(r, cfg, Begin(0), front) && Fresh(StoreAfter(EMPTY, front), a.request.op)
    requires O.LegalRun(cfg, OutboxAfter(r, cfg, Begin(0), front), a.traffic)
    requires
      var change := Gateway(StoreAfter(EMPTY, front), a.request).change;
      var changes := Changes(EMPTY, front) + if change.None? then [] else [change.value];
      forall i :: 0 <= i < |a.traffic| ==> IsPost(r, changes, a.traffic[i].op)
    ensures
      var change := Gateway(StoreAfter(EMPTY, front), a.request).change;
      && AllowedRun(r, cfg, Begin(0), front + [a])
      && StoreAfter(EMPTY, front + [a]) == Gateway(StoreAfter(EMPTY, front), a.request).result.state
      && Changes(EMPTY, front + [a]) == Changes(EMPTY, front) + (if change.None? then [] else [change.value])
      && OutboxAfter(r, cfg, Begin(0), front + [a])
         == O.Run(cfg, OutboxAfter(r, cfg, Begin(0), front), a.traffic)
      && Arrived(front + [a]) == Arrived(front) + Ingested(a.traffic)
  {
    hide Gateway, Fresh, IsPost, O.LegalRun, O.Run;
    assert (front + [a])[..|front|] == front;
  }

  /** The message of the completion arrives: it makes the one row, or finds it. */
  lemma PostArrives(r: Rendering, cfg: O.Config, s: O.State)
    requires s.events == map[] || (s.events.Keys == {0} && s.events[0].key == Text(r, CompletionKey()))
    requires s.events == map[] ==> s.nextId == 0
    ensures O.LegalRun(cfg, s, [CompletionPost(r)])
    ensures
      var s' := O.Run(cfg, s, [CompletionPost(r)]);
      s'.events.Keys == {0} && s'.events[0].key == Text(r, CompletionKey())
  {
    hide Text;
    O.RunOne(cfg, s, CompletionPost(r));
    if s.events != map[] {
      assert O.HasKey(s.events, Text(r, CompletionKey())) by {
        assert 0 in s.events;
      }
    }
  }

  lemma NoTraffic(cfg: O.Config, s: O.State)
    ensures O.LegalRun(cfg, s, []) && O.Run(cfg, s, []) == s
  {
  }

  lemma EmptyEnrollments()
    ensures Apply(EMPTY, Request(7, CreateCourse(1, "course", FREE))).state.enrollments == map[]
  {
  }

  lemma Setup(r: Rendering, cfg: O.Config) returns (actions: seq<Action>)
    ensures AllowedRun(r, cfg, Begin(0), actions) && Changes(EMPTY, actions) == []
    ensures StoreAfter(EMPTY, actions) == Enrolled(Row(None, None))
    ensures OutboxAfter(r, cfg, Begin(0), actions) == O.Initial(0)
  {
    hide Apply;
    EnrollFirst();
    var create := Action(Request(7, CreateCourse(1, "course", FREE)), []);
    var enroll := Action(Request(7, CreateEnrollment(2, 1, 9)), []);
    assert AllowedRun(r, cfg, Begin(0), []);
    NoTraffic(cfg, O.Initial(0));
    Extend(r, cfg, [], create);
    assert Changes(EMPTY, [create]) == [] by {
      assert [] + [create] == [create];
    }
    EmptyEnrollments();
    Extend(r, cfg, [] + [create], enroll);
    actions := [] + [create] + [enroll];
  }

  lemma FreshUpdates(s: State, done: bool)
    ensures Fresh(s, Completing(done).op)
  {
  }

  lemma PostIsDue(r: Rendering, changes: seq<Change>, before: Enrollment, lastAccessedAt: Option<int>)
    requires before == Row(None, lastAccessedAt)
    ensures IsPost(r, changes + [Change(2, before, Row(Some(0), Some(0)), false, 9)], CompletionPost(r).op)
  {
    hide Text;
    var all := changes + [Change(2, before, Row(Some(0), Some(0)), false, 9)];
    assert Posted(r, all[|changes|], CompletionKey(), CompletionPost(r).op);
  }

  ghost predicate OneRowOrNone(r: Rendering, s: O.State) {
    && (s.events == map[] || (s.events.Keys == {0} && s.events[0].key == Text(r, CompletionKey())))
    && (s.events == map[] ==> s.nextId == 0)
  }

  lemma Complete(r: Rendering, cfg: O.Config, front: seq<Action>, lastAccessedAt: Option<int>)
    returns (actions: seq<Action>)
    requires AllowedRun(r, cfg, Begin(0), front) && StoreAfter(EMPTY, front) == Enrolled(Row(None, lastAccessedAt))
    requires OneRowOrNone(r, OutboxAfter(r, cfg, Begin(0), front))
    ensures AllowedRun(r, cfg, Begin(0), actions) && StoreAfter(EMPTY, actions) == Enrolled(Row(Some(0), Some(0)))
    ensures Changes(EMPTY, actions)
         == Changes(EMPTY, front) + [Change(2, Row(None, lastAccessedAt), Row(Some(0), Some(0)), false, 9)]
    ensures OneRowOrNone(r, OutboxAfter(r, cfg, Begin(0), actions))
    ensures |OutboxAfter(r, cfg, Begin(0), actions).events| == 1
    ensures Text(r, CompletionKey()) in Arrived(actions)
  {
    hide Text, Gateway, Fresh, IsPost, Changes, StoreAfter, AllowedRun, OutboxAfter, O.LegalRun, O.Run, Enrolled, Row;
    var a := Action(Completing(true), [CompletionPost(r)]);
    FreshUpdates(StoreAfter(EMPTY, front), true);
    UpdateOnce(true, None, lastAccessedAt);
    PostArrives(r, cfg, OutboxAfter(r, cfg, Begin(0), front));
    PostIsDue(r, Changes(EMPTY, front), Row(None, lastAccessedAt), lastAccessedAt);
    Extend(r, cfg, front, a);
    assert a.traffic[0].op.key in Ingested(a.traffic);
    actions := front + [a];
    assert |OutboxAfter(r, cfg, Begin(0), actions).events.Keys| == 1;
  }

  lemma Reopen(r: Rendering, cfg: O.Config, front: seq<Action>) returns (actions: seq<Action>)
    requires AllowedRun(r, cfg, Begin(0), front) && StoreAfter(EMPTY, front) == Enrolled(Row(Some(0), Some(0)))
    ensures AllowedRun(r, cfg, Begin(0), actions) && StoreAfter(EMPTY, actions) == Enrolled(Row(None, Some(0)))
    ensures Changes(EMPTY, actions)
         == Changes(EMPTY, front) + [Change(2, Row(Some(0), Some(0)), Row(None, Some(0)), false, 9)]
    ensures OutboxAfter(r, cfg, Begin(0), actions) == OutboxAfter(r, cfg, Begin(0), front)
  {
    hide Gateway, Fresh, Changes, StoreAfter, AllowedRun, OutboxAfter, O.LegalRun, O.Run, Enrolled, Row;
    FreshUpdates(StoreAfter(EMPTY, front), false);
    UpdateOnce(false, Some(0), Some(0));
    NoTraffic(cfg, OutboxAfter(r, cfg, Begin(0), front));
    Extend(r, cfg, front, Action(Completing(false), []));
    actions := front + [Action(Completing(false), [])];
  }

  /**
   Complete, reopen, complete, all within a millisecond: two of the changes are completions, each sends its
   message, and both are the one row of the outbox.
   */
  lemma TwoCompletionsOneRow(r: Rendering, cfg: O.Config) returns (actions: seq<Action>)
    ensures AllowedRun(r, cfg, Begin(0), actions)
    ensures
      var changes := Changes(EMPTY, actions);
      |changes| == 3 && Due(changes[0], CourseCompleted(2, 0)) && Due(changes[2], CourseCompleted(2, 0))
    ensures Text(r, CourseCompleted(2, 0)) in Arrived(actions)
    ensures |OutboxAfter(r, cfg, Begin(0), actions).events| == 1
  {
    hide Text, Changes, StoreAfter, AllowedRun, OutboxAfter, Enrolled, Arrived;
    actions := Setup(r, cfg);
    actions := Complete(r, cfg, actions, None);
    actions := Reopen(r, cfg, actions);
    actions := Complete(r, cfg, actions, Some(0));
  }
}
