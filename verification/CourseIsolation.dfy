/** Tenants cannot see or touch each other: every tenant's slice behaves as if it had a store of its own. */
module CourseIsolation {
  import opened Prelude
  import opened CourseStore

  /** A tenant's rows. */
  function View(s: State, t: Uuid): State {
    State(CoursesOf(s, t),
          map l | l in s.lessons && s.lessons[l].tenantId == t :: s.lessons[l],
          map e | e in s.enrollments && s.enrollments[e].tenantId == t :: s.enrollments[e])
  }

  predicate SamePlace(a: Enrollment, b: Enrollment) {
    a.tenantId == b.tenantId && a.courseId == b.courseId && a.userId == b.userId
  }

  /** Every lesson and enrollment belongs to a course of its own tenant; nobody is enrolled twice. */
  ghost predicate Inv(s: State) {
    && (forall l :: l in s.lessons ==> HasCourse(s, s.lessons[l].tenantId, s.lessons[l].courseId))
    && (forall e :: e in s.enrollments ==> HasCourse(s, s.enrollments[e].tenantId, s.enrollments[e].courseId))
    && (forall e, e' :: e in s.enrollments && e' in s.enrollments && SamePlace(s.enrollments[e], s.enrollments[e'])
          ==> e == e')
  }

  lemma CoursePartKeeps(s: State, r: Request)
    requires Inv(s) && Fresh(s, r.op)
    requires r.op.ListCourses? || r.op.GetCourse? || r.op.CreateCourse? || r.op.UpdateCourse? || r.op.DeleteCourse?
    ensures Inv(CoursePart(s, r.tenantId, r.op).state)
  {
  }

  lemma LessonPartKeeps(s: State, r: Request)
    requires Inv(s) && Fresh(s, r.op)
    requires r.op.ListLessons? || r.op.GetLesson? || r.op.CreateLesson? || r.op.UpdateLesson? || r.op.DeleteLesson?
    ensures Inv(LessonPart(s, r.tenantId, r.op).state)
  {
  }

  lemma EnrollmentPartKeeps(s: State, r: Request)
    requires Inv(s) && Fresh(s, r.op)
    requires r.op.CreateEnrollment? || r.op.ListEnrollmentsByCourse? || r.op.ListEnrollmentsByUser?
      || r.op.GetEnrollment? || r.op.UpdateEnrollment? || r.op.DeleteEnrollment?
    ensures Inv(EnrollmentPart(s, r.tenantId, r.op).state)
  {
  }

  lemma StepKeeps(s: State, r: Request)
    requires Inv(s) && Fresh(s, r.op)
    ensures Inv(Apply(s, r).state)
  {
    hide Inv, CoursePart, LessonPart, EnrollmentPart;
    match r.op
    case ListCourses => CoursePartKeeps(s, r);
    case GetCourse(_) => CoursePartKeeps(s, r);
    case CreateCourse(_, _, _) => CoursePartKeeps(s, r);
    case UpdateCourse(_, _) => CoursePartKeeps(s, r);
    case DeleteCourse(_) => CoursePartKeeps(s, r);
    case ListLessons(_) => LessonPartKeeps(s, r);
    case GetLesson(_, _) => LessonPartKeeps(s, r);
    case CreateLesson(_, _, _, _, _) => LessonPartKeeps(s, r);
    case UpdateLesson(_, _, _) => LessonPartKeeps(s, r);
    case DeleteLesson(_, _) => LessonPartKeeps(s, r);
    case _ => EnrollmentPartKeeps(s, r);
  }

  // ---- Other tenants' slices -------------------------------------------------------------------

  lemma DropCourseElsewhere(s: State, t: Uuid, c: Uuid, owner: Uuid)
    requires Inv(s) && HasCourse(s, owner, c) && t != owner
    ensures View(WithoutCourse(s, c), t) == View(s, t)
  {
    var s' := WithoutCourse(s, c);
    assert View(s', t).courses == View(s, t).courses;
    assert View(s', t).lessons == View(s, t).lessons;
    assert View(s', t).enrollments == View(s, t).enrollments;
  }

  lemma CoursePartElsewhere(s: State, r: Request, t: Uuid)
    requires Inv(s) && Fresh(s, r.op) && t != r.tenantId
    requires r.op.ListCourses? || r.op.GetCourse? || r.op.CreateCourse? || r.op.UpdateCourse? || r.op.DeleteCourse?
    ensures View(CoursePart(s, r.tenantId, r.op).state, t) == View(s, t)
  {
    hide Inv, WithoutCourse;
    if r.op.DeleteCourse? {
      if HasCourse(s, r.tenantId, r.op.courseId) {
        DropCourseElsewhere(s, t, r.op.courseId, r.tenantId);
      }
    } else {
      assert View(CoursePart(s, r.tenantId, r.op).state, t).courses == View(s, t).courses;
    }
  }

  lemma LessonPartElsewhere(s: State, r: Request, t: Uuid)
    requires Fresh(s, r.op) && t != r.tenantId
    requires r.op.ListLessons? || r.op.GetLesson? || r.op.CreateLesson? || r.op.UpdateLesson? || r.op.DeleteLesson?
    ensures View(LessonPart(s, r.tenantId, r.op).state, t) == View(s, t)
  {
    assert View(LessonPart(s, r.tenantId, r.op).state, t).lessons == View(s, t).lessons;
  }

  lemma EnrollmentPartElsewhere(s: State, r: Request, t: Uuid)
    requires Fresh(s, r.op) && t != r.tenantId
    requires r.op.CreateEnrollment? || r.op.ListEnrollmentsByCourse? || r.op.ListEnrollmentsByUser?
      || r.op.GetEnrollment? || r.op.UpdateEnrollment? || r.op.DeleteEnrollment?
    ensures View(EnrollmentPart(s, r.tenantId, r.op).state, t) == View(s, t)
  {
    assert View(EnrollmentPart(s, r.tenantId, r.op).state, t).enrollments == View(s, t).enrollments;
  }

  // ---- The tenant's own slice ------------------------------------------------------------------

  /** The slice has exactly the rows a request of its tenant can find. */
  lemma SameLookups(s: State, t: Uuid)
    ensures forall c :: HasCourse(View(s, t), t, c) <==> HasCourse(s, t, c)
    ensures forall c :: HasCourse(s, t, c) ==> View(s, t).courses[c] == s.courses[c]
    ensures forall c, l :: HasLesson(View(s, t), t, c, l) <==> HasLesson(s, t, c, l)
    ensures forall c, l :: HasLesson(s, t, c, l) ==> View(s, t).lessons[l] == s.lessons[l]
    ensures forall e :: HasEnrollment(View(s, t), t, e) <==> HasEnrollment(s, t, e)
    ensures forall e :: HasEnrollment(s, t, e) ==> View(s, t).enrollments[e] == s.enrollments[e]
    ensures CoursesOf(View(s, t), t) == CoursesOf(s, t)
  {
    assert CoursesOf(View(s, t), t) == CoursesOf(s, t);
  }

  lemma OwnCourseRows(s: State, t: Uuid, c: Uuid)
    requires Inv(s) && HasCourse(s, t, c)
    ensures LessonsIn(View(s, t), c) == LessonsIn(s, c)
    ensures EnrollmentsIn(View(s, t), c) == EnrollmentsIn(s, c)
  {
  }

  lemma PutCourse(s: State, t: Uuid, c: Uuid, row: Course)
    requires row.tenantId == t && (c in s.courses ==> s.courses[c].tenantId == t)
    ensures View(s.(courses := s.courses[c := row]), t) == View(s, t).(courses := View(s, t).courses[c := row])
  {
    assert View(s.(courses := s.courses[c := row]), t).courses == View(s, t).courses[c := row];
  }

  lemma DropCourse(s: State, t: Uuid, c: Uuid)
    ensures WithoutCourse(View(s, t), c) == View(WithoutCourse(s, c), t)
  {
    assert WithoutCourse(View(s, t), c).courses == View(WithoutCourse(s, c), t).courses;
    assert WithoutCourse(View(s, t), c).lessons == View(WithoutCourse(s, c), t).lessons;
    assert WithoutCourse(View(s, t), c).enrollments == View(WithoutCourse(s, c), t).enrollments;
  }

  lemma PutLesson(s: State, t: Uuid, l: Uuid, row: Lesson)
    requires row.tenantId == t && (l in s.lessons ==> s.lessons[l].tenantId == t)
    ensures View(s.(lessons := s.lessons[l := row]), t) == View(s, t).(lessons := View(s, t).lessons[l := row])
    ensures View(s.(lessons := s.lessons - {l}), t) == View(s, t).(lessons := View(s, t).lessons - {l})
  {
    assert View(s.(lessons := s.lessons[l := row]), t).lessons == View(s, t).lessons[l := row];
    assert View(s.(lessons := s.lessons - {l}), t).lessons == View(s, t).lessons - {l};
  }

  lemma PutEnrollment(s: State, t: Uuid, e: Uuid, row: Enrollment)
    requires row.tenantId == t && (e in s.enrollments ==> s.enrollments[e].tenantId == t)
    ensures View(s.(enrollments := s.enrollments[e := row]), t)
         == View(s, t).(enrollments := View(s, t).enrollments[e := row])
    ensures View(s.(enrollments := s.enrollments - {e}), t)
         == View(s, t).(enrollments := View(s, t).enrollments - {e})
  {
    assert View(s.(enrollments := s.enrollments[e := row]), t).enrollments == View(s, t).enrollments[e := row];
    assert View(s.(enrollments := s.enrollments - {e}), t).enrollments == View(s, t).enrollments - {e};
  }

  lemma OverviewOwn(s: State, t: Uuid)
    requires Inv(s)
    ensures CoursePart(View(s, t), t, ListCourses).reply == CoursePart(s, t, ListCourses).reply
  {
    SameLookups(s, t);
    var own := CoursesOf(s, t);
    forall c | c in own ensures LessonsIn(View(s, t), c) == LessonsIn(s, c)
      && EnrollmentsIn(View(s, t), c) == EnrollmentsIn(s, c)
    {
      OwnCourseRows(s, t, c);
    }
    assert (map c | c in own :: Counts(|LessonsIn(View(s, t), c)|, |EnrollmentsIn(View(s, t), c)|))
        == (map c | c in own :: Counts(|LessonsIn(s, c)|, |EnrollmentsIn(s, c)|));
  }

  /** A request answers the same, and does the same, on the tenant's slice alone. */
  ghost predicate SameOnSlice(s: State, r: Request) {
    var full, own := Apply(s, r), Apply(View(s, r.tenantId), r);
    own.reply == full.reply && own.state == View(full.state, r.tenantId)
  }

  lemma CoursePartOwn(s: State, r: Request)
    requires Inv(s) && Fresh(s, r.op)
    requires r.op.ListCourses? || r.op.GetCourse? || r.op.CreateCourse? || r.op.UpdateCourse? || r.op.DeleteCourse?
    ensures SameOnSlice(s, r)
  {
    var t := r.tenantId;
    SameLookups(s, t);
    hide View, Inv, WithoutCourse, LessonsIn, EnrollmentsIn, CoursesOf;
    match r.op
    case ListCourses => OverviewOwn(s, t);
    case GetCourse(c) =>
      if HasCourse(s, t, c) {
        OwnCourseRows(s, t, c);
      }
    case CreateCourse(c, title, _) => PutCourse(s, t, c, Course(t, title));
    case UpdateCourse(c, title) =>
      if HasCourse(s, t, c) {
        PutCourse(s, t, c, s.courses[c].(title := title));
      }
    case DeleteCourse(c) => DropCourse(s, t, c);
  }

  lemma ReadLessonsOwn(s: State, r: Request)
    requires r.op.ListLessons? || r.op.GetLesson?
    ensures SameOnSlice(s, r)
  {
    var t := r.tenantId;
    SameLookups(s, t);
    hide View;
    if r.op.ListLessons? {
      assert (map l | l in View(s, t).lessons && HasLesson(View(s, t), t, r.op.courseId, l) :: View(s, t).lessons[l])
          == (map l | l in s.lessons && HasLesson(s, t, r.op.courseId, l) :: s.lessons[l]);
    }
  }

  lemma PatchKeepsTenant(row: Lesson, p: LessonPatch)
    ensures PatchedLesson(row, p).tenantId == row.tenantId
  {
  }

  lemma WriteLessonOwn(s: State, r: Request)
    requires Fresh(s, r.op) && (r.op.CreateLesson? || r.op.UpdateLesson? || r.op.DeleteLesson?)
    ensures SameOnSlice(s, r)
  {
    var t := r.tenantId;
    SameLookups(s, t);
    hide View, PatchedLesson;
    match r.op
    case CreateLesson(l, c, title, body, sortOrder) => PutLesson(s, t, l, Lesson(t, c, title, body, sortOrder));
    case UpdateLesson(c, l, p) =>
      if HasLesson(s, t, c, l) {
        PatchKeepsTenant(s.lessons[l], p);
        PutLesson(s, t, l, PatchedLesson(s.lessons[l], p));
      }
    case DeleteLesson(c, l) =>
      if HasLesson(s, t, c, l) {
        PutLesson(s, t, l, s.lessons[l]);
      }
  }

  lemma LessonPartOwn(s: State, r: Request)
    requires Fresh(s, r.op)
    requires r.op.ListLessons? || r.op.GetLesson? || r.op.CreateLesson? || r.op.UpdateLesson? || r.op.DeleteLesson?
    ensures SameOnSlice(s, r)
  {
    hide Fresh, SameOnSlice;
    if r.op.ListLessons? || r.op.GetLesson? {
      ReadLessonsOwn(s, r);
    } else {
      WriteLessonOwn(s, r);
    }
  }

  lemma CoursesBehindOwn(s: State, t: Uuid, own: map<Uuid, Enrollment>)
    requires forall e :: e in own ==> HasCourse(s, t, own[e].courseId)
    ensures WithCourses(View(s, t), own) == WithCourses(s, own)
  {
    assert CoursesBehind(View(s, t), own) == CoursesBehind(s, own);
  }

  lemma EnrolledOwn(s: State, t: Uuid, c: Uuid, u: Uuid)
    ensures Enrolled(View(s, t), t, c, u) <==> Enrolled(s, t, c, u)
  {
    if e :| e in s.enrollments && s.enrollments[e].tenantId == t
            && s.enrollments[e].courseId == c && s.enrollments[e].userId == u {
      assert e in View(s, t).enrollments;
    }
  }

  lemma ByCourseOwn(s: State, t: Uuid, c: Uuid)
    requires Inv(s)
    ensures ByCourse(View(s, t), t, c) == ByCourse(s, t, c)
    ensures WithCourses(View(s, t), ByCourse(s, t, c)) == WithCourses(s, ByCourse(s, t, c))
  {
    assert ByCourse(View(s, t), t, c) == ByCourse(s, t, c);
    CoursesBehindOwn(s, t, ByCourse(s, t, c));
  }

  lemma ByUserOwn(s: State, t: Uuid, u: Uuid)
    requires Inv(s)
    ensures ByUser(View(s, t), t, u) == ByUser(s, t, u)
    ensures WithCourses(View(s, t), ByUser(s, t, u)) == WithCourses(s, ByUser(s, t, u))
  {
    assert ByUser(View(s, t), t, u) == ByUser(s, t, u);
    CoursesBehindOwn(s, t, ByUser(s, t, u));
  }

  lemma PatchKeepsPlace(row: Enrollment, p: Patch, now: int)
    ensures SamePlace(Patched(row, p, now), row)
  {
  }

  lemma OwnCourseExists(s: State, t: Uuid)
    requires Inv(s)
    ensures forall e :: HasEnrollment(s, t, e) ==> HasCourse(s, t, s.enrollments[e].courseId)
  {
  }

  lemma CreateEnrollmentOwn(s: State, r: Request)
    requires Inv(s) && Fresh(s, r.op) && r.op.CreateEnrollment?
    ensures SameOnSlice(s, r)
  {
    var t, c, u := r.tenantId, r.op.courseId, r.op.userId;
    SameLookups(s, t);
    EnrolledOwn(s, t, c, u);
    var row := Enrollment(t, c, u, 0, 0, None, None);
    PutEnrollment(s, t, r.op.newId, row);
    hide View, Inv, Enrolled, CoursesBehind;
    if HasCourse(s, t, c) {
      CoursesBehindOwn(s, t, map[r.op.newId := row]);
    }
  }

  lemma UpdateEnrollmentOwn(s: State, r: Request)
    requires Inv(s) && r.op.UpdateEnrollment?
    ensures SameOnSlice(s, r)
  {
    var t, e := r.tenantId, r.op.enrollmentId;
    SameLookups(s, t);
    OwnCourseExists(s, t);
    hide View, Inv, WithCourses, Patched, Owns;
    if HasEnrollment(s, t, e) {
      var row := Patched(s.enrollments[e], r.op.patch, r.op.now);
      PatchKeepsPlace(s.enrollments[e], r.op.patch, r.op.now);
      PutEnrollment(s, t, e, row);
      CoursesBehindOwn(s, t, map[e := row]);
    }
  }

  lemma ListEnrollmentsOwn(s: State, r: Request)
    requires Inv(s) && (r.op.ListEnrollmentsByCourse? || r.op.ListEnrollmentsByUser?)
    ensures SameOnSlice(s, r)
  {
    var t := r.tenantId;
    SameLookups(s, t);
    hide View, Inv, WithCourses, ByCourse, ByUser;
    if r.op.ListEnrollmentsByCourse? {
      ByCourseOwn(s, t, r.op.courseId);
    } else {
      ByUserOwn(s, t, r.op.userId);
    }
  }

  lemma GetEnrollmentOwn(s: State, r: Request)
    requires Inv(s) && r.op.GetEnrollment?
    ensures SameOnSlice(s, r)
  {
    var t, e := r.tenantId, r.op.enrollmentId;
    SameLookups(s, t);
    OwnCourseExists(s, t);
    hide View, Inv, WithCourses, Owns;
    if HasEnrollment(s, t, e) {
      CoursesBehindOwn(s, t, map[e := s.enrollments[e]]);
    }
  }

  lemma DeleteEnrollmentOwn(s: State, r: Request)
    requires r.op.DeleteEnrollment?
    ensures SameOnSlice(s, r)
  {
    var t, e := r.tenantId, r.op.enrollmentId;
    SameLookups(s, t);
    hide View;
    if HasEnrollment(s, t, e) {
      PutEnrollment(s, t, e, s.enrollments[e]);
    }
  }

  lemma EnrollmentPartOwn(s: State, r: Request)
    requires Inv(s) && Fresh(s, r.op)
    requires r.op.CreateEnrollment? || r.op.ListEnrollmentsByCourse? || r.op.ListEnrollmentsByUser?
      || r.op.GetEnrollment? || r.op.UpdateEnrollment? || r.op.DeleteEnrollment?
    ensures SameOnSlice(s, r)
  {
    hide Inv, Fresh, SameOnSlice;
    match r.op
    case CreateEnrollment(_, _, _) => CreateEnrollmentOwn(s, r);
    case GetEnrollment(_, _) => GetEnrollmentOwn(s, r);
    case UpdateEnrollment(_, _, _, _) => UpdateEnrollmentOwn(s, r);
    case DeleteEnrollment(_) => DeleteEnrollmentOwn(s, r);
    case _ => ListEnrollmentsOwn(s, r);
  }

  // ---- One request, and runs -------------------------------------------------------------------

  lemma OwnSlice(s: State, r: Request)
    requires Inv(s) && Fresh(s, r.op)
    ensures SameOnSlice(s, r)
  {
    hide Inv, SameOnSlice;
    match r.op
    case ListCourses => CoursePartOwn(s, r);
    case GetCourse(_) => CoursePartOwn(s, r);
    case CreateCourse(_, _, _) => CoursePartOwn(s, r);
    case UpdateCourse(_, _) => CoursePartOwn(s, r);
    case DeleteCourse(_) => CoursePartOwn(s, r);
    case ListLessons(_) => LessonPartOwn(s, r);
    case GetLesson(_, _) => LessonPartOwn(s, r);
    case CreateLesson(_, _, _, _, _) => LessonPartOwn(s, r);
    case UpdateLesson(_, _, _) => LessonPartOwn(s, r);
    case DeleteLesson(_, _) => LessonPartOwn(s, r);
    case _ => EnrollmentPartOwn(s, r);
  }

  lemma ElsewhereUntouched(s: State, r: Request, t: Uuid)
    requires Inv(s) && Fresh(s, r.op) && t != r.tenantId
    ensures View(Apply(s, r).state, t) == View(s, t)
  {
    hide Inv, View, CoursePart, LessonPart, EnrollmentPart;
    match r.op
    case ListCourses => CoursePartElsewhere(s, r, t);
    case GetCourse(_) => CoursePartElsewhere(s, r, t);
    case CreateCourse(_, _, _) => CoursePartElsewhere(s, r, t);
    case UpdateCourse(_, _) => CoursePartElsewhere(s, r, t);
    case DeleteCourse(_) => CoursePartElsewhere(s, r, t);
    case ListLessons(_) => LessonPartElsewhere(s, r, t);
    case GetLesson(_, _) => LessonPartElsewhere(s, r, t);
    case CreateLesson(_, _, _, _, _) => LessonPartElsewhere(s, r, t);
    case UpdateLesson(_, _, _) => LessonPartElsewhere(s, r, t);
    case DeleteLesson(_, _) => LessonPartElsewhere(s, r, t);
    case _ => EnrollmentPartElsewhere(s, r, t);
  }

  /** The requests of one tenant. */
  function RequestsOf(rs: seq<Request>, t: Uuid): seq<Request> {
    if rs == [] then [] else (if rs[0].tenantId == t then [rs[0]] else []) + RequestsOf(rs[1..], t)
  }

  lemma {:induction false} RunProjects(s: State, rs: seq<Request>, t: Uuid)
    requires Inv(s) && FreshRun(s, rs)
    ensures Inv(Run(s, rs))
    ensures View(Run(s, rs), t) == Run(View(s, t), RequestsOf(rs, t))
    ensures RepliesTo(s, rs, t) == RepliesTo(View(s, t), RequestsOf(rs, t), t)
    decreases |rs|
  {
    hide Inv, View, Apply, Fresh;
    if rs == [] {
    } else {
      var r, rest := rs[0], rs[1..];
      var s' := Apply(s, r).state;
      StepKeeps(s, r);
      RunProjects(s', rest, t);
      if r.tenantId == t {
        OwnSlice(s, r);
        var own := RequestsOf(rs, t);
        assert own[0] == r && own[1..] == RequestsOf(rest, t);
      } else {
        ElsewhereUntouched(s, r, t);
        assert RequestsOf(rs, t) == RequestsOf(rest, t);
      }
    }
  }

  /**
   Non-interference. Whatever the other tenants request in between, tenant t ends up with the rows, and
   gets the replies, it would have had with its own requests alone on a store of its own.
   */
  lemma NonInterference(rs: seq<Request>, t: Uuid)
    requires FreshRun(EMPTY, rs)
    ensures View(Run(EMPTY, rs), t) == Run(EMPTY, RequestsOf(rs, t))
    ensures RepliesTo(EMPTY, rs, t) == RepliesTo(EMPTY, RequestsOf(rs, t), t)
  {
    assert View(EMPTY, t) == EMPTY;
    RunProjects(EMPTY, rs, t);
  }

  /** In every reachable store, rows belong to courses of their own tenant, and nobody is enrolled twice. */
  lemma RowsFollowCourses(rs: seq<Request>, e: Uuid, l: Uuid)
    requires FreshRun(EMPTY, rs)
    ensures
      var s := Run(EMPTY, rs);
      && (l in s.lessons ==> HasCourse(s, s.lessons[l].tenantId, s.lessons[l].courseId))
      && (e in s.enrollments ==> HasCourse(s, s.enrollments[e].tenantId, s.enrollments[e].courseId))
      && forall e' :: e in s.enrollments && e' in s.enrollments && SamePlace(s.enrollments[e], s.enrollments[e'])
           ==> e == e'
  {
    RunProjects(EMPTY, rs, 0);
  }
}
