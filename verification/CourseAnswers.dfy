/** Which requests the course store accepts, and what it answers, in terms of its rows. */
module CourseAnswers {
  import opened Prelude
  import opened SeatPolicy
  import opened Catalog
  import opened CourseStore

  // ---- Acceptance ------------------------------------------------------------------------------

  /** The course is one of the tenant's. */
  predicate OwnCourse(s: State, t: Uuid, c: Uuid) {
    c in s.courses && s.courses[c].tenantId == t
  }

  predicate OwnLesson(s: State, t: Uuid, c: Uuid, l: Uuid) {
    l in s.lessons && s.lessons[l].tenantId == t && s.lessons[l].courseId == c
  }

  /** The enrollment is one of the tenant's, and a learner's own if a learner asks. */
  predicate OwnEnrollment(s: State, t: Uuid, e: Uuid, actor: Actor) {
    e in s.enrollments && s.enrollments[e].tenantId == t
    && (actor.role == Learner ==> s.enrollments[e].userId == actor.userId)
  }

  /** The condition under which a request is accepted. */
  ghost predicate Deserves(s: State, q: Request) {
    var t := q.tenantId;
    match q.op
    case ListCourses => true
    case GetCourse(c) => OwnCourse(s, t, c)
    case CreateCourse(_, _, tier) =>
      var count := |set c | c in s.courses && s.courses[c].tenantId == t|;
      tier == ENTERPRISE || count < if tier == PRO then 100 else 3
    case UpdateCourse(c, _) => OwnCourse(s, t, c)
    case DeleteCourse(c) => OwnCourse(s, t, c)
    case ListLessons(c) => OwnCourse(s, t, c)
    case GetLesson(c, l) => OwnLesson(s, t, c, l)
    case CreateLesson(_, c, _, _, _) => OwnCourse(s, t, c)
    case UpdateLesson(c, l, p) => OwnLesson(s, t, c, l) && p != LessonPatch(None, None, None)
    case DeleteLesson(c, l) => OwnLesson(s, t, c, l)
    case CreateEnrollment(_, c, u) =>
      OwnCourse(s, t, c) && forall e :: e in s.enrollments ==>
        !(s.enrollments[e].tenantId == t && s.enrollments[e].courseId == c && s.enrollments[e].userId == u)
    case ListEnrollmentsByCourse(c) => OwnCourse(s, t, c)
    case ListEnrollmentsByUser(_) => true
    case GetEnrollment(e, actor) => OwnEnrollment(s, t, e, actor)
    case UpdateEnrollment(e, actor, p, _) => OwnEnrollment(s, t, e, actor) && p != Patch(None, None, None, false)
    case DeleteEnrollment(e) => e in s.enrollments && s.enrollments[e].tenantId == t
  }

  lemma CountIsCourses(s: State, t: Uuid)
    ensures |set c | c in s.courses && s.courses[c].tenantId == t| == |CoursesOf(s, t)|
  {
    assert (set c | c in s.courses && s.courses[c].tenantId == t) == CoursesOf(s, t).Keys;
    assert |CoursesOf(s, t)| == |CoursesOf(s, t).Keys|;
  }

  /**
   A request is accepted if and only if it deserves to be: it stays inside its tenant, what it names is there,
   its patch is not empty, a learner asks for its own enrollment, and limits leave room. A refused request
   changes nothing.
   */
  lemma AcceptedExactly(s: State, q: Request)
    ensures !Apply(s, q).reply.Failed? <==> Deserves(s, q)
    ensures Apply(s, q).reply.Failed? ==> Apply(s, q).state == s
  {
    CountIsCourses(s, q.tenantId);
    hide CoursesBehind, CoursesOf, LessonsIn, EnrollmentsIn, ByCourse, ByUser, Patched, PatchedLesson;
  }

  /** Which reason a refusal gives. */
  lemma RefusalReasons(s: State, q: Request)
    requires Apply(s, q).reply.Failed?
    ensures
      var why, t := Apply(s, q).reply.why, q.tenantId;
      match q.op
      case CreateCourse(_, _, tier) => why == CourseLimit(if tier == PRO then 100 else 3)
      case UpdateLesson(c, l, _) => why == if OwnLesson(s, t, c, l) then BadRequest else NotFound
      case CreateEnrollment(_, c, _) => why == if OwnCourse(s, t, c) then AlreadyEnrolled else NotFound
      case GetEnrollment(e, _) =>
        why == if e in s.enrollments && s.enrollments[e].tenantId == t then NotYours else NotFound
      case UpdateEnrollment(e, _, p, _) =>
        why == if p == Patch(None, None, None, false) then BadRequest
               else if e in s.enrollments && s.enrollments[e].tenantId == t then NotYours else NotFound
      case _ => why == NotFound
  {
    hide CoursesBehind, CoursesOf, LessonsIn, EnrollmentsIn, ByCourse, ByUser, Patched, PatchedLesson, Enrolled;
  }

  // ---- Answers ---------------------------------------------------------------------------------

  /** The answer's rows are rows of the store. */
  ghost predicate Truthful(rows: State, s: State) {
    && (forall c :: c in rows.courses ==> c in s.courses && rows.courses[c] == s.courses[c])
    && (forall l :: l in rows.lessons ==> l in s.lessons && rows.lessons[l] == s.lessons[l])
    && (forall e :: e in rows.enrollments ==> e in s.enrollments && rows.enrollments[e] == s.enrollments[e])
  }

  /** The lessons an answer shows. */
  ghost predicate ShowsLesson(s: State, q: Request, l: Uuid) {
    match q.op
    case GetCourse(c) => l in s.lessons && s.lessons[l].courseId == c
    case ListLessons(c) => OwnLesson(s, q.tenantId, c, l)
    case GetLesson(_, id) => l == id
    case CreateLesson(id, _, _, _, _) => l == id
    case UpdateLesson(_, id, _) => l == id
    case _ => false
  }

  /** The enrollments an answer shows. */
  ghost predicate ShowsEnrollment(s: State, q: Request, e: Uuid) {
    match q.op
    case CreateEnrollment(id, _, _) => e == id
    case ListEnrollmentsByCourse(c) =>
      e in s.enrollments && s.enrollments[e].tenantId == q.tenantId && s.enrollments[e].courseId == c
    case ListEnrollmentsByUser(u) =>
      e in s.enrollments && s.enrollments[e].tenantId == q.tenantId && s.enrollments[e].userId == u
    case GetEnrollment(id, _) => e == id
    case UpdateEnrollment(id, _, _, _) => e == id
    case _ => false
  }

  /** The courses an answer shows: the one asked for, or those of the enrollments shown. */
  ghost predicate ShowsCourse(s: State, q: Request, c: Uuid) {
    match q.op
    case GetCourse(id) => c == id
    case CreateCourse(id, _, _) => c == id
    case UpdateCourse(id, _) => c == id
    case _ => c in s.courses && exists e :: ShowsEnrollment(s, q, e) && e in s.enrollments && s.enrollments[e].courseId == c
  }

  ghost predicate ShowsExactly(s: State, q: Request, rows: State) {
    && (forall l :: l in rows.lessons <==> ShowsLesson(s, q, l))
    && (forall e :: e in rows.enrollments <==> ShowsEnrollment(s, q, e))
    && (forall c :: c in rows.courses <==> ShowsCourse(s, q, c))
  }

  lemma CoursePartShows(s: State, q: Request)
    requires q.op.GetCourse? || q.op.CreateCourse? || q.op.UpdateCourse?
    requires Apply(s, q).reply.Rows?
    ensures Truthful(Apply(s, q).reply.rows, Apply(s, q).state)
    ensures ShowsExactly(Apply(s, q).state, q, Apply(s, q).reply.rows)
  {
    hide CoursesOf;
  }

  lemma LessonPartShows(s: State, q: Request)
    requires q.op.ListLessons? || q.op.GetLesson? || q.op.CreateLesson? || q.op.UpdateLesson?
    requires Apply(s, q).reply.Rows?
    ensures Truthful(Apply(s, q).reply.rows, Apply(s, q).state)
    ensures ShowsExactly(Apply(s, q).state, q, Apply(s, q).reply.rows)
  {
    hide PatchedLesson;
  }

  /** An answer with these enrollments, all in the store, shows them and their courses. */
  lemma WithCoursesShows(s: State, q: Request, shown: map<Uuid, Enrollment>)
    requires q.op.CreateEnrollment? || q.op.ListEnrollmentsByCourse? || q.op.ListEnrollmentsByUser?
      || q.op.GetEnrollment? || q.op.UpdateEnrollment?
    requires forall e :: e in shown ==> e in s.enrollments && shown[e] == s.enrollments[e]
    requires forall e :: e in shown <==> ShowsEnrollment(s, q, e)
    ensures Truthful(WithCourses(s, shown).rows, s) && ShowsExactly(s, q, WithCourses(s, shown).rows)
  {
    hide ShowsEnrollment;
  }

  lemma SameCourses(s: State, s': State, shown: map<Uuid, Enrollment>)
    requires s'.courses == s.courses
    ensures WithCourses(s', shown) == WithCourses(s, shown)
  {
    assert CoursesBehind(s', shown) == CoursesBehind(s, shown);
  }

  lemma OneEnrollmentShows(s: State, q: Request)
    requires q.op.CreateEnrollment? || q.op.GetEnrollment? || q.op.UpdateEnrollment?
    requires Apply(s, q).reply.Rows?
    ensures Truthful(Apply(s, q).reply.rows, Apply(s, q).state)
    ensures ShowsExactly(Apply(s, q).state, q, Apply(s, q).reply.rows)
  {
    hide Patched, Owns, Enrolled, CoursesBehind, Truthful, ShowsExactly;
    var r, id := Apply(s, q), if q.op.CreateEnrollment? then q.op.newId else q.op.enrollmentId;
    assert id in r.state.enrollments && r.state.courses == s.courses;
    SameCourses(s, r.state, map[id := r.state.enrollments[id]]);
    WithCoursesShows(r.state, q, map[id := r.state.enrollments[id]]);
  }

  lemma ListedEnrollmentsShow(s: State, q: Request)
    requires q.op.ListEnrollmentsByCourse? || q.op.ListEnrollmentsByUser?
    requires Apply(s, q).reply.Rows?
    ensures Truthful(Apply(s, q).reply.rows, Apply(s, q).state)
    ensures ShowsExactly(Apply(s, q).state, q, Apply(s, q).reply.rows)
  {
    hide CoursesBehind, Truthful, ShowsExactly;
    if q.op.ListEnrollmentsByCourse? {
      WithCoursesShows(s, q, ByCourse(s, q.tenantId, q.op.courseId));
    } else {
      WithCoursesShows(s, q, ByUser(s, q.tenantId, q.op.userId));
    }
  }

  /** An accepted request is answered with rows of the store as it is then, and with all that were asked for. */
  lemma AnswersAreTrue(s: State, q: Request)
    requires Apply(s, q).reply.Rows?
    ensures Truthful(Apply(s, q).reply.rows, Apply(s, q).state)
    ensures ShowsExactly(Apply(s, q).state, q, Apply(s, q).reply.rows)
  {
    hide Truthful, ShowsExactly;
    match q.op
    case GetCourse(_) => CoursePartShows(s, q);
    case CreateCourse(_, _, _) => CoursePartShows(s, q);
    case UpdateCourse(_, _) => CoursePartShows(s, q);
    case ListLessons(_) => LessonPartShows(s, q);
    case GetLesson(_, _) => LessonPartShows(s, q);
    case CreateLesson(_, _, _, _, _) => LessonPartShows(s, q);
    case UpdateLesson(_, _, _) => LessonPartShows(s, q);
    case CreateEnrollment(_, _, _) => OneEnrollmentShows(s, q);
    case ListEnrollmentsByCourse(_) => ListedEnrollmentsShow(s, q);
    case ListEnrollmentsByUser(_) => ListedEnrollmentsShow(s, q);
    case GetEnrollment(_, _) => OneEnrollmentShows(s, q);
    case UpdateEnrollment(_, _, _, _) => OneEnrollmentShows(s, q);
    case _ =>
  }

  /** The overview lists the tenant's courses, with the number of lessons and enrollments of each. */
  lemma OverviewCounts(s: State, t: Uuid, c: Uuid)
    ensures
      var reply := Apply(s, Request(t, ListCourses)).reply;
      && reply.Overview?
      && (c in reply.courses <==> OwnCourse(s, t, c)) && (c in reply.counts <==> OwnCourse(s, t, c))
      && (OwnCourse(s, t, c) ==>
            && reply.courses[c] == s.courses[c]
            && reply.counts[c].lessons == |set l | l in s.lessons && s.lessons[l].courseId == c|
            && reply.counts[c].enrollments == |set e | e in s.enrollments && s.enrollments[e].courseId == c|)
  {
    assert LessonsIn(s, c).Keys == set l | l in s.lessons && s.lessons[l].courseId == c;
    assert |LessonsIn(s, c)| == |LessonsIn(s, c).Keys|;
    assert EnrollmentsIn(s, c).Keys == set e | e in s.enrollments && s.enrollments[e].courseId == c;
    assert |EnrollmentsIn(s, c)| == |EnrollmentsIn(s, c).Keys|;
  }
}
