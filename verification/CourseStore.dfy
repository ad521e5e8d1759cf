/**
 Courses, lessons and enrollments of all tenants in one store. Every request names its tenant; creation
 requests carry the fresh id the database draws. Timestamps that only order listings are not kept.
 */
module CourseStore {
  import opened Prelude
  import opened SeatPolicy
  import opened Catalog

  // ---- Tables ----------------------------------------------------------------------------------

  datatype Course = Course(tenantId: Uuid, title: string)

  datatype Lesson = Lesson(tenantId: Uuid, courseId: Uuid, title: string, body: Option<string>, sortOrder: int)

  datatype Enrollment = Enrollment(
    tenantId: Uuid, courseId: Uuid, userId: Uuid,
    progress: nat, lessons: nat, completedAt: Option<int>, lastAccessedAt: Option<int>)

  datatype State = State(
    courses: map<Uuid, Course>, lessons: map<Uuid, Lesson>, enrollments: map<Uuid, Enrollment>)

  const EMPTY: State := State(map[], map[], map[])

  // ---- Requests --------------------------------------------------------------------------------

  datatype LessonPatch = LessonPatch(title: Option<string>, body: Option<Option<string>>, sortOrder: Option<int>)

  datatype Patch = Patch(progress: Option<nat>, lessons: Option<nat>, completed: Option<bool>, touch: bool)

  datatype Actor = Actor(role: Role, userId: Uuid)

  datatype Op =
    | ListCourses
    | GetCourse(courseId: Uuid)
    | CreateCourse(newId: Uuid, title: string, tier: Tier)
    | UpdateCourse(courseId: Uuid, title: string)
    | DeleteCourse(courseId: Uuid)
    | ListLessons(courseId: Uuid)
    | GetLesson(courseId: Uuid, lessonId: Uuid)
    | CreateLesson(newId: Uuid, courseId: Uuid, title: string, body: Option<string>, sortOrder: int)
    | UpdateLesson(courseId: Uuid, lessonId: Uuid, lessonPatch: LessonPatch)
    | DeleteLesson(courseId: Uuid, lessonId: Uuid)
    | CreateEnrollment(newId: Uuid, courseId: Uuid, userId: Uuid)
    | ListEnrollmentsByCourse(courseId: Uuid)
    | ListEnrollmentsByUser(userId: Uuid)
    | GetEnrollment(enrollmentId: Uuid, actor: Actor)
    | UpdateEnrollment(enrollmentId: Uuid, actor: Actor, patch: Patch, now: int)
    | DeleteEnrollment(enrollmentId: Uuid)

  datatype Request = Request(tenantId: Uuid, op: Op)

  datatype Failure = NotFound | BadRequest | NotYours | AlreadyEnrolled | CourseLimit(limit: nat)

  datatype Counts = Counts(lessons: nat, enrollments: nat)

  datatype Reply =
    | Failed(why: Failure)
    | Done
    | Rows(rows: State)
    | Overview(courses: map<Uuid, Course>, counts: map<Uuid, Counts>)

  datatype Result = Result(state: State, reply: Reply)

  function Fail(s: State, why: Failure): Result { Result(s, Failed(why)) }

  // ---- Lookups ---------------------------------------------------------------------------------

  predicate HasCourse(s: State, t: Uuid, c: Uuid) {
    c in s.courses && s.courses[c].tenantId == t
  }

  predicate HasLesson(s: State, t: Uuid, c: Uuid, l: Uuid) {
    l in s.lessons && s.lessons[l].tenantId == t && s.lessons[l].courseId == c
  }

  predicate HasEnrollment(s: State, t: Uuid, e: Uuid) {
    e in s.enrollments && s.enrollments[e].tenantId == t
  }

  predicate Enrolled(s: State, t: Uuid, c: Uuid, u: Uuid) {
    exists e :: e in s.enrollments && s.enrollments[e].tenantId == t
                && s.enrollments[e].courseId == c && s.enrollments[e].userId == u
  }

  function CoursesOf(s: State, t: Uuid): map<Uuid, Course> {
    map c | c in s.courses && s.courses[c].tenantId == t :: s.courses[c]
  }

  /** Lessons of a course by the relation, which joins on the course alone. */
  function LessonsIn(s: State, c: Uuid): map<Uuid, Lesson> {
    map l | l in s.lessons && s.lessons[l].courseId == c :: s.lessons[l]
  }

  function EnrollmentsIn(s: State, c: Uuid): map<Uuid, Enrollment> {
    map e | e in s.enrollments && s.enrollments[e].courseId == c :: s.enrollments[e]
  }

  /** The courses some enrollments belong to, which listings include. */
  function CoursesBehind(s: State, enrollments: map<Uuid, Enrollment>): map<Uuid, Course> {
    map c | c in s.courses && exists e :: e in enrollments && enrollments[e].courseId == c :: s.courses[c]
  }

  function WithCourses(s: State, enrollments: map<Uuid, Enrollment>): Reply {
    Rows(State(CoursesBehind(s, enrollments), map[], enrollments))
  }

  function ByCourse(s: State, t: Uuid, c: Uuid): map<Uuid, Enrollment> {
    map e | e in s.enrollments && HasEnrollment(s, t, e) && s.enrollments[e].courseId == c :: s.enrollments[e]
  }

  function ByUser(s: State, t: Uuid, u: Uuid): map<Uuid, Enrollment> {
    map e | e in s.enrollments && HasEnrollment(s, t, e) && s.enrollments[e].userId == u :: s.enrollments[e]
  }

  function MaxCourses(tier: Tier): Option<nat> {
    match tier
    case FREE => Some(3)
    case PRO => Some(100)
    case ENTERPRISE => None
  }

  predicate Owns(actor: Actor, e: Enrollment) {
    actor.role.Learner? ==> e.userId == actor.userId
  }

  // ---- Operations ------------------------------------------------------------------------------

  /** Deleting a course takes every lesson and enrollment of that course with it. */
  function WithoutCourse(s: State, c: Uuid): State {
    State(s.courses - {c},
          map l | l in s.lessons && s.lessons[l].courseId != c :: s.lessons[l],
          map e | e in s.enrollments && s.enrollments[e].courseId != c :: s.enrollments[e])
  }

  function CoursePart(s: State, t: Uuid, op: Op): Result
    requires op.ListCourses? || op.GetCourse? || op.CreateCourse? || op.UpdateCourse? || op.DeleteCourse?
  {
    match op
    case ListCourses =>
      var own := CoursesOf(s, t);
      Result(s, Overview(own, map c | c in own :: Counts(|LessonsIn(s, c)|, |EnrollmentsIn(s, c)|)))
    case GetCourse(c) =>
      if !HasCourse(s, t, c) then Fail(s, NotFound)
      else Result(s, Rows(State(map[c := s.courses[c]], LessonsIn(s, c), map[])))
    case CreateCourse(c, title, tier) =>
      var limit := MaxCourses(tier);
      if limit.Some? && |CoursesOf(s, t)| >= limit.value then Fail(s, CourseLimit(limit.value))
      else
        var row := Course(t, title);
        Result(s.(courses := s.courses[c := row]), Rows(State(map[c := row], map[], map[])))
    case UpdateCourse(c, title) =>
      if !HasCourse(s, t, c) then Fail(s, NotFound)
      else
        var row := s.courses[c].(title := title);
        Result(s.(courses := s.courses[c := row]), Rows(State(map[c := row], map[], map[])))
    case DeleteCourse(c) =>
      if !HasCourse(s, t, c) then Fail(s, NotFound) else Result(WithoutCourse(s, c), Done)
  }

  function PatchedLesson(row: Lesson, p: LessonPatch): Lesson {
    row.(title := p.title.GetOr(row.title), body := p.body.GetOr(row.body), sortOrder := p.sortOrder.GetOr(row.sortOrder))
  }

  function LessonPart(s: State, t: Uuid, op: Op): Result
    requires op.ListLessons? || op.GetLesson? || op.CreateLesson? || op.UpdateLesson? || op.DeleteLesson?
  {
    match op
    case ListLessons(c) =>
      if !HasCourse(s, t, c) then Fail(s, NotFound)
      else
        var own := map l | l in s.lessons && HasLesson(s, t, c, l) :: s.lessons[l];
        Result(s, Rows(State(map[], own, map[])))
    case GetLesson(c, l) =>
      if !HasLesson(s, t, c, l) then Fail(s, NotFound)
      else Result(s, Rows(State(map[], map[l := s.lessons[l]], map[])))
    case CreateLesson(l, c, title, body, sortOrder) =>
      if !HasCourse(s, t, c) then Fail(s, NotFound)
      else
        var row := Lesson(t, c, title, body, sortOrder);
        Result(s.(lessons := s.lessons[l := row]), Rows(State(map[], map[l := row], map[])))
    case UpdateLesson(c, l, p) =>
      if !HasLesson(s, t, c, l) then Fail(s, NotFound)
      else if p.title.None? && p.body.None? && p.sortOrder.None? then Fail(s, BadRequest)
      else
        var row := PatchedLesson(s.lessons[l], p);
        Result(s.(lessons := s.lessons[l := row]), Rows(State(map[], map[l := row], map[])))
    case DeleteLesson(c, l) =>
      if !HasLesson(s, t, c, l) then Fail(s, NotFound)
      else Result(s.(lessons := s.lessons - {l}), Done)
  }

  predicate IsEmptyPatch(p: Patch) {
    p.progress.None? && p.lessons.None? && p.completed.None? && !p.touch
  }

  function Patched(row: Enrollment, p: Patch, now: int): Enrollment {
    row.(progress := p.progress.GetOr(row.progress), lessons := p.lessons.GetOr(row.lessons),
         completedAt := match p.completed
                        case None => row.completedAt
                        case Some(done) => if done then Some(now) else None,
         lastAccessedAt := Some(now))
  }

  function EnrollmentPart(s: State, t: Uuid, op: Op): Result
    requires op.CreateEnrollment? || op.ListEnrollmentsByCourse? || op.ListEnrollmentsByUser?
      || op.GetEnrollment? || op.UpdateEnrollment? || op.DeleteEnrollment?
  {
    match op
    case CreateEnrollment(e, c, u) =>
      if !HasCourse(s, t, c) then Fail(s, NotFound)
      else if Enrolled(s, t, c, u) then Fail(s, AlreadyEnrolled)
      else
        var row := Enrollment(t, c, u, 0, 0, None, None);
        Result(s.(enrollments := s.enrollments[e := row]), WithCourses(s, map[e := row]))
    case ListEnrollmentsByCourse(c) =>
      if !HasCourse(s, t, c) then Fail(s, NotFound)
      else Result(s, WithCourses(s, ByCourse(s, t, c)))
    case ListEnrollmentsByUser(u) => Result(s, WithCourses(s, ByUser(s, t, u)))
    case GetEnrollment(e, actor) =>
      if !HasEnrollment(s, t, e) then Fail(s, NotFound)
      else if !Owns(actor, s.enrollments[e]) then Fail(s, NotYours)
      else Result(s, WithCourses(s, map[e := s.enrollments[e]]))
    case UpdateEnrollment(e, actor, p, now) =>
      if IsEmptyPatch(p) then Fail(s, BadRequest)
      else if !HasEnrollment(s, t, e) then Fail(s, NotFound)
      else if !Owns(actor, s.enrollments[e]) then Fail(s, NotYours)
      else
        var row := Patched(s.enrollments[e], p, now);
        Result(s.(enrollments := s.enrollments[e := row]), WithCourses(s, map[e := row]))
    case DeleteEnrollment(e) =>
      if !HasEnrollment(s, t, e) then Fail(s, NotFound)
      else Result(s.(enrollments := s.enrollments - {e}), Done)
  }

  function Apply(s: State, r: Request): Result {
    match r.op
    case ListCourses => CoursePart(s, r.tenantId, r.op)
    case GetCourse(_) => CoursePart(s, r.tenantId, r.op)
    case CreateCourse(_, _, _) => CoursePart(s, r.tenantId, r.op)
    case UpdateCourse(_, _) => CoursePart(s, r.tenantId, r.op)
    case DeleteCourse(_) => CoursePart(s, r.tenantId, r.op)
    case ListLessons(_) => LessonPart(s, r.tenantId, r.op)
    case GetLesson(_, _) => LessonPart(s, r.tenantId, r.op)
    case CreateLesson(_, _, _, _, _) => LessonPart(s, r.tenantId, r.op)
    case UpdateLesson(_, _, _) => LessonPart(s, r.tenantId, r.op)
    case DeleteLesson(_, _) => LessonPart(s, r.tenantId, r.op)
    case _ => EnrollmentPart(s, r.tenantId, r.op)
  }

  /** A creation request draws an id no row of its table has. */
  predicate Fresh(s: State, op: Op) {
    && (op.CreateCourse? ==> op.newId !in s.courses)
    && (op.CreateLesson? ==> op.newId !in s.lessons)
    && (op.CreateEnrollment? ==> op.newId !in s.enrollments)
  }

  ghost predicate FreshRun(s: State, rs: seq<Request>)
    decreases |rs|
  {
    rs != [] ==> Fresh(s, rs[0].op) && FreshRun(Apply(s, rs[0]).state, rs[1..])
  }

  function Run(s: State, rs: seq<Request>): State
    decreases |rs|
  {
    if rs == [] then s else Run(Apply(s, rs[0]).state, rs[1..])
  }

  /** The replies the requests of one tenant get. */
  function RepliesTo(s: State, rs: seq<Request>, t: Uuid): seq<Reply>
    decreases |rs|
  {
    if rs == [] then []
    else
      var r := Apply(s, rs[0]);
      (if rs[0].tenantId == t then [r.reply] else []) + RepliesTo(r.state, rs[1..], t)
  }
}
