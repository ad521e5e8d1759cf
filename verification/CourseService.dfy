/** The course service over its tables, method by method; each is proved to answer one request of the store. */
module CourseService {
  import opened Prelude
  import opened Catalog
  import opened CourseStore
  import opened CourseIsolation

  predicate IsRead(op: Op) {
    op.ListCourses? || op.GetCourse? || op.ListLessons? || op.GetLesson?
    || op.ListEnrollmentsByCourse? || op.ListEnrollmentsByUser?
  }

  lemma ReadsOnly(s: State, q: Request)
    requires IsRead(q.op)
    ensures Apply(s, q).state == s
  {
  }

  /** The reply to every request, whoever sent it. */
  function AllReplies(s: State, qs: seq<Request>): seq<Reply>
    decreases |qs|
  {
    if qs == [] then []
    else
      var r := Apply(s, qs[0]);
      [r.reply] + AllReplies(r.state, qs[1..])
  }

  /** The replies to one tenant's requests. */
  function Addressed(qs: seq<Request>, replies: seq<Reply>, t: Uuid): seq<Reply> {
    if qs == [] || replies == [] then []
    else (if qs[0].tenantId == t then [replies[0]] else []) + Addressed(qs[1..], replies[1..], t)
  }

  lemma {:induction false} AddressedAre(s: State, qs: seq<Request>, t: Uuid)
    ensures Addressed(qs, AllReplies(s, qs), t) == RepliesTo(s, qs, t)
    decreases |qs|
  {
    hide Apply;
    if qs == [] {
    } else {
      var all := AllReplies(s, qs);
      assert all[1..] == AllReplies(Apply(s, qs[0]).state, qs[1..]);
      AddressedAre(Apply(s, qs[0]).state, qs[1..], t);
    }
  }

  class CourseServiceService {
    var courses: map<Uuid, Course>
    var lessons: map<Uuid, Lesson>
    var enrollments: map<Uuid, Enrollment>

    ghost function Contents(): State
      reads this
    {
      State(courses, lessons, enrollments)
    }

    constructor ()
      ensures Contents() == EMPTY && Inv(Contents())
    {
      courses, lessons, enrollments := map[], map[], map[];
    }

    // ---- Courses -------------------------------------------------------------------------------

    method AddCourse(tenantId: Uuid, newId: Uuid, title: string, tier: Tier) returns (reply: Reply)
      requires Inv(Contents()) && newId !in courses
      modifies `courses
      ensures Result(Contents(), reply)
           == Apply(old(Contents()), Request(tenantId, CreateCourse(newId, title, tier)))
      ensures Inv(Contents())
    {
      StepKeeps(Contents(), Request(tenantId, CreateCourse(newId, title, tier)));
      hide Inv;
      var maxCourses := MaxCourses(tier);
      if maxCourses.Some? {
        var count := |CoursesOf(State(courses, lessons, enrollments), tenantId)|;
        if count >= maxCourses.value {
          return Failed(CourseLimit(maxCourses.value));
        }
      }
      var row := Course(tenantId, title);
      courses := courses[newId := row];
      reply := Rows(State(map[newId := row], map[], map[]));
    }

    method RenameCourse(tenantId: Uuid, courseId: Uuid, title: string) returns (reply: Reply)
      requires Inv(Contents())
      modifies `courses
      ensures Result(Contents(), reply) == Apply(old(Contents()), Request(tenantId, UpdateCourse(courseId, title)))
      ensures Inv(Contents())
    {
      StepKeeps(Contents(), Request(tenantId, UpdateCourse(courseId, title)));
      hide Inv;
      if courseId !in courses || courses[courseId].tenantId != tenantId {
        return Failed(NotFound);
      }
      courses := courses[courseId := courses[courseId].(title := title)];
      reply := Rows(State(map[courseId := courses[courseId]], map[], map[]));
    }

    /** The database deletes the course's lessons and enrollments along with it. */
    method RemoveCourse(tenantId: Uuid, courseId: Uuid) returns (reply: Reply)
      requires Inv(Contents())
      modifies this
      ensures Result(Contents(), reply) == Apply(old(Contents()), Request(tenantId, DeleteCourse(courseId)))
      ensures Inv(Contents())
    {
      StepKeeps(Contents(), Request(tenantId, DeleteCourse(courseId)));
      hide Inv;
      if courseId !in courses || courses[courseId].tenantId != tenantId {
        return Failed(NotFound);
      }
      courses := courses - {courseId};
      lessons := map l | l in lessons && lessons[l].courseId != courseId :: lessons[l];
      enrollments := map e | e in enrollments && enrollments[e].courseId != courseId :: enrollments[e];
      reply := Done;
    }

    // ---- Lessons -------------------------------------------------------------------------------

    method AddLesson(tenantId: Uuid, newId: Uuid, courseId: Uuid, title: string, body: Option<string>, sortOrder: int)
      returns (reply: Reply)
      requires Inv(Contents()) && newId !in lessons
      modifies `lessons
      ensures Result(Contents(), reply)
           == Apply(old(Contents()), Request(tenantId, CreateLesson(newId, courseId, title, body, sortOrder)))
      ensures Inv(Contents())
    {
      StepKeeps(Contents(), Request(tenantId, CreateLesson(newId, courseId, title, body, sortOrder)));
      hide Inv;
      if courseId !in courses || courses[courseId].tenantId != tenantId {
        return Failed(NotFound);
      }
      lessons := lessons[newId := Lesson(tenantId, courseId, title, body, sortOrder)];
      reply := Rows(State(map[], map[newId := lessons[newId]], map[]));
    }

    method ChangeLesson(tenantId: Uuid, courseId: Uuid, lessonId: Uuid, patch: LessonPatch) returns (reply: Reply)
      requires Inv(Contents())
      modifies `lessons
      ensures Result(Contents(), reply)
           == Apply(old(Contents()), Request(tenantId, UpdateLesson(courseId, lessonId, patch)))
      ensures Inv(Contents())
    {
      StepKeeps(Contents(), Request(tenantId, UpdateLesson(courseId, lessonId, patch)));
      hide Inv;
      if !HasLesson(State(courses, lessons, enrollments), tenantId, courseId, lessonId) {
        return Failed(NotFound);
      }
      var row := lessons[lessonId];
      var fields := 0;
      if patch.title.Some? {
        row, fields := row.(title := patch.title.value), fields + 1;
      }
      if patch.body.Some? {
        row, fields := row.(body := patch.body.value), fields + 1;
      }
      if patch.sortOrder.Some? {
        row, fields := row.(sortOrder := patch.sortOrder.value), fields + 1;
      }
      if fields == 0 {
        return Failed(BadRequest);
      }
      lessons := lessons[lessonId := row];
      reply := Rows(State(map[], map[lessonId := row], map[]));
    }

    method RemoveLesson(tenantId: Uuid, courseId: Uuid, lessonId: Uuid) returns (reply: Reply)
      requires Inv(Contents())
      modifies `lessons
      ensures Result(Contents(), reply) == Apply(old(Contents()), Request(tenantId, DeleteLesson(courseId, lessonId)))
      ensures Inv(Contents())
    {
      StepKeeps(Contents(), Request(tenantId, DeleteLesson(courseId, lessonId)));
      hide Inv;
      if !HasLesson(State(courses, lessons, enrollments), tenantId, courseId, lessonId) {
        return Failed(NotFound);
      }
      lessons := lessons - {lessonId};
      reply := Done;
    }

    // ---- Enrollments ---------------------------------------------------------------------------

    /** The unique index on tenant, course and user turns a second enrollment into a conflict. */
    method Enroll(tenantId: Uuid, newId: Uuid, courseId: Uuid, userId: Uuid) returns (reply: Reply)
      requires Inv(Contents()) && newId !in enrollments
      modifies `enrollments
      ensures Result(Contents(), reply)
           == Apply(old(Contents()), Request(tenantId, CreateEnrollment(newId, courseId, userId)))
      ensures Inv(Contents())
    {
      StepKeeps(Contents(), Request(tenantId, CreateEnrollment(newId, courseId, userId)));
      hide Inv;
      if courseId !in courses || courses[courseId].tenantId != tenantId {
        return Failed(NotFound);
      }
      var row := Enrollment(tenantId, courseId, userId, 0, 0, None, None);
      if e :| e in enrollments && SamePlace(enrollments[e], row) {
        return Failed(AlreadyEnrolled);
      }
      enrollments := enrollments[newId := row];
      reply := WithCourses(State(courses, lessons, enrollments), map[newId := row]);
    }

    method ReadEnrollment(tenantId: Uuid, enrollmentId: Uuid, actor: Actor) returns (reply: Reply)
      ensures Result(Contents(), reply) == Apply(Contents(), Request(tenantId, GetEnrollment(enrollmentId, actor)))
    {
      if enrollmentId !in enrollments || enrollments[enrollmentId].tenantId != tenantId {
        return Failed(NotFound);
      }
      if actor.role.Learner? && enrollments[enrollmentId].userId != actor.userId {
        return Failed(NotYours);
      }
      reply := WithCourses(State(courses, lessons, enrollments), map[enrollmentId := enrollments[enrollmentId]]);
    }

    method ChangeEnrollment(tenantId: Uuid, enrollmentId: Uuid, actor: Actor, patch: Patch, now: int)
      returns (reply: Reply)
      requires Inv(Contents())
      modifies `enrollments
      ensures Result(Contents(), reply)
           == Apply(old(Contents()), Request(tenantId, UpdateEnrollment(enrollmentId, actor, patch, now)))
      ensures Inv(Contents())
    {
      StepKeeps(Contents(), Request(tenantId, UpdateEnrollment(enrollmentId, actor, patch, now)));
      hide Inv, WithCourses;
      if patch.progress.None? && patch.lessons.None? && patch.completed.None? && !patch.touch {
        return Failed(BadRequest);
      }
      if enrollmentId !in enrollments || enrollments[enrollmentId].tenantId != tenantId {
        return Failed(NotFound);
      }
      var row := enrollments[enrollmentId];
      if actor.role.Learner? && row.userId != actor.userId {
        return Failed(NotYours);
      }
      if patch.progress.Some? {
        row := row.(progress := patch.progress.value);
      }
      if patch.lessons.Some? {
        row := row.(lessons := patch.lessons.value);
      }
      if patch.completed.Some? {
        row := row.(completedAt := if patch.completed.value then Some(now) else None);
      }
      row := row.(lastAccessedAt := Some(now));
      enrollments := enrollments[enrollmentId := row];
      reply := WithCourses(State(courses, lessons, enrollments), map[enrollmentId := row]);
    }

    method RemoveEnrollment(tenantId: Uuid, enrollmentId: Uuid) returns (reply: Reply)
      requires Inv(Contents())
      modifies `enrollments
      ensures Result(Contents(), reply) == Apply(old(Contents()), Request(tenantId, DeleteEnrollment(enrollmentId)))
      ensures Inv(Contents())
    {
      StepKeeps(Contents(), Request(tenantId, DeleteEnrollment(enrollmentId)));
      hide Inv;
      if enrollmentId !in enrollments || enrollments[enrollmentId].tenantId != tenantId {
        return Failed(NotFound);
      }
      enrollments := enrollments - {enrollmentId};
      reply := Done;
    }

    // ---- Serving requests ----------------------------------------------------------------------

    /** Routes a message to its handler; listings and lookups only select rows. */
    method Handle(q: Request) returns (reply: Reply)
      requires Inv(Contents()) && Fresh(Contents(), q.op)
      modifies this
      ensures Result(Contents(), reply) == Apply(old(Contents()), q) && Inv(Contents())
    {
      hide Inv, CoursePart, EnrollmentPart, LessonPart;
      StepKeeps(Contents(), q);
      match q.op {
        case CreateCourse(id, title, tier) => reply := AddCourse(q.tenantId, id, title, tier);
        case UpdateCourse(c, title) => reply := RenameCourse(q.tenantId, c, title);
        case DeleteCourse(c) => reply := RemoveCourse(q.tenantId, c);
        case CreateLesson(id, c, title, body, order) => reply := AddLesson(q.tenantId, id, c, title, body, order);
        case UpdateLesson(c, l, patch) => reply := ChangeLesson(q.tenantId, c, l, patch);
        case DeleteLesson(c, l) => reply := RemoveLesson(q.tenantId, c, l);
        case CreateEnrollment(id, c, u) => reply := Enroll(q.tenantId, id, c, u);
        case GetEnrollment(e, actor) => reply := ReadEnrollment(q.tenantId, e, actor);
        case UpdateEnrollment(e, actor, patch, now) => reply := ChangeEnrollment(q.tenantId, e, actor, patch, now);
        case DeleteEnrollment(e) => reply := RemoveEnrollment(q.tenantId, e);
        case _ =>
          ReadsOnly(Contents(), q);
          reply := Apply(State(courses, lessons, enrollments), q).reply;
      }
    }

    /**
     Any sequence of requests is a run of the store; so each tenant ends up with the rows it would have on a
     store of its own, and gets the replies it would get there.
     */
    method Serve(qs: seq<Request>) returns (replies: seq<Reply>)
      requires Inv(Contents()) && FreshRun(Contents(), qs)
      modifies this
      ensures Contents() == Run(old(Contents()), qs) && replies == AllReplies(old(Contents()), qs)
      ensures Inv(Contents())
      ensures forall t :: View(Contents(), t) == Run(View(old(Contents()), t), RequestsOf(qs, t))
      ensures forall t :: Addressed(qs, replies, t) == RepliesTo(View(old(Contents()), t), RequestsOf(qs, t), t)
    {
      hide Inv, Apply, Fresh, View;
      ghost var start := Contents();
      replies := [];
      for i := 0 to |qs|
        invariant Inv(Contents()) && FreshRun(Contents(), qs[i..])
        invariant Run(Contents(), qs[i..]) == Run(start, qs)
        invariant replies + AllReplies(Contents(), qs[i..]) == AllReplies(start, qs)
      {
        assert qs[i..][0] == qs[i] && qs[i..][1..] == qs[i + 1..];
        var reply := Handle(qs[i]);
        replies := replies + [reply];
      }
      assert replies == AllReplies(start, qs);
      forall t ensures View(Contents(), t) == Run(View(start, t), RequestsOf(qs, t))
        && Addressed(qs, replies, t) == RepliesTo(View(start, t), RequestsOf(qs, t), t)
      {
        RunProjects(start, qs, t);
        AddressedAre(start, qs, t);
      }
    }
  }
}
