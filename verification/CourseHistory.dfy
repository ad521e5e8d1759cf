/** The rows of the course store are the accepted requests read back, column by column. */
module CourseHistory {
  import opened Prelude
  import opened CourseStore

  predicate Accepted(s: State, q: Request) {
    !Apply(s, q).reply.Failed?
  }

  // ---- Courses ---------------------------------------------------------------------------------

  /** A course's tenant and title after one more request. */
  function CourseTold(s: State, q: Request, c: Uuid, told: Option<Course>): Option<Course> {
    if !Accepted(s, q) then told
    else
      match q.op
      case CreateCourse(id, title, _) => if id == c then Some(Course(q.tenantId, title)) else told
      case UpdateCourse(id, title) => if id == c && told.Some? then Some(Course(told.value.tenantId, title)) else told
      case DeleteCourse(id) => if id == c then None else told
      case _ => told
  }

  function CourseHeard(s: State, qs: seq<Request>, c: Uuid, told: Option<Course>): Option<Course>
    decreases |qs|
  {
    if qs == [] then told else CourseHeard(Apply(s, qs[0]).state, qs[1..], c, CourseTold(s, qs[0], c, told))
  }

  // ---- Lessons ---------------------------------------------------------------------------------

  /** How a lesson came to be, and the patches accepted since. */
  datatype LessonStory = LessonStory(
    tenantId: Uuid, courseId: Uuid, title: string, body: Option<string>, sortOrder: int, patches: seq<LessonPatch>)

  function LastTitle(patches: seq<LessonPatch>, first: string): string {
    if patches == [] then first
    else if patches[|patches| - 1].title.Some? then patches[|patches| - 1].title.value
    else LastTitle(patches[..|patches| - 1], first)
  }

  function LastBody(patches: seq<LessonPatch>, first: Option<string>): Option<string> {
    if patches == [] then first
    else if patches[|patches| - 1].body.Some? then patches[|patches| - 1].body.value
    else LastBody(patches[..|patches| - 1], first)
  }

  function LastOrder(patches: seq<LessonPatch>, first: int): int {
    if patches == [] then first
    else if patches[|patches| - 1].sortOrder.Some? then patches[|patches| - 1].sortOrder.value
    else LastOrder(patches[..|patches| - 1], first)
  }

  function LessonTold(s: State, q: Request, l: Uuid, told: Option<LessonStory>): Option<LessonStory> {
    if !Accepted(s, q) then told
    else
      match q.op
      case CreateLesson(id, c, title, body, sortOrder) =>
        if id == l then Some(LessonStory(q.tenantId, c, title, body, sortOrder, [])) else told
      case UpdateLesson(_, id, patch) =>
        if id == l && told.Some? then Some(told.value.(patches := told.value.patches + [patch])) else told
      case DeleteLesson(_, id) => if id == l then None else told
      case DeleteCourse(c) => if told.Some? && told.value.courseId == c then None else told
      case _ => told
  }

  function LessonHeard(s: State, qs: seq<Request>, l: Uuid, told: Option<LessonStory>): Option<LessonStory>
    decreases |qs|
  {
    if qs == [] then told else LessonHeard(Apply(s, qs[0]).state, qs[1..], l, LessonTold(s, qs[0], l, told))
  }

  predicate LessonAsTold(s: State, l: Uuid, told: Option<LessonStory>) {
    && (l in s.lessons <==> told.Some?)
    && (told.Some? ==>
          var row, story := s.lessons[l], told.value;
          && row.tenantId == story.tenantId && row.courseId == story.courseId
          && row.title == LastTitle(story.patches, story.title)
          && row.body == LastBody(story.patches, story.body)
          && row.sortOrder == LastOrder(story.patches, story.sortOrder))
  }

  // ---- Enrollments -----------------------------------------------------------------------------

  datatype Update = Update(patch: Patch, now: int)

  /** Who was enrolled in what, and the updates accepted since. */
  datatype EnrollmentStory = EnrollmentStory(tenantId: Uuid, courseId: Uuid, userId: Uuid, updates: seq<Update>)

  function LastProgress(updates: seq<Update>): nat {
    if updates == [] then 0
    else if updates[|updates| - 1].patch.progress.Some? then updates[|updates| - 1].patch.progress.value
    else LastProgress(updates[..|updates| - 1])
  }

  function LastLessons(updates: seq<Update>): nat {
    if updates == [] then 0
    else if updates[|updates| - 1].patch.lessons.Some? then updates[|updates| - 1].patch.lessons.value
    else LastLessons(updates[..|updates| - 1])
  }

  function LastCompletion(updates: seq<Update>): Option<int> {
    if updates == [] then None
    else
      match updates[|updates| - 1].patch.completed
      case Some(true) => Some(updates[|updates| - 1].now)
      case Some(false) => None
      case None => LastCompletion(updates[..|updates| - 1])
  }

  function LastAccess(updates: seq<Update>): Option<int> {
    if updates == [] then None else Some(updates[|updates| - 1].now)
  }

  function EnrollmentTold(s: State, q: Request, e: Uuid, told: Option<EnrollmentStory>): Option<EnrollmentStory> {
    if !Accepted(s, q) then told
    else
      match q.op
      case CreateEnrollment(id, c, u) => if id == e then Some(EnrollmentStory(q.tenantId, c, u, [])) else told
      case UpdateEnrollment(id, _, patch, now) =>
        if id == e && told.Some? then Some(told.value.(updates := told.value.updates + [Update(patch, now)])) else told
      case DeleteEnrollment(id) => if id == e then None else told
      case DeleteCourse(c) => if told.Some? && told.value.courseId == c then None else told
      case _ => told
  }

  function EnrollmentHeard(s: State, qs: seq<Request>, e: Uuid, told: Option<EnrollmentStory>): Option<EnrollmentStory>
    decreases |qs|
  {
    if qs == [] then told else EnrollmentHeard(Apply(s, qs[0]).state, qs[1..], e, EnrollmentTold(s, qs[0], e, told))
  }

  predicate EnrollmentAsTold(s: State, e: Uuid, told: Option<EnrollmentStory>) {
    && (e in s.enrollments <==> told.Some?)
    && (told.Some? ==>
          var row, story := s.enrollments[e], told.value;
          && row.tenantId == story.tenantId && row.courseId == story.courseId && row.userId == story.userId
          && row.progress == LastProgress(story.updates) && row.lessons == LastLessons(story.updates)
          && row.completedAt == LastCompletion(story.updates) && row.lastAccessedAt == LastAccess(story.updates))
  }

  // ---- One request -----------------------------------------------------------------------------

  lemma CourseStep(s: State, q: Request, c: Uuid)
    requires Fresh(s, q.op)
    ensures
      var told := if c in s.courses then Some(s.courses[c]) else None;
      var s' := Apply(s, q).state;
      CourseTold(s, q, c, told) == if c in s'.courses then Some(s'.courses[c]) else None
  {
    hide CoursesBehind, CoursesOf, LessonsIn, EnrollmentsIn, Enrolled, ByCourse, ByUser, Patched, PatchedLesson;
  }

  lemma LessonPatchTold(story: LessonStory, row: Lesson, patch: LessonPatch)
    requires row.title == LastTitle(story.patches, story.title) && row.body == LastBody(story.patches, story.body)
    requires row.sortOrder == LastOrder(story.patches, story.sortOrder)
    ensures
      var row', all := PatchedLesson(row, patch), story.patches + [patch];
      && row'.tenantId == row.tenantId && row'.courseId == row.courseId
      && row'.title == LastTitle(all, story.title) && row'.body == LastBody(all, story.body)
      && row'.sortOrder == LastOrder(all, story.sortOrder)
  {
    assert (story.patches + [patch])[..|story.patches|] == story.patches;
  }

  lemma LessonStep(s: State, q: Request, l: Uuid, told: Option<LessonStory>)
    requires Fresh(s, q.op) && LessonAsTold(s, l, told)
    ensures LessonAsTold(Apply(s, q).state, l, LessonTold(s, q, l, told))
  {
    if q.op.UpdateLesson? && told.Some? {
      LessonPatchTold(told.value, s.lessons[l], q.op.lessonPatch);
    }
    hide CoursesBehind, CoursesOf, LessonsIn, EnrollmentsIn, Enrolled, ByCourse, ByUser, Patched, PatchedLesson;
  }

  lemma PatchTold(story: EnrollmentStory, row: Enrollment, patch: Patch, now: int)
    requires row.progress == LastProgress(story.updates) && row.lessons == LastLessons(story.updates)
    requires row.completedAt == LastCompletion(story.updates)
    ensures
      var row', all := Patched(row, patch, now), story.updates + [Update(patch, now)];
      && row'.tenantId == row.tenantId && row'.courseId == row.courseId && row'.userId == row.userId
      && row'.progress == LastProgress(all) && row'.lessons == LastLessons(all)
      && row'.completedAt == LastCompletion(all) && row'.lastAccessedAt == LastAccess(all)
  {
    assert (story.updates + [Update(patch, now)])[..|story.updates|] == story.updates;
  }

  lemma EnrollmentStep(s: State, q: Request, e: Uuid, told: Option<EnrollmentStory>)
    requires Fresh(s, q.op) && EnrollmentAsTold(s, e, told)
    ensures EnrollmentAsTold(Apply(s, q).state, e, EnrollmentTold(s, q, e, told))
  {
    if q.op.UpdateEnrollment? && told.Some? {
      PatchTold(told.value, s.enrollments[e], q.op.patch, q.op.now);
    }
    hide CoursesBehind, CoursesOf, LessonsIn, EnrollmentsIn, Enrolled, ByCourse, ByUser, Patched, PatchedLesson;
  }

  // ---- Runs ------------------------------------------------------------------------------------

  lemma {:induction false} RunTold(
    s: State, qs: seq<Request>, c: Uuid, l: Uuid, e: Uuid,
    lesson: Option<LessonStory>, enrollment: Option<EnrollmentStory>)
    requires FreshRun(s, qs) && LessonAsTold(s, l, lesson) && EnrollmentAsTold(s, e, enrollment)
    ensures
      var s', told := Run(s, qs), if c in s.courses then Some(s.courses[c]) else None;
      && CourseHeard(s, qs, c, told) == (if c in s'.courses then Some(s'.courses[c]) else None)
      && LessonAsTold(s', l, LessonHeard(s, qs, l, lesson))
      && EnrollmentAsTold(s', e, EnrollmentHeard(s, qs, e, enrollment))
    decreases |qs|
  {
    hide Apply, Fresh, CourseTold, LessonTold, EnrollmentTold, LessonAsTold, EnrollmentAsTold;
    if qs == [] {
    } else {
      CourseStep(s, qs[0], c);
      LessonStep(s, qs[0], l, lesson);
      EnrollmentStep(s, qs[0], e, enrollment);
      RunTold(Apply(s, qs[0]).state, qs[1..], c, l, e,
              LessonTold(s, qs[0], l, lesson), EnrollmentTold(s, qs[0], e, enrollment));
    }
  }

  // ---- Theorems --------------------------------------------------------------------------------

  /**
   In every run, an enrollment is there exactly if it was created and neither it nor its course was deleted
   since. Its tenant, course and user are those of its creation; its progress and its lessons are the values of
   the last accepted updates that carried them, or 0; it was completed when the last accepted update that
   carried a completion said so, or not at all; and it was last accessed at its last accepted update.
   */
  lemma EnrollmentIsItsUpdates(qs: seq<Request>, e: Uuid)
    requires FreshRun(EMPTY, qs)
    ensures EnrollmentAsTold(Run(EMPTY, qs), e, EnrollmentHeard(EMPTY, qs, e, None))
  {
    RunTold(EMPTY, qs, 0, 0, e, None, None);
  }

  /** A lesson likewise: its title, body and place are those of the last patches that carried them. */
  lemma LessonIsItsPatches(qs: seq<Request>, l: Uuid)
    requires FreshRun(EMPTY, qs)
    ensures LessonAsTold(Run(EMPTY, qs), l, LessonHeard(EMPTY, qs, l, None))
  {
    RunTold(EMPTY, qs, 0, l, 0, None, None);
  }

  /** A course is there exactly if it was created and not deleted since, under its last accepted title. */
  lemma CourseIsItsTitle(qs: seq<Request>, c: Uuid)
    requires FreshRun(EMPTY, qs)
    ensures
      var s := Run(EMPTY, qs);
      CourseHeard(EMPTY, qs, c, None) == if c in s.courses then Some(s.courses[c]) else None
  {
    RunTold(EMPTY, qs, c, 0, 0, None, None);
  }
}
