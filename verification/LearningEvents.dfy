/**
 Learning events: the gateway turns the difference an enrollment update makes into messages, which reach the
 outbox in any order, repeatedly or not at all, while the outbox goes about its other business.
 */
module LearningEvents {
  import opened Prelude
  import opened CourseStore
  import opened LearningKeys
  import O = Outbox

  // ---- From a difference to messages -----------------------------------------------------------

  /** An enrollment before and after an update, and whether the caller asked to touch it. */
  datatype Change = Change(id: Uuid, before: Enrollment, after: Enrollment, touched: bool, actorId: Uuid)

  datatype Metadata =
    | Progress(trigger: string, actorId: Uuid, progress: nat, lessons: nat)
    | Lessons(actorId: Uuid, lessons: nat, delta: int)
    | Completion(actorId: Uuid, completedAt: string)
    | Certification(actorId: Uuid, source: string)

  datatype Message = Message(
    tenantId: Uuid, userId: Uuid, courseId: Uuid, enrollmentId: Uuid, occurredAt: string,
    eventType: string, key: string, metadata: Metadata)

  /** Which events a change is. */
  predicate Due(c: Change, k: Key) {
    && k.enrollmentId == c.id
    && match k
      case LessonStarted(_, lessons, progress, touched) =>
        && lessons == c.after.lessons && progress == c.after.progress && touched == c.touched
        && (c.touched || c.after.progress > c.before.progress || c.after.lessons > c.before.lessons)
      case LessonCompleted(_, lessons) => lessons == c.after.lessons > c.before.lessons
      case CourseCompleted(_, at) => c.before.completedAt.None? && c.after.completedAt == Some(at)
      case CertificationEarned(_, at) => c.before.completedAt.None? && c.after.completedAt == Some(at)
  }

  function MetadataOf(r: Rendering, c: Change, k: Key): Metadata {
    match k
    case LessonStarted(_, lessons, progress, touched) =>
      Progress(if touched then "touch-access" else "progress", c.actorId, progress, lessons)
    case LessonCompleted(_, lessons) => Lessons(c.actorId, lessons, lessons - c.before.lessons)
    case CourseCompleted(_, at) => Completion(c.actorId, r.date(at))
    case CertificationEarned(_, _) => Certification(c.actorId, "course-completion")
  }

  function MessageOf(r: Rendering, c: Change, at: int, k: Key): Message {
    Message(c.after.tenantId, c.after.userId, c.after.courseId, c.id, r.date(at),
            Kind(k), Text(r, k), MetadataOf(r, c, k))
  }

  /** The messages in plain terms: what each kind of event is called, keyed by and tells. */
  lemma MessageSpelledOut(r: Rendering, c: Change, at: int, k: Key)
    requires Due(c, k)
    ensures
      var m, id := MessageOf(r, c, at, k), r.id(c.id);
      && m.tenantId == c.after.tenantId && m.userId == c.after.userId && m.courseId == c.after.courseId
      && m.enrollmentId == c.id && m.occurredAt == r.date(at)
      && match k
        case LessonStarted(_, lessons, progress, touched) =>
          && m.eventType == "lesson.started"
          && m.key == id + ":" + ("lesson.started" + ":" + (Decimal(c.after.lessons) + ":" + (Decimal(c.after.progress)
                           + ":" + (if c.touched then "1" else "0"))))
          && m.metadata == Progress(if c.touched then "touch-access" else "progress",
                                    c.actorId, c.after.progress, c.after.lessons)
        case LessonCompleted(_, lessons) =>
          && m.eventType == "lesson.completed"
          && m.key == id + ":" + ("lesson.completed" + ":" + Decimal(c.after.lessons))
          && m.metadata == Lessons(c.actorId, c.after.lessons, c.after.lessons - c.before.lessons)
        case CourseCompleted(_, _) =>
          && c.after.completedAt.Some? && m.eventType == "course.completed"
          && m.key == id + ":" + ("course.completed" + ":" + r.date(c.after.completedAt.value))
          && m.metadata == Completion(c.actorId, r.date(c.after.completedAt.value))
        case CertificationEarned(_, _) =>
          && c.after.completedAt.Some? && m.eventType == "certification.earned"
          && m.key == id + ":" + ("certification.earned" + ":" + r.date(c.after.completedAt.value))
          && m.metadata == Certification(c.actorId, "course-completion")
  {
  }

  /** The events a change is, in the order their messages are pushed. */
  ghost function DueKeys(c: Change): seq<Key> {
    (if c.touched || c.after.progress > c.before.progress || c.after.lessons > c.before.lessons
     then [LessonStarted(c.id, c.after.lessons, c.after.progress, c.touched)] else [])
    + (if c.after.lessons > c.before.lessons then [LessonCompleted(c.id, c.after.lessons)] else [])
    + (if c.before.completedAt.None? && c.after.completedAt.Some?
       then [CourseCompleted(c.id, c.after.completedAt.value), CertificationEarned(c.id, c.after.completedAt.value)]
       else [])
  }

  lemma DueKeysAreDue(c: Change)
    ensures forall k :: k in DueKeys(c) <==> Due(c, k)
    ensures Distinct(DueKeys(c))
  {
  }

  lemma MessagesDiffer(r: Rendering, c: Change, at: int, j: Key, k: Key)
    requires Due(c, j) && Due(c, k) && j != k
    ensures MessageOf(r, c, at, j) != MessageOf(r, c, at, k)
  {
    hide Text, Kind;
  }

  /** The messages of the due events, one by one, are what the method below promises. */
  lemma MessagesOfKeys(r: Rendering, c: Change, at: int, events: seq<Message>)
    requires |events| == |DueKeys(c)|
    requires forall i :: 0 <= i < |events| ==> events[i] == MessageOf(r, c, at, DueKeys(c)[i])
    ensures forall k :: Due(c, k) ==> MessageOf(r, c, at, k) in events
    ensures forall m :: m in events ==> exists k :: Due(c, k) && MessageOf(r, c, at, k) == m
    ensures Distinct(events)
  {
    hide Due, DueKeys, MessageOf;
    DueKeysAreDue(c);
    var keys := DueKeys(c);
    forall i, j | 0 <= i < j < |events| ensures events[i] != events[j] {
      assert keys[i] in keys && keys[j] in keys;
      MessagesDiffer(r, c, at, keys[i], keys[j]);
    }
    forall k | Due(c, k) ensures MessageOf(r, c, at, k) in events {
      var i :| 0 <= i < |keys| && keys[i] == k;
      assert events[i] == MessageOf(r, c, at, k);
    }
    forall m | m in events ensures exists k :: Due(c, k) && MessageOf(r, c, at, k) == m {
      var i :| 0 <= i < |events| && events[i] == m;
      assert keys[i] in keys;
    }
  }

  /** The four messages, as the code writes them. */
  function Started(r: Rendering, c: Change, at: int): Message {
    var trigger := if c.touched then "touch-access" else "progress";
    Message(c.after.tenantId, c.after.userId, c.after.courseId, c.id, r.date(at), "lesson.started",
            Text(r, LessonStarted(c.id, c.after.lessons, c.after.progress, c.touched)),
            Progress(trigger, c.actorId, c.after.progress, c.after.lessons))
  }

  function LessonDone(r: Rendering, c: Change, at: int): Message {
    Message(c.after.tenantId, c.after.userId, c.after.courseId, c.id, r.date(at), "lesson.completed",
            Text(r, LessonCompleted(c.id, c.after.lessons)),
            Lessons(c.actorId, c.after.lessons, c.after.lessons - c.before.lessons))
  }

  function CourseDone(r: Rendering, c: Change, at: int, completedAt: int): Message {
    Message(c.after.tenantId, c.after.userId, c.after.courseId, c.id, r.date(at), "course.completed",
            Text(r, CourseCompleted(c.id, completedAt)), Completion(c.actorId, r.date(completedAt)))
  }

  function Certified(r: Rendering, c: Change, at: int, completedAt: int): Message {
    Message(c.after.tenantId, c.after.userId, c.after.courseId, c.id, r.date(at), "certification.earned",
            Text(r, CertificationEarned(c.id, completedAt)), Certification(c.actorId, "course-completion"))
  }

  lemma MessagesFit(r: Rendering, c: Change, at: int)
    ensures Started(r, c, at)
         == MessageOf(r, c, at, LessonStarted(c.id, c.after.lessons, c.after.progress, c.touched))
    ensures LessonDone(r, c, at) == MessageOf(r, c, at, LessonCompleted(c.id, c.after.lessons))
    ensures forall t :: CourseDone(r, c, at, t) == MessageOf(r, c, at, CourseCompleted(c.id, t))
    ensures forall t :: Certified(r, c, at, t) == MessageOf(r, c, at, CertificationEarned(c.id, t))
  {
    hide Text;
  }

  /**
   Pushes one message per event onto a list, under one condition after the other. The messages are those of
   the events that are due, each of them once.
   */
  method EmitLearningEventsFromEnrollmentUpdate(r: Rendering, c: Change, at: int)
    returns (events: seq<Message>)
    ensures forall k :: Due(c, k) ==> MessageOf(r, c, at, k) in events
    ensures forall m :: m in events ==> exists k :: Due(c, k) && MessageOf(r, c, at, k) == m
    ensures Distinct(events)
  {
    MessagesFit(r, c, at);
    hide Due, Distinct, MessageOf, Started, LessonDone, CourseDone, Certified;
    var before, after := c.before, c.after;
    events := [];
    var progressIncreased := after.progress > before.progress;
    var lessonsIncreased := after.lessons > before.lessons;
    var completedNow := before.completedAt.None? && after.completedAt.Some?;
    if c.touched || progressIncreased || lessonsIncreased {
      events := events + [Started(r, c, at)];
    }
    if lessonsIncreased {
      events := events + [LessonDone(r, c, at)];
    }
    if completedNow {
      var completedAt := after.completedAt.value;
      events := events + [CourseDone(r, c, at, completedAt)];
      events := events + [Certified(r, c, at, completedAt)];
    }
    MessagesOfKeys(r, c, at, events);
  }

  // ---- The gateway -----------------------------------------------------------------------------

  datatype Served = Served(result: Result, change: Option<Change>)

  /** updateEnrollment reads the row, then updates it, and hands on the difference if both worked. */
  function Gateway(s: State, q: Request): Served {
    if !q.op.UpdateEnrollment? then Served(Apply(s, q), None)
    else
      var read := Apply(s, Request(q.tenantId, GetEnrollment(q.op.enrollmentId, q.op.actor)));
      if read.reply.Failed? then Served(read, None)
      else
        var updated := Apply(s, q);
        if updated.reply.Failed? then Served(updated, None)
        else
          var id := q.op.enrollmentId;
          Served(updated, Some(Change(id, read.reply.rows.enrollments[id], updated.reply.rows.enrollments[id],
                                      q.op.patch.touch, q.op.actor.userId)))
  }

  /**
   The gateway leaves the store as the course service would alone; what it hands on is the row before and
   after; and no other enrollment that is still there has changed.
   */
  lemma DifferenceIsReal(s: State, q: Request, e: Uuid)
    requires Fresh(s, q.op)
    ensures Gateway(s, q).result.state == Apply(s, q).state
    ensures Gateway(s, q).result.reply.Failed? <==> Apply(s, q).reply.Failed?
    ensures !Apply(s, q).reply.Failed? ==> Gateway(s, q).result.reply == Apply(s, q).reply
    ensures Gateway(s, q).change.Some? <==> q.op.UpdateEnrollment? && !Apply(s, q).reply.Failed?
    ensures Gateway(s, q).change.Some? ==>
      var c := Gateway(s, q).change.value;
      c.id == q.op.enrollmentId && c.touched == q.op.patch.touch && c.actorId == q.op.actor.userId
    ensures
      var s', change := Apply(s, q).state, Gateway(s, q).change;
      && (change.Some? && change.value.id == e ==>
            e in s.enrollments && e in s'.enrollments
            && s.enrollments[e] == change.value.before && s'.enrollments[e] == change.value.after)
      && (e in s.enrollments && e in s'.enrollments && s.enrollments[e] != s'.enrollments[e] ==>
            change.Some? && change.value.id == e)
  {
    match q.op
    case UpdateEnrollment(_, _, _, _) => hide CoursesBehind;
    case DeleteCourse(_) =>
    case _ =>
  }

  // ---- Gateway, course store and outbox together -----------------------------------------------

  datatype World = World(store: State, outbox: O.State)

  /** A request at the gateway, and what happens at the outbox until the next one. */
  datatype Action = Action(request: Request, traffic: seq<O.Step>)

  function StoreAfter(s: State, actions: seq<Action>): State {
    if actions == [] then s
    else Gateway(StoreAfter(s, actions[..|actions| - 1]), actions[|actions| - 1].request).result.state
  }

  /** Every change of a run, in order. */
  function Changes(s: State, actions: seq<Action>): seq<Change> {
    if actions == [] then []
    else
      var last, front := actions[|actions| - 1], actions[..|actions| - 1];
      var change := Gateway(StoreAfter(s, front), last.request).change;
      Changes(s, front) + if change.None? then [] else [change.value]
  }

  /** The message of an event that a change is, as the outbox is asked to store it, with some payload. */
  predicate Posted(r: Rendering, c: Change, k: Key, op: O.Op) {
    op.Ingest? && Due(c, k) && op.tenantId == c.after.tenantId && op.eventType == Kind(k) && op.key == Text(r, k)
  }

  /** Whatever arrives at the outbox is a message of a change made by then, however long ago. */
  ghost predicate IsPost(r: Rendering, changes: seq<Change>, op: O.Op) {
    op.Ingest? ==> exists i, k :: 0 <= i < |changes| && Posted(r, changes[i], k, op)
  }

  ghost predicate AllowedRun(r: Rendering, cfg: O.Config, w: World, actions: seq<Action>)
    decreases |actions|, 0
  {
    actions != [] ==>
      var front, last := actions[..|actions| - 1], actions[|actions| - 1];
      && AllowedRun(r, cfg, w, front)
      && Fresh(StoreAfter(w.store, front), last.request.op)
      && O.LegalRun(cfg, OutboxAfter(r, cfg, w, front), last.traffic)
      && forall i :: 0 <= i < |last.traffic| ==> IsPost(r, Changes(w.store, actions), last.traffic[i].op)
  }

  ghost function OutboxAfter(r: Rendering, cfg: O.Config, w: World, actions: seq<Action>): O.State
    requires AllowedRun(r, cfg, w, actions)
    decreases |actions|, 1
  {
    if actions == [] then w.outbox
    else O.Run(cfg, OutboxAfter(r, cfg, w, actions[..|actions| - 1]), actions[|actions| - 1].traffic)
  }

  function Ingested(traffic: seq<O.Step>): set<string> {
    set n | 0 <= n < |traffic| && traffic[n].op.Ingest? :: traffic[n].op.key
  }

  /** The keys of the messages that arrived during a run. */
  function Arrived(actions: seq<Action>): set<string> {
    if actions == [] then {} else Arrived(actions[..|actions| - 1]) + Ingested(actions[|actions| - 1].traffic)
  }

  function Begin(clock: int): World {
    World(EMPTY, O.Initial(clock))
  }
}
