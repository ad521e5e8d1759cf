/** Idempotency keys of learning events: what they name, how they are written, and that no two share a text. */
module LearningKeys {
  import opened Prelude

  datatype Key =
    | LessonStarted(enrollmentId: Uuid, lessons: nat, progress: nat, touched: bool)
    | LessonCompleted(enrollmentId: Uuid, lessons: nat)
    | CourseCompleted(enrollmentId: Uuid, at: int)
    | CertificationEarned(enrollmentId: Uuid, at: int)

  /** How the runtime writes ids and dates. */
  datatype Rendering = Rendering(id: Uuid -> string, date: int -> string)

  /** Ids are written without colons, and neither two ids nor two dates are written alike. Dates have colons. */
  ghost predicate Faithful(r: Rendering) {
    && (forall a :: ':' !in r.id(a))
    && (forall a, b :: r.id(a) == r.id(b) ==> a == b)
    && (forall a, b :: r.date(a) == r.date(b) ==> a == b)
  }

  const DIGITS: string := "0123456789"

  function Decimal(n: nat): (s: string)
    ensures |s| > 0 && ':' !in s
    ensures n >= 10 ==> |s| > 1
  {
    if n < 10 then [DIGITS[n]] else Decimal(n / 10) + [DIGITS[n % 10]]
  }

  /** The event type, which is also the second part of the key. */
  function Kind(k: Key): (s: string)
    ensures ':' !in s
  {
    match k
    case LessonStarted(_, _, _, _) => "lesson.started"
    case LessonCompleted(_, _) => "lesson.completed"
    case CourseCompleted(_, _) => "course.completed"
    case CertificationEarned(_, _) => "certification.earned"
  }

  function Fields(r: Rendering, k: Key): string {
    match k
    case LessonStarted(_, lessons, progress, touched) =>
      Decimal(lessons) + ":" + (Decimal(progress) + ":" + (if touched then "1" else "0"))
    case LessonCompleted(_, lessons) => Decimal(lessons)
    case CourseCompleted(_, at) => r.date(at)
    case CertificationEarned(_, at) => r.date(at)
  }

  function Text(r: Rendering, k: Key): string {
    r.id(k.enrollmentId) + ":" + (Kind(k) + ":" + Fields(r, k))
  }

  // ---- Injectivity -----------------------------------------------------------------------------

  lemma {:induction false} DecimalInjective(a: nat, b: nat)
    requires Decimal(a) == Decimal(b)
    ensures a == b
    decreases a
  {
    var s := Decimal(a);
    assert DIGITS[a % 10] == s[|s| - 1] == DIGITS[b % 10];
    assert a % 10 == b % 10;
    if a >= 10 {
      assert Decimal(a / 10) == s[..|s| - 1] == Decimal(b / 10);
      DecimalInjective(a / 10, b / 10);
    }
  }

  /** The first colon splits a text in only one way. */
  lemma SplitAtColon(a: string, b: string, x: string, y: string)
    requires ':' !in a && ':' !in b
    requires a + ":" + x == b + ":" + y
    ensures a == b && x == y
  {
    var s := a + ":" + x;
    assert forall i :: 0 <= i < |a| ==> s[i] == a[i];
    assert forall i :: 0 <= i < |b| ==> s[i] == b[i];
    assert s[|a|] == ':' && s[|b|] == ':';
    assert |a| == |b|;
    assert s[..|a|] == a && s[..|b|] == b;
    assert s[|a| + 1..] == x && s[|b| + 1..] == y;
  }

  lemma KindsDiffer(j: Key, k: Key)
    requires Kind(j) == Kind(k)
    ensures j.LessonStarted? <==> k.LessonStarted?
    ensures j.LessonCompleted? <==> k.LessonCompleted?
    ensures j.CourseCompleted? <==> k.CourseCompleted?
    ensures j.CertificationEarned? <==> k.CertificationEarned?
  {
    assert "lesson.completed"[0] != "course.completed"[0];
  }

  lemma FieldsInjective(r: Rendering, j: Key, k: Key)
    requires Faithful(r) && Kind(j) == Kind(k) && Fields(r, j) == Fields(r, k)
    ensures j == k.(enrollmentId := j.enrollmentId)
  {
    KindsDiffer(j, k);
    match j
    case LessonStarted(_, lessons, progress, touched) =>
      var jBit, kBit := if touched then "1" else "0", if k.touched then "1" else "0";
      SplitAtColon(Decimal(lessons), Decimal(k.lessons), Decimal(progress) + ":" + jBit, Decimal(k.progress) + ":" + kBit);
      SplitAtColon(Decimal(progress), Decimal(k.progress), jBit, kBit);
      DecimalInjective(lessons, k.lessons);
      DecimalInjective(progress, k.progress);
      assert touched <==> jBit[0] == '1';
      assert k.touched <==> kBit[0] == '1';
    case LessonCompleted(_, lessons) => DecimalInjective(lessons, k.lessons);
    case CourseCompleted(_, _) =>
    case CertificationEarned(_, _) =>
  }

  /** Two events with the same key text are the same event of the same enrollment. */
  lemma KeysInjective(r: Rendering, j: Key, k: Key)
    requires Faithful(r) && Text(r, j) == Text(r, k)
    ensures j == k
  {
    SplitAtColon(r.id(j.enrollmentId), r.id(k.enrollmentId),
                 Kind(j) + ":" + Fields(r, j), Kind(k) + ":" + Fields(r, k));
    SplitAtColon(Kind(j), Kind(k), Fields(r, j), Fields(r, k));
    FieldsInjective(r, j, k);
  }
}
