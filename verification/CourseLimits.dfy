/** How many courses a tenant can have. */
module CourseLimits {
  import opened Prelude
  import opened Catalog
  import opened CourseStore
  import opened CourseIsolation

  /** Every course the tenant creates, it creates on this tier or a lower one. */
  predicate NeverAbove(rs: seq<Request>, t: Uuid, tier: Tier) {
    forall i :: 0 <= i < |rs| && rs[i].tenantId == t && rs[i].op.CreateCourse? ==> Rank(rs[i].op.tier) <= Rank(tier)
  }

  lemma LimitsGrow(low: Tier, high: Tier)
    requires Rank(low) <= Rank(high) && MaxCourses(high).Some?
    ensures MaxCourses(low).Some? && MaxCourses(low).value <= MaxCourses(high).value
  {
  }

  lemma FewerCourses(s: State, s': State, t: Uuid)
    requires CoursesOf(s', t).Keys <= CoursesOf(s, t).Keys
    ensures |CoursesOf(s', t)| <= |CoursesOf(s, t)|
  {
    SubsetCardinality(CoursesOf(s', t).Keys, CoursesOf(s, t).Keys);
    assert |CoursesOf(s', t)| == |CoursesOf(s', t).Keys| && |CoursesOf(s, t)| == |CoursesOf(s, t).Keys|;
  }

  lemma OneMoreCourse(s: State, t: Uuid, c: Uuid, title: string)
    requires c !in s.courses
    ensures |CoursesOf(s.(courses := s.courses[c := Course(t, title)]), t)| == |CoursesOf(s, t)| + 1
  {
    assert CoursesOf(s.(courses := s.courses[c := Course(t, title)]), t) == CoursesOf(s, t)[c := Course(t, title)];
  }

  /** Only a creation by the tenant itself, below its limit, adds to its courses. */
  lemma StepKeepsLimit(s: State, r: Request, t: Uuid, tier: Tier)
    requires Inv(s) && Fresh(s, r.op) && MaxCourses(tier).Some? && |CoursesOf(s, t)| <= MaxCourses(tier).value
    requires NeverAbove([r], t, tier)
    ensures |CoursesOf(Apply(s, r).state, t)| <= MaxCourses(tier).value
  {
    if r.tenantId != t {
      ElsewhereUntouched(s, r, t);
      assert CoursesOf(Apply(s, r).state, t) == View(Apply(s, r).state, t).courses;
    } else if r.op.CreateCourse? {
      assert [r][0] == r;
      LimitsGrow(r.op.tier, tier);
      OneMoreCourse(s, t, r.op.newId, r.op.title);
    } else {
      FewerCourses(s, Apply(s, r).state, t);
    }
  }

  lemma {:induction false} RunKeepsLimit(s: State, rs: seq<Request>, t: Uuid, tier: Tier)
    requires Inv(s) && FreshRun(s, rs) && NeverAbove(rs, t, tier)
    requires MaxCourses(tier).Some? && |CoursesOf(s, t)| <= MaxCourses(tier).value
    ensures |CoursesOf(Run(s, rs), t)| <= MaxCourses(tier).value
    decreases |rs|
  {
    hide Inv, Apply, Fresh, CoursesOf, MaxCourses;
    if rs == [] {
    } else {
      StepKeeps(s, rs[0]);
      StepKeepsLimit(s, rs[0], t, tier);
      RunKeepsLimit(Apply(s, rs[0]).state, rs[1..], t, tier);
    }
  }

  /**
   Whatever is created and deleted in whatever order, a tenant that only ever creates courses on this tier or
   a lower one never has more than the tier allows: 3 on FREE, 100 on PRO.
   */
  lemma CourseLimitKept(rs: seq<Request>, t: Uuid, tier: Tier)
    requires FreshRun(EMPTY, rs) && NeverAbove(rs, t, tier) && tier != ENTERPRISE
    ensures |CoursesOf(Run(EMPTY, rs), t)| <= if tier.FREE? then 3 else 100
  {
    assert CoursesOf(EMPTY, t) == map[];
    RunKeepsLimit(EMPTY, rs, t, tier);
  }
}
