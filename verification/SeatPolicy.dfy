/** When a membership occupies a paid seat: the written policy. */
module SeatPolicy {
  import opened Prelude

  datatype Role = SuperAdmin | OrgAdmin | Instructor | Learner

  /** A learner, active, seat-eligible, with qualifying activity inside the tenant's rolling window. */
  predicate IsActiveLearnerSeat(
    role: Role, active: bool, eligible: bool, lastActivity: Option<int>, periodDays: int, now: int)
  {
    && role.Learner? && active && eligible && lastActivity.Some?
    && now - lastActivity.value <= periodDays * DAY_MS
  }
}
