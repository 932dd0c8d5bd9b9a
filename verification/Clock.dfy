/** The interview clock: time accrues only while it runs, and it is held while the system works. */
module InterviewClock {
  import opened Wrappers

  datatype Clock = Clock(budgetMs: int, activeMs: int, runningSince: Option<int>, held: bool)

  function StartClock(budgetMs: int, now: int): Option<Clock> {
    if budgetMs <= 0 then None else Some(Clock(budgetMs, 0, Some(now), false))
  }

  /** The time recorded and what has passed since it last started; never less than what is recorded. */
  function ElapsedMs(c: Clock, now: int): int {
    c.activeMs + if c.runningSince.Some? && now > c.runningSince.value then now - c.runningSince.value else 0
  }

  function PauseClock(c: Clock, now: int): Clock {
    if c.runningSince.None? then c else c.(activeMs := ElapsedMs(c, now), runningSince := None)
  }

  function ResumeClock(c: Clock, now: int): Clock {
    if c.runningSince.Some? || c.held then c else c.(runningSince := Some(now))
  }

  function HoldClock(c: Clock, now: int): Clock { PauseClock(c, now).(held := true) }

  /** Lets go of the clock, which starts again when `running`. */
  function ReleaseClock(c: Clock, now: int, running: bool): Clock {
    if running then ResumeClock(c.(held := false), now) else c.(held := false)
  }

  predicate Running(c: Clock) { c.runningSince.Some? }

  // Enough use to consume the credit: a number of answers, or a share of the time budget.
  datatype UsagePolicy = UsagePolicy(minBudgetFraction: real, minAnswers: int)

  const DEFAULT_USAGE_POLICY := UsagePolicy(0.4, 3)

  predicate IsMeaningfulUsage(answeredCount: int, activeMs: int, budgetMs: int, policy: UsagePolicy) {
    if answeredCount == 0 then false
    else if answeredCount >= policy.minAnswers then true
    else budgetMs > 0 && activeMs as real >= policy.minBudgetFraction * (budgetMs as real)
  }
}
