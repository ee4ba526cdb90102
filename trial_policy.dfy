/**
 * The trial-sweep classification rule of the relance-trial job: how many whole
 * days remain until an account's trial ends, and which of the three outcomes
 * (expire, remind, nothing) that count selects.
 *
 * Instants are integer milliseconds since the epoch. The job reads the clock
 * once per run; that reading is the `now` parameter everywhere below.
 */
module TrialPolicy {
  import opened Wrappers

  /** Milliseconds in one day: 1000 * 60 * 60 * 24. */
  const DayMs: int := 86_400_000

  /** The day counts at which a reminder goes out: J-7, J-3 and J-1. */
  const ReminderDays: seq<int> := [7, 3, 1]

  /**
   * A trial-status pharmacy as the datastore returns it. `trialEnd` is None
   * when the stored `trial_end` does not parse as a date; `contact` is None
   * when the column is null. Empty strings stand for the falsy values the
   * source tests with `!` and `||`.
   */
  datatype Account = Account(
    id: string,
    nom: string,
    contact: Option<string>,
    email: string,
    plan: string,
    trialEnd: Option<int>)

  /** What one sweep does with one account. */
  datatype Action = Expire | Remind(days: int) | NoAction

  /**
   * Whole days until the trial ends, rounded up: the ceiling of
   * (trialEnd - now) / DayMs, computed exactly on integers. A fraction of a
   * day in the past rounds up to 0 (JavaScript's -0, which compares like 0).
   */
  function DaysRemaining(now: int, trialEnd: int): (days: int)
    ensures (days - 1) * DayMs < trialEnd - now <= days * DayMs
  {
    -((now - trialEnd) / DayMs)
  }

  /** The ceiling property determines the day count uniquely. */
  lemma DaysRemainingUnique(now: int, trialEnd: int, days: int)
    requires (days - 1) * DayMs < trialEnd - now <= days * DayMs
    ensures DaysRemaining(now, trialEnd) == days
  {
  }

  /**
   * The ordered, first-match classification: a negative count expires the
   * account (and nothing else happens to it), a count of 7, 3 or 1 sends a
   * reminder, and every other count leaves the account alone.
   */
  function Classify(days: int): (a: Action)
    ensures a == Expire <==> days < 0
    ensures a.Remind? <==> days in ReminderDays
    ensures a.Remind? ==> a.days == days
    ensures a == NoAction <==> 0 <= days && days !in ReminderDays
  {
    if days < 0 then Expire
    else if days in ReminderDays then Remind(days)
    else NoAction
  }

  /**
   * The action for one account at instant `now`. An unparseable `trial_end`
   * yields a NaN day count, for which `< 0` and `includes` are both false.
   */
  function Decide(now: int, ph: Account): (a: Action)
    ensures ph.trialEnd.None? ==> a == NoAction
    ensures ph.trialEnd.Some? ==> a == Classify(DaysRemaining(now, ph.trialEnd.value))
  {
    match ph.trialEnd
    case None => NoAction
    case Some(t) => Classify(DaysRemaining(now, t))
  }

  /** The trial ends within the `days`-th day from now. */
  predicate DueIn(now: int, trialEnd: int, days: int)
  {
    now + (days - 1) * DayMs < trialEnd <= now + days * DayMs
  }

  /**
   * The classification restated on the timestamps themselves: an account
   * expires exactly when its trial ended at least a full day before `now`,
   * and it is reminded at J-d exactly when its trial ends within the d-th
   * day ahead.
   */
  lemma DecideByTrialEnd(now: int, ph: Account)
    requires ph.trialEnd.Some?
    ensures Decide(now, ph) == Expire <==> ph.trialEnd.value <= now - DayMs
    ensures Decide(now, ph) == Remind(7) <==> DueIn(now, ph.trialEnd.value, 7)
    ensures Decide(now, ph) == Remind(3) <==> DueIn(now, ph.trialEnd.value, 3)
    ensures Decide(now, ph) == Remind(1) <==> DueIn(now, ph.trialEnd.value, 1)
    ensures Decide(now, ph) == NoAction <==>
      now - DayMs < ph.trialEnd.value &&
      !DueIn(now, ph.trialEnd.value, 7) && !DueIn(now, ph.trialEnd.value, 3) &&
      !DueIn(now, ph.trialEnd.value, 1)
  {
  }

  /**
   * A trial that ended less than a day ago counts 0 days and is not yet
   * expired: the expiry happens on the sweep after the first full day.
   */
  lemma EndedWithinLastDayIsLeftAlone(now: int, ph: Account)
    requires ph.trialEnd.Some? && now - DayMs < ph.trialEnd.value <= now
    ensures DaysRemaining(now, ph.trialEnd.value) == 0
    ensures Decide(now, ph) == NoAction
  {
  }

  /** Worked cases: 30 minutes ahead, 2 hours ago, 3 days 2 hours ahead. */
  lemma DaysRemainingExamples(now: int)
    ensures DaysRemaining(now, now + 30 * 60 * 1000) == 1
    ensures DaysRemaining(now, now - 2 * 60 * 60 * 1000) == 0
    ensures DaysRemaining(now, now + 3 * DayMs + 2 * 60 * 60 * 1000) == 4
  {
  }
}
