/**
 * The pricing page's own view of the trial: the record `startTrial` keeps under
 * 'mexbot-trial' in the page's local storage, and the status `checkTrialStatus`
 * derives from it. Each `new Date()` / `Date.now()` reading is an explicit
 * parameter (milliseconds).
 */
module Pricing {
  import opened Days

  /** The record kept under 'mexbot-trial'. */
  datatype StoredTrial = StoredTrial(startDate: int, endDate: int)

  /** The page's `TrialInfo` state. */
  datatype TrialInfo = TrialInfo(isActive: bool, daysRemaining: int, startDate: int, endDate: int)

  /** What `startTrial` writes to storage and puts into the page state. */
  datatype TrialStart = TrialStart(stored: StoredTrial, info: TrialInfo)

  /**
   * The status `checkTrialStatus` derives from a stored trial at `now`: active
   * while the end lies ahead, the whole days left rounded up, and the dates
   * passed through.
   */
  function TrialStatus(trial: StoredTrial, now: int): (info: TrialInfo)
    ensures info.isActive <==> trial.endDate > now
    ensures info.isActive <==> DaysCeil(trial.endDate - now) > 0
    ensures info.daysRemaining >= 0
    ensures info.isActive ==>
      (info.daysRemaining - 1) * DAY_MS < trial.endDate - now <= info.daysRemaining * DAY_MS
    ensures !info.isActive ==> info.daysRemaining == 0
    ensures info.startDate == trial.startDate && info.endDate == trial.endDate
  {
    var daysRemaining := DaysCeil(trial.endDate - now);
    DaysCeilPositive(trial.endDate - now);
    TrialInfo(daysRemaining > 0, Max0(daysRemaining), trial.startDate, trial.endDate)
  }

  /**
   * `startTrial`: the clock is read twice, `t1` for the start date and `t2`
   * for the end date, which lies seven days after `t2`; the page state claims
   * an active trial with seven days left.
   */
  function StartTrial(t1: int, t2: int): (r: TrialStart)
    ensures r.stored.startDate == t1 && r.stored.endDate == t2 + WEEK_MS
    ensures r.info.isActive && r.info.daysRemaining == TRIAL_DAYS
    ensures r.info.startDate == r.stored.startDate && r.info.endDate == r.stored.endDate
    ensures t1 <= t2 ==> r.stored.endDate - r.stored.startDate >= WEEK_MS
  {
    var trialData := StoredTrial(t1, t2 + WEEK_MS);
    TrialStart(trialData, TrialInfo(true, 7, trialData.startDate, trialData.endDate))
  }

  /** Deriving the status at the second clock reading gives back the state `startTrial` set. */
  lemma StartedStatusAgrees(t1: int, t2: int)
    ensures TrialStatus(StartTrial(t1, t2).stored, t2) == StartTrial(t1, t2).info
  {
    DaysCeilWhole(TRIAL_DAYS);
  }

  /**
   * From the second clock reading on, the derived trial shows at most seven
   * days and is active exactly until seven days after that reading.
   */
  lemma StartedStatusWithinWeek(t1: int, t2: int, now: int)
    requires t2 <= now
    ensures var info := TrialStatus(StartTrial(t1, t2).stored, now);
      && info.daysRemaining <= TRIAL_DAYS
      && (info.isActive <==> now < t2 + WEEK_MS)
  {
    var info := TrialStatus(StartTrial(t1, t2).stored, now);
    if info.isActive {
      DaysCeilWithinWeek(t2 + WEEK_MS - now);
    }
  }

  /** As time passes the derived day count never grows, and a lapsed trial stays lapsed. */
  lemma StatusAntitone(trial: StoredTrial, now: int, later: int)
    requires now <= later
    ensures TrialStatus(trial, later).daysRemaining <= TrialStatus(trial, now).daysRemaining
    ensures TrialStatus(trial, later).isActive ==> TrialStatus(trial, now).isActive
  {
    DaysCeilMonotone(trial.endDate - later, trial.endDate - now);
  }
}
