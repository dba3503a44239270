/**
 * The browser extension's billing store: one stored `BillingInfo` record (a
 * trial and an optional subscription) under the key 'billing-info', read and
 * rewritten by the `trialStore` operations. Every write goes through
 * `storage.set(current => ...)`, an updater applied to the current record;
 * the updaters are the pure functions below and `Store` applies them to its
 * one `billing` field. Each store operation is one atomic step, and the clock
 * reading `new Date()` is the explicit parameter `now` (milliseconds).
 */
module TrialStore {
  import opened Days

  /** A stored date string: '' in the default record, otherwise an instant. */
  datatype Stamp = Unset | At(ms: int)

  datatype TrialData = TrialData(
    isActive: bool,
    startDate: Stamp,
    endDate: Stamp,
    daysRemaining: int)

  datatype SubscriptionData = SubscriptionData(
    isActive: bool,
    planId: string,
    planName: string,
    price: real,
    period: string,
    startDate: int,
    endDate: int,
    stripeCustomerId: Option<string>,
    stripeSubscriptionId: Option<string>)

  datatype BillingInfo = BillingInfo(trial: TrialData, subscription: Option<SubscriptionData>)

  /** The value the store holds before anything was written. */
  const DefaultBilling: BillingInfo :=
    BillingInfo(TrialData(false, Unset, Unset, 0), None)

  /**
   * What every operation keeps true of the record: an active trial has its
   * dates, the dates are set together and one week apart, and the stored day
   * count is never negative and is zero once the trial is off.
   */
  predicate WellFormed(b: BillingInfo) {
    var t := b.trial;
    && t.daysRemaining >= 0
    && (!t.isActive ==> t.daysRemaining == 0)
    && (t.isActive ==> t.endDate.At?)
    && ((t.startDate.Unset? && t.endDate.Unset?)
        || (t.startDate.At? && t.endDate.At? && t.endDate.ms == t.startDate.ms + WEEK_MS))
  }

  /** `data.subscription?.isActive`: the stored flag, whatever the end date says. */
  predicate SubscriptionFlag(b: BillingInfo)
    ensures b.subscription.None? ==> !SubscriptionFlag(b)
    ensures b.subscription.Some? ==> (SubscriptionFlag(b) <==> b.subscription.value.isActive)
  {
    b.subscription.Some? && b.subscription.value.isActive
  }

  /** The updater of `startTrial`: a fresh week-long trial, whatever was there before. */
  function WithTrialStarted(b: BillingInfo, now: int): (r: BillingInfo)
    ensures r.trial.isActive && r.trial.daysRemaining == TRIAL_DAYS
    ensures r.trial.startDate == At(now) && r.trial.endDate == At(now + WEEK_MS)
    ensures r.subscription == b.subscription
    ensures WellFormed(r)
  {
    b.(trial := TrialData(true, At(now), At(now + WEEK_MS), 7))
  }

  /** The updater of `endTrial`: the trial is switched off, its dates kept. */
  function WithTrialEnded(b: BillingInfo): (r: BillingInfo)
    ensures !r.trial.isActive && r.trial.daysRemaining == 0
    ensures r.trial.startDate == b.trial.startDate && r.trial.endDate == b.trial.endDate
    ensures r.subscription == b.subscription
    ensures WellFormed(b) ==> WellFormed(r)
  {
    b.(trial := b.trial.(isActive := false, daysRemaining := 0))
  }

  /** The updater of `setSubscriptionInfo`: the subscription is replaced wholesale. */
  function WithSubscription(b: BillingInfo, s: SubscriptionData): (r: BillingInfo)
    ensures r.subscription == Some(s) && r.trial == b.trial
    ensures WellFormed(b) ==> WellFormed(r)
  {
    b.(subscription := Some(s))
  }

  /** The updater of `cancelSubscription`: only the subscription's flag changes. */
  function WithSubscriptionCancelled(b: BillingInfo): (r: BillingInfo)
    ensures r.trial == b.trial
    ensures b.subscription.None? ==> r.subscription.None?
    ensures b.subscription.Some? ==>
      r.subscription == Some(b.subscription.value.(isActive := false))
    ensures !SubscriptionFlag(r)
    ensures WellFormed(b) ==> WellFormed(r)
  {
    b.(subscription :=
         match b.subscription
         case None => None
         case Some(s) => Some(s.(isActive := false)))
  }

  /** What `isPremium` answers and the record it leaves behind. */
  datatype PremiumOutcome = PremiumOutcome(premium: bool, billing: BillingInfo)

  /**
   * `isPremium` as a function of the record and the clock: the subscription flag
   * is trusted as is; otherwise an active trial is re-evaluated and its flag and
   * day count written back.
   */
  function PremiumCheck(b: BillingInfo, now: int): (r: PremiumOutcome)
    ensures SubscriptionFlag(b) ==> r.premium && r.billing == b
    ensures !SubscriptionFlag(b) && !b.trial.isActive ==> !r.premium && r.billing == b
    ensures !SubscriptionFlag(b) && b.trial.isActive ==>
      && r.billing.subscription == b.subscription
      && r.billing.trial.startDate == b.trial.startDate
      && r.billing.trial.endDate == b.trial.endDate
      && r.billing.trial.isActive == r.premium
      && r.premium == (b.trial.endDate.At? && b.trial.endDate.ms > now)
      && r.billing.trial.daysRemaining ==
           (if b.trial.endDate.At? then Max0(DaysCeil(b.trial.endDate.ms - now)) else 0)
    ensures WellFormed(b) ==> WellFormed(r.billing)
  {
    if SubscriptionFlag(b) then
      PremiumOutcome(true, b)
    else if b.trial.isActive then
      match b.trial.endDate
      case At(end) =>
        var days := DaysCeil(end - now);
        DaysCeilPositive(end - now);
        if days > 0 then
          PremiumOutcome(days > 0,
            b.(trial := b.trial.(daysRemaining := Max0(days), isActive := days > 0)))
        else
          PremiumOutcome(false, b.(trial := b.trial.(isActive := false, daysRemaining := 0)))
      case Unset =>
        // An empty date string parses to NaN, and `NaN > 0` is false.
        PremiumOutcome(false, b.(trial := b.trial.(isActive := false, daysRemaining := 0)))
    else
      PremiumOutcome(false, b)
  }

  /** `getDaysRemaining`: whole days left on whatever grants access, never written back. */
  function DaysRemaining(b: BillingInfo, now: int): (days: int)
    requires WellFormed(b)
    ensures SubscriptionFlag(b) ==>
      (days - 1) * DAY_MS < b.subscription.value.endDate - now <= days * DAY_MS
    ensures !SubscriptionFlag(b) ==> days >= 0
    ensures !SubscriptionFlag(b) && b.trial.isActive ==>
      (days > 0 <==> b.trial.endDate.ms > now)
    ensures !SubscriptionFlag(b) && b.trial.isActive && b.trial.endDate.ms > now ==>
      (days - 1) * DAY_MS < b.trial.endDate.ms - now <= days * DAY_MS
    ensures !SubscriptionFlag(b) && b.trial.isActive && b.trial.endDate.ms <= now ==> days == 0
    ensures !SubscriptionFlag(b) && !b.trial.isActive ==> days == 0
  {
    if SubscriptionFlag(b) then
      DaysCeil(b.subscription.value.endDate - now)
    else if b.trial.isActive then
      DaysCeilPositive(b.trial.endDate.ms - now);
      Max0(DaysCeil(b.trial.endDate.ms - now))
    else
      0
  }

  /** Asking twice at the same instant gives the same answer and the same record. */
  lemma PremiumIdempotent(b: BillingInfo, now: int)
    ensures PremiumCheck(PremiumCheck(b, now).billing, now) == PremiumCheck(b, now)
  {
    var r := PremiumCheck(b, now);
    if !SubscriptionFlag(b) && b.trial.isActive && r.premium {
      assert r.billing.trial == b.trial.(daysRemaining := r.billing.trial.daysRemaining);
    }
  }

  /**
   * After `isPremium` has written back, `getDaysRemaining` at the same instant
   * reads the day count just stored, and the trial grants access exactly when
   * that count is positive.
   */
  lemma PremiumAgreesWithDaysRemaining(b: BillingInfo, now: int)
    requires WellFormed(b) && !SubscriptionFlag(b)
    ensures var r := PremiumCheck(b, now);
      && r.billing.trial.daysRemaining == DaysRemaining(b, now) == DaysRemaining(r.billing, now)
      && (r.premium <==> DaysRemaining(b, now) > 0)
  {
    var r := PremiumCheck(b, now);
    if b.trial.isActive {
      DaysCeilPositive(b.trial.endDate.ms - now);
      assert !SubscriptionFlag(r.billing);
    }
  }

  /**
   * Starting a trial at `t`, after any earlier trial and even after one expired,
   * makes the account premium exactly until `t + 7 days`, with 1 to 7 days
   * remaining during that week.
   */
  lemma StartedTrialLastsAWeek(b: BillingInfo, t: int, now: int)
    requires !SubscriptionFlag(b)
    ensures var s := WithTrialStarted(b, t);
      && (PremiumCheck(s, now).premium <==> now < t + WEEK_MS)
      && (t <= now < t + WEEK_MS ==> 1 <= DaysRemaining(s, now) <= TRIAL_DAYS)
  {
    var s := WithTrialStarted(b, t);
    if t <= now < t + WEEK_MS {
      DaysCeilWithinWeek(t + WEEK_MS - now);
    }
  }

  /**
   * The extension trusts the stored subscription flag: a subscription whose
   * end date has passed still makes the account premium, while the day count
   * for it is zero or negative.
   */
  lemma LapsedSubscriptionStillPremium(b: BillingInfo, now: int)
    requires WellFormed(b) && SubscriptionFlag(b) && b.subscription.value.endDate <= now
    ensures PremiumCheck(b, now).premium
    ensures DaysRemaining(b, now) <= 0
  {
    DaysCeilPositive(b.subscription.value.endDate - now);
  }

  /** Once the trial is ended, only the subscription flag can make the account premium. */
  lemma EndedTrialOnlySubscription(b: BillingInfo, now: int)
    requires WellFormed(b)
    ensures PremiumCheck(WithTrialEnded(b), now).premium == SubscriptionFlag(b)
    ensures !SubscriptionFlag(b) ==> DaysRemaining(WithTrialEnded(b), now) == 0
  {
  }

  /** After a cancellation, access falls back to the trial alone. */
  lemma CancelledFallsBackToTrial(b: BillingInfo, now: int)
    ensures PremiumCheck(WithSubscriptionCancelled(b), now).premium
      == (b.trial.isActive && b.trial.endDate.At? && b.trial.endDate.ms > now)
  {
  }

  /** One call of a writing `trialStore` operation, with the clock reading it takes. */
  datatype Op =
    | StartTrialOp(now: int)
    | EndTrialOp
    | SetSubscriptionOp(s: SubscriptionData)
    | CancelSubscriptionOp
    | IsPremiumOp(now: int)

  /** The record after one operation. */
  function Apply(b: BillingInfo, op: Op): (r: BillingInfo) {
    match op
    case StartTrialOp(now) => WithTrialStarted(b, now)
    case EndTrialOp => WithTrialEnded(b)
    case SetSubscriptionOp(s) => WithSubscription(b, s)
    case CancelSubscriptionOp => WithSubscriptionCancelled(b)
    case IsPremiumOp(now) => PremiumCheck(b, now).billing
  }

  /** The record after a sequence of operations, each one atomic, in order. */
  function Run(b: BillingInfo, ops: seq<Op>): (r: BillingInfo)
    decreases |ops|
  {
    if ops == [] then b else Run(Apply(b, ops[0]), ops[1..])
  }

  /** Every sequence of operations from a well-formed record leaves a well-formed record. */
  lemma {:induction false} RunKeepsWellFormed(b: BillingInfo, ops: seq<Op>)
    requires WellFormed(b)
    ensures WellFormed(Run(b, ops))
    decreases |ops|
  {
    if ops != [] {
      var b' := Apply(b, ops[0]);
      assert WellFormed(b');
      RunKeepsWellFormed(b', ops[1..]);
    }
  }

  /**
   * Only `startTrial` switches a trial on: `isPremium` and the other
   * operations never reactivate an inactive trial, and never move its dates.
   */
  lemma {:induction false} OnlyStartTrialActivates(b: BillingInfo, ops: seq<Op>)
    requires !b.trial.isActive
    requires forall i :: 0 <= i < |ops| ==> !ops[i].StartTrialOp?
    ensures !Run(b, ops).trial.isActive
    ensures Run(b, ops).trial.startDate == b.trial.startDate
    ensures Run(b, ops).trial.endDate == b.trial.endDate
    decreases |ops|
  {
    if ops != [] {
      var b' := Apply(b, ops[0]);
      assert !b'.trial.isActive && b'.trial.startDate == b.trial.startDate
        && b'.trial.endDate == b.trial.endDate;
      assert forall i :: 0 <= i < |ops[1..]| ==> ops[1..][i] == ops[i + 1];
      OnlyStartTrialActivates(b', ops[1..]);
    }
  }

  /** The extension's billing store: the one record and the operations on it. */
  class Store {
    var billing: BillingInfo

    ghost predicate Valid()
      reads this
    {
      WellFormed(billing)
    }

    /** The store before anything was written holds the default record. */
    constructor ()
      ensures Valid() && billing == DefaultBilling
    {
      billing := DefaultBilling;
    }

    /** `getTrialInfo`. */
    method GetTrialInfo() returns (t: TrialData)
      requires Valid()
      ensures t == billing.trial
      ensures t.isActive ==> t.endDate.At?
    {
      t := billing.trial;
    }

    /** `getSubscriptionInfo`. */
    method GetSubscriptionInfo() returns (s: Option<SubscriptionData>)
      ensures s == billing.subscription
    {
      s := billing.subscription;
    }

    /** `startTrial`: a new week-long trial from `now`; the subscription is untouched. */
    method StartTrial(now: int)
      requires Valid()
      modifies this
      ensures Valid()
      ensures billing == WithTrialStarted(old(billing), now)
      ensures billing.trial == TrialData(true, At(now), At(now + WEEK_MS), TRIAL_DAYS)
      ensures billing.subscription == old(billing.subscription)
    {
      billing := WithTrialStarted(billing, now);
    }

    /** `endTrial`: the trial is switched off and its day count zeroed. */
    method EndTrial()
      requires Valid()
      modifies this
      ensures Valid()
      ensures billing == WithTrialEnded(old(billing))
      ensures billing.trial == old(billing.trial).(isActive := false, daysRemaining := 0)
      ensures billing.subscription == old(billing.subscription)
    {
      billing := WithTrialEnded(billing);
    }

    /** `setSubscriptionInfo`: the given subscription replaces the stored one. */
    method SetSubscriptionInfo(s: SubscriptionData)
      requires Valid()
      modifies this
      ensures Valid()
      ensures billing == WithSubscription(old(billing), s)
      ensures billing.subscription == Some(s) && billing.trial == old(billing.trial)
    {
      billing := WithSubscription(billing, s);
    }

    /** `cancelSubscription`: a stored subscription is kept with its flag cleared. */
    method CancelSubscription()
      requires Valid()
      modifies this
      ensures Valid()
      ensures billing == WithSubscriptionCancelled(old(billing))
      ensures old(billing.subscription).None? ==> billing.subscription.None?
      ensures old(billing.subscription).Some? ==>
        billing.subscription == Some(old(billing.subscription.value).(isActive := false))
      ensures billing.trial == old(billing.trial)
    {
      billing := WithSubscriptionCancelled(billing);
    }

    /**
     * `isPremium`: reads the record and, when it has to look at the trial,
     * writes back the trial's flag and day count.
     */
    method IsPremium(now: int) returns (premium: bool)
      requires Valid()
      modifies this
      ensures Valid()
      ensures premium == PremiumCheck(old(billing), now).premium
      ensures billing == PremiumCheck(old(billing), now).billing
      ensures SubscriptionFlag(old(billing)) ==> premium && billing == old(billing)
      ensures !SubscriptionFlag(old(billing)) && old(billing.trial.isActive) ==>
        premium == (old(billing.trial.endDate.ms) > now) && billing.trial.isActive == premium
    {
      var data := billing;
      if SubscriptionFlag(data) {
        return true;
      }
      if data.trial.isActive {
        var days := DaysCeil(data.trial.endDate.ms - now);
        DaysCeilPositive(data.trial.endDate.ms - now);
        if days > 0 {
          billing := billing.(trial := billing.trial.(daysRemaining := Max0(days), isActive := days > 0));
          return days > 0;
        } else {
          billing := billing.(trial := billing.trial.(isActive := false, daysRemaining := 0));
        }
      }
      return false;
    }

    /** `getDaysRemaining`: computed from the record, nothing written. */
    method GetDaysRemaining(now: int) returns (days: int)
      requires Valid()
      ensures days == DaysRemaining(billing, now)
    {
      var data := billing;
      if SubscriptionFlag(data) {
        return DaysCeil(data.subscription.value.endDate - now);
      }
      if data.trial.isActive {
        return Max0(DaysCeil(data.trial.endDate.ms - now));
      }
      return 0;
    }
  }
}
