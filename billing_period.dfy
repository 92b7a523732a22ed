/** The billing-period resolver: the first day of the current usage month and
    of the current usage year, from today's date and the organization's
    subscription, if it has one.

    A subscription is billed monthly or yearly. The window that matches the
    billing interval starts on the provider's current period start; the other
    window is derived from the billing-cycle anchor. Every date built here
    goes through `Dates.FromParts`, so a day or year that does not exist in
    the target month (day 31 into February, 29 February into a common year,
    year 0) is a `ValueError`, as `date.replace` raises it, never a clamp.
 */
module BillingPeriod {
  import opened Outcomes
  import opened Dates

  /** `price.recurring['interval']` of the subscription's single item. */
  datatype Interval = Month | Year

  /** What the resolver reads of a subscription: the interval, the date part
      of `billing_cycle_anchor` and the date part of `current_period_start`. */
  datatype Subscription = Subscription(interval: Interval, anchorDate: Date, currentPeriodStart: Date)

  /** Both dates are date parts of timestamps, so they are real dates. */
  predicate ValidSubscription(s: Subscription) {
    Valid(s.anchorDate) && Valid(s.currentPeriodStart)
  }

  predicate ValidSubscriptionOption(s: Option<Subscription>) {
    s.Some? ==> ValidSubscription(s.value)
  }

  /** The month window of a yearly subscription: the most recent anchor day
      strictly before `now`. If `now.day` is past the anchor day that is the
      anchor day of this month, otherwise that of the previous calendar month
      (January wraps to December of the year before), which raises when the
      anchor day does not exist in that month or the year would be 0. */
  function AnchorDayMonthStart(now: Date, anchorDay: int): (r: Result<Date>)
    requires Valid(now) && 1 <= anchorDay <= 31
    ensures r.Err? ==> r.error == ValueError
    ensures now.day > anchorDay ==> r == Ok(Date(now.year, now.month, anchorDay))
    ensures now.day <= anchorDay ==>
      var prev := PreviousMonth(MonthOf(now));
      (r.Ok? <==> prev.year >= MinYear && anchorDay <= DaysInMonth(prev.year, prev.month)) &&
      (r.Ok? ==> MonthOf(r.value) == prev)
    ensures r.Ok? ==> Valid(r.value) && r.value.day == anchorDay && Lt(r.value, now)
    ensures r.Ok? ==>
      var next := NextMonth(MonthOf(r.value));
      Le(now, Date(next.year, next.month, anchorDay))
  {
    if now.day > anchorDay then
      FromParts(now.year, now.month, anchorDay)
    else
      var start := PreviousMonth(MonthOf(now));
      var r := FromParts(start.year, start.month, anchorDay);
      NextPreviousRoundTrip(MonthOf(now));
      r
  }

  /** The year window of a monthly subscription: the most recent anniversary
      of the anchor date that is not after `now`. The anchor is moved to this
      year, and to the year before when that is after `now`; either move
      raises for a 29 February anchor in a common year, and the second one
      for year 0. */
  function AnniversaryYearStart(now: Date, anchor: Date): (r: Result<Date>)
    requires Valid(now) && Valid(anchor)
    ensures r.Err? ==> r.error == ValueError
    ensures r.Err? <==>
      (IsLeapDay(anchor) && !IsLeapYear(now.year)) ||
      (Lt(now, Date(now.year, anchor.month, anchor.day)) && (now.year == MinYear || IsLeapDay(anchor)))
    ensures r.Ok? ==>
      Valid(r.value) && r.value.month == anchor.month && r.value.day == anchor.day &&
      Le(r.value, now) && Lt(now, Date(r.value.year + 1, anchor.month, anchor.day))
  {
    match FromParts(now.year, anchor.month, anchor.day)
    case Err(e) => Err(e)
    case Ok(thisYear) =>
      if Lt(now, thisYear) then FromParts(now.year - 1, anchor.month, anchor.day)
      else Ok(thisYear)
  }

  /** The start of the current usage month (`_get_current_month_start_date`). */
  function CurrentMonthStart(now: Date, subscription: Option<Subscription>): (r: Result<Date>)
    requires Valid(now) && ValidSubscriptionOption(subscription)
    ensures subscription.None? ==> r == Ok(Date(now.year, now.month, 1))
    ensures subscription.Some? && subscription.value.interval == Month ==>
      r == Ok(subscription.value.currentPeriodStart)
    ensures subscription.Some? && subscription.value.interval == Year ==>
      r == AnchorDayMonthStart(now, subscription.value.anchorDate.day)
    ensures r.Err? ==> r.error == ValueError
    ensures r.Ok? ==> Valid(r.value)
    ensures r.Ok? && (subscription.Some? ==> Le(subscription.value.currentPeriodStart, now)) ==>
      Le(r.value, now)
  {
    match subscription
    case None => FromParts(now.year, now.month, 1)
    case Some(s) =>
      if s.interval == Month then Ok(s.currentPeriodStart)
      else AnchorDayMonthStart(now, s.anchorDate.day)
  }

  /** The start of the current usage year (`_get_current_year_start_date`). */
  function CurrentYearStart(now: Date, subscription: Option<Subscription>): (r: Result<Date>)
    requires Valid(now) && ValidSubscriptionOption(subscription)
    ensures subscription.None? ==> r == Ok(Date(now.year, 1, 1))
    ensures subscription.Some? && subscription.value.interval == Year ==>
      r == Ok(subscription.value.currentPeriodStart)
    ensures subscription.Some? && subscription.value.interval == Month ==>
      r == AnniversaryYearStart(now, subscription.value.anchorDate)
    ensures r.Err? ==> r.error == ValueError
    ensures r.Ok? ==> Valid(r.value)
    ensures r.Ok? && (subscription.Some? ==> Le(subscription.value.currentPeriodStart, now)) ==>
      Le(r.value, now)
  {
    match subscription
    case None => FromParts(now.year, 1, 1)
    case Some(s) =>
      if s.interval == Year then Ok(s.currentPeriodStart)
      else AnniversaryYearStart(now, s.anchorDate)
  }

  /** Without a subscription both windows are calendar windows, and neither
      resolution can fail. */
  lemma NoSubscriptionCalendarWindows(now: Date)
    requires Valid(now)
    ensures CurrentMonthStart(now, None) == Ok(Date(now.year, now.month, 1))
    ensures CurrentYearStart(now, None) == Ok(Date(now.year, 1, 1))
    ensures Le(Date(now.year, 1, 1), Date(now.year, now.month, 1))
    ensures Le(Date(now.year, now.month, 1), now)
  {
  }

  /** Worked cases: a monthly subscription anchored on 20 January seen on
      15 March 2024 starts its year on 20 January 2024; a yearly one anchored
      on day 20 starts its month on 20 February 2024 when seen on 15 March
      and on 20 March 2024 when seen on 25 March; anchored on day 31, seen on
      1 March 2023, it has no month start, since February 2023 has 28 days. */
  lemma WorkedExamples()
    ensures CurrentYearStart(Date(2024, 3, 15), Some(Subscription(Month, Date(2024, 1, 20), Date(2024, 3, 1))))
            == Ok(Date(2024, 1, 20))
    ensures CurrentMonthStart(Date(2024, 3, 15), Some(Subscription(Year, Date(2023, 5, 20), Date(2023, 5, 20))))
            == Ok(Date(2024, 2, 20))
    ensures CurrentMonthStart(Date(2024, 3, 25), Some(Subscription(Year, Date(2023, 5, 20), Date(2023, 5, 20))))
            == Ok(Date(2024, 3, 20))
    ensures CurrentMonthStart(Date(2023, 3, 1), Some(Subscription(Year, Date(2022, 1, 31), Date(2023, 1, 31))))
            == Err(ValueError)
  {
  }

  // The resolver as the source is written. The instance attributes it probes
  // are not the ones the subscription lookup assigns, so it differs from the
  // functions above, which the rest of the model uses.

  /** Month start as written: the guard probes an attribute `anchor_date`
      that nothing assigns (the lookup assigns `_anchor_date`), so the
      calendar month start is returned whatever the subscription is. */
  function MonthStartAsWritten(now: Date, subscription: Option<Subscription>): (r: Result<Date>)
    requires Valid(now)
    ensures r == Ok(Date(now.year, now.month, 1))
  {
    FromParts(now.year, now.month, 1)
  }

  /** Year start as written: `_anchor_date` is probed correctly, but a yearly
      subscription then reads `_current_period`, which nothing assigns (the
      lookup assigns `_period_start`), and that raises `AttributeError`. */
  function YearStartAsWritten(now: Date, subscription: Option<Subscription>): (r: Result<Date>)
    requires Valid(now) && ValidSubscriptionOption(subscription)
    ensures subscription.Some? && subscription.value.interval == Year ==> r == Err(AttributeError)
    ensures !(subscription.Some? && subscription.value.interval == Year) ==>
      r == CurrentYearStart(now, subscription)
  {
    match subscription
    case None => FromParts(now.year, 1, 1)
    case Some(s) =>
      if s.interval == Year then Err(AttributeError)
      else AnniversaryYearStart(now, s.anchorDate)
  }

  /** As written, a subscription never moves the month window: a yearly
      subscription anchored on day 20 seen on 25 March 2024 gives 1 March
      where 20 March is meant, and a monthly one whose period started on
      5 March gives 1 March where 5 March is meant. */
  lemma MonthStartIgnoresSubscription()
    ensures MonthStartAsWritten(Date(2024, 3, 25), Some(Subscription(Year, Date(2023, 5, 20), Date(2023, 5, 20))))
            == Ok(Date(2024, 3, 1))
    ensures CurrentMonthStart(Date(2024, 3, 25), Some(Subscription(Year, Date(2023, 5, 20), Date(2023, 5, 20))))
            == Ok(Date(2024, 3, 20))
    ensures MonthStartAsWritten(Date(2024, 3, 25), Some(Subscription(Month, Date(2023, 5, 5), Date(2024, 3, 5))))
            == Ok(Date(2024, 3, 1))
    ensures CurrentMonthStart(Date(2024, 3, 25), Some(Subscription(Month, Date(2023, 5, 5), Date(2024, 3, 5))))
            == Ok(Date(2024, 3, 5))
  {
  }

  /** As written, every yearly subscription makes the year window raise,
      where the provider's period start is meant. */
  lemma YearlyYearStartRaises(now: Date, s: Subscription)
    requires Valid(now) && ValidSubscription(s) && s.interval == Year
    ensures YearStartAsWritten(now, Some(s)) == Err(AttributeError)
    ensures CurrentYearStart(now, Some(s)) == Ok(s.currentPeriodStart)
  {
  }
}
