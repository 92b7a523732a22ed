/** The per-asset usage of `AssetUsageSerializer`: submission counts, NLP
    usage and storage bytes of one asset. The windows are always the
    calendar month and year of `now`, whatever the owner's subscription. A
    deployed asset's numbers come from its deployment and from the deployment
    backend, whose code is not part of this model and which therefore enter
    as function values; an asset without a deployment reports zeros.
 */
module AssetUsage {
  import opened Outcomes
  import opened Dates
  import opened BillingPeriod
  import opened UsageRecords

  /** What `asset.deployment` offers: the stored attachment bytes and
      `submission_count_since_date`, which counts all submissions when given
      no date. */
  datatype Deployment = Deployment(
    attachmentStorageBytes: nat,
    submissionCountSinceDate: Option<Date> -> nat)

  /** The dictionary `nlp_tracking_data` returns. */
  datatype NlpTracking = NlpTracking(totalNlpAsrSeconds: int, totalNlpMtCharacters: int)

  /** `KobocatDeploymentBackend.nlp_tracking_data(asset_ids, start_date)`. */
  type NlpTrackingData = (seq<nat>, Option<Date>) -> NlpTracking

  /** `now.replace(day=1)`, which never raises. */
  function CalendarMonthStart(now: Date): (d: Date)
    requires Valid(now)
    ensures FromParts(now.year, now.month, 1) == Ok(d)
    ensures MonthOf(d) == MonthOf(now) && d.day == 1 && Le(d, now)
  {
    Date(now.year, now.month, 1)
  }

  /** `now.replace(day=1, month=1)`, which never raises. */
  function CalendarYearStart(now: Date): (d: Date)
    requires Valid(now)
    ensures FromParts(now.year, 1, 1) == Ok(d)
    ensures d.year == now.year && d.month == 1 && d.day == 1
    ensures Le(d, CalendarMonthStart(now)) && Le(d, now)
  {
    Date(now.year, 1, 1)
  }

  /** `_get_nlp_tracking_data`: zeros without a deployment, otherwise the
      backend's totals for this one asset since `start` (all time for `None`). */
  function NlpTrackingFor(asset: Asset, deployment: Option<Deployment>, start: Option<Date>, nlpTrackingData: NlpTrackingData): (r: NlpTracking)
    ensures deployment.None? ==> r == NlpTracking(0, 0)
    ensures deployment.Some? ==> r == nlpTrackingData([asset.pk], start)
  {
    if deployment.None? then NlpTracking(0, 0)
    else nlpTrackingData([asset.pk], start)
  }

  /** NLP usage since the start of the month, the window the aggregator
      resolves when there is no subscription. */
  function NlpUsageCurrentMonth(asset: Asset, deployment: Option<Deployment>, now: Date, nlpTrackingData: NlpTrackingData): (r: NlpTracking)
    requires Valid(now)
    ensures CurrentMonthStart(now, None).Ok? &&
      r == NlpTrackingFor(asset, deployment, Some(CurrentMonthStart(now, None).value), nlpTrackingData)
  {
    NlpTrackingFor(asset, deployment, Some(CalendarMonthStart(now)), nlpTrackingData)
  }

  /** NLP usage since the start of the year, the aggregator's window without
      a subscription. */
  function NlpUsageCurrentYear(asset: Asset, deployment: Option<Deployment>, now: Date, nlpTrackingData: NlpTrackingData): (r: NlpTracking)
    requires Valid(now)
    ensures CurrentYearStart(now, None).Ok? &&
      r == NlpTrackingFor(asset, deployment, Some(CurrentYearStart(now, None).value), nlpTrackingData)
  {
    NlpTrackingFor(asset, deployment, Some(CalendarYearStart(now)), nlpTrackingData)
  }

  /** NLP usage of all time: the backend is asked with no start date. */
  function NlpUsageAllTime(asset: Asset, deployment: Option<Deployment>, nlpTrackingData: NlpTrackingData): (r: NlpTracking)
    ensures deployment.None? ==> r == NlpTracking(0, 0)
    ensures deployment.Some? ==> r == nlpTrackingData([asset.pk], None)
  {
    NlpTrackingFor(asset, deployment, None, nlpTrackingData)
  }

  function SubmissionCountCurrentMonth(deployment: Option<Deployment>, now: Date): (r: nat)
    requires Valid(now)
    ensures deployment.None? ==> r == 0
    ensures deployment.Some? ==>
      CurrentMonthStart(now, None).Ok? &&
      r == deployment.value.submissionCountSinceDate(Some(CurrentMonthStart(now, None).value))
  {
    if deployment.None? then 0
    else deployment.value.submissionCountSinceDate(Some(CalendarMonthStart(now)))
  }

  function SubmissionCountCurrentYear(deployment: Option<Deployment>, now: Date): (r: nat)
    requires Valid(now)
    ensures deployment.None? ==> r == 0
    ensures deployment.Some? ==>
      CurrentYearStart(now, None).Ok? &&
      r == deployment.value.submissionCountSinceDate(Some(CurrentYearStart(now, None).value))
  {
    if deployment.None? then 0
    else deployment.value.submissionCountSinceDate(Some(CalendarYearStart(now)))
  }

  function SubmissionCountAllTime(deployment: Option<Deployment>): (r: nat)
    ensures deployment.None? ==> r == 0
    ensures deployment.Some? ==> r == deployment.value.submissionCountSinceDate(None)
  {
    if deployment.None? then 0
    else deployment.value.submissionCountSinceDate(None)
  }

  function StorageBytes(deployment: Option<Deployment>): (r: nat)
    ensures deployment.None? ==> r == 0
    ensures deployment.Some? ==> r == deployment.value.attachmentStorageBytes
  {
    if deployment.None? then 0 else deployment.value.attachmentStorageBytes
  }

  /** An asset without a deployment reports zero for every number, in every
      window, and consults neither its deployment nor the backend. */
  lemma UndeployedAssetReportsZero(asset: Asset, now: Date, nlpTrackingData: NlpTrackingData)
    requires Valid(now)
    ensures SubmissionCountCurrentMonth(None, now) == 0
    ensures SubmissionCountCurrentYear(None, now) == 0
    ensures SubmissionCountAllTime(None) == 0
    ensures StorageBytes(None) == 0
    ensures NlpUsageCurrentMonth(asset, None, now, nlpTrackingData) == NlpTracking(0, 0)
    ensures NlpUsageCurrentYear(asset, None, now, nlpTrackingData) == NlpTracking(0, 0)
    ensures NlpUsageAllTime(asset, None, nlpTrackingData) == NlpTracking(0, 0)
  {
  }

  /** The per-asset windows are the calendar month and year of `now`: the
      aggregator's windows without a subscription, whatever subscription the
      asset's owner has. */
  lemma AssetWindowsAreCalendarWindows(now: Date)
    requires Valid(now)
    ensures CurrentMonthStart(now, None) == Ok(CalendarMonthStart(now))
    ensures CurrentYearStart(now, None) == Ok(CalendarYearStart(now))
  {
  }
}
