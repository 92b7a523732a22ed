# Service usage: billing windows and usage totals

This project models the usage summary of the survey platform's `service_usage`
serializers in Dafny and proves properties of that model.

- **Billing-period resolver.** Given today's date and an organization's
  subscription, it finds where the current usage month and the current usage
  year start. The subscription is optional and bills monthly or yearly. It has
  a billing-cycle anchor date and the provider's current period start. The
  window that matches the billing interval starts on the provider's period
  start. The other window is derived from the anchor. With no subscription
  the windows are the calendar month and the calendar year.
- **Usage aggregator (`ServiceUsageSerializer`).** It resolves the users whose
  usage is counted: the serialized user alone, or the members of an
  organization that the requesting user owns. It then selects their deployed survey assets.
  It totals the attachment storage of the linked forms. It also totals the
  daily submission counters and the daily NLP counters (ASR seconds, MT
  characters), all time and over the two windows. Every total is 0 over no
  rows.
- **Per-asset usage (`AssetUsageSerializer`).** The same numbers for one
  asset, always over calendar windows. An asset without a deployment reports
  zeros.

Modules, in dependency order:

| file | module | contents |
|---|---|---|
| `outcomes.dfy` | `Outcomes` | `Error` (`ValueError`, `AttributeError`, `NotFound`), `Option`, `Result`, `Outcome` |
| `dates.dfy` | `Dates` | Gregorian dates of years 1 to 9999, leap years, order, `FromParts` (date construction that raises instead of clamping), previous and next month |
| `tally.dfy` | `Tally` | `Filter` and `Sum` over rows, and their lemmas: order independence, monotonicity, partition |
| `billing_period.dfy` | `BillingPeriod` | the resolver, and the resolver as the source writes it |
| `usage_records.dfy` | `UsageRecords` | the stored rows: assets, forms, counters, organizations, memberships |
| `service_usage.dfy` | `ServiceUsage` | the aggregator as pure functions, its lemmas, and the `ServiceUsageSerializer` class whose methods set the instance fields |
| `asset_usage.dfy` | `AssetUsage` | the per-asset getters |

Modelling choices:

- Today's date is a parameter. In the source it is captured once, when the
  class is defined (`kpi/serializers/v2/service_usage.py:31` and `:99`). The
  class keeps it as the constant field `now`, set by its constructor.
- The subscription is an `Option<Subscription>` with an interval `Month | Year`.
  The source instead probes which instance attributes exist.
- Every `date.replace` goes through `Dates.FromParts`. It gives `ValueError`
  when the day, month or year does not exist, as Python does; nothing is
  clamped. Examples: anchor day 31 into February, a 29 February anchor in a
  common year, January of year 1 wrapping back to year 0.
- Query results are sequences of records. Each `filter` is `Tally.Filter`.
  Each `Coalesce(Sum(...), 0)` is `Tally.Sum`. Date windows are inclusive at
  both ends, as `date__range` is.
- Two users take part. The serialized user (`instance`, line 109) starts the
  user list (line 127). The requesting user is the one the organization
  lookup is keyed on. `ResolveScope`, `ComputeUsage` and `GetPerAssetUsage`
  take them as two parameters, `user` and `requestUser`.
- Line 238 reads the requesting user as `self.request.user`, but a
  serializer has no `request` attribute: the request is only in its context,
  as line 130 reads it. So as written every request that names an
  organization raises `AttributeError` there, before the lookup and before
  any subscription attribute is assigned (lines 254-256).
  `ResolveScopeAsWritten` models that. Were line 238 corrected, line 242
  would still raise: it filters memberships by `organization=` the unsliced
  queryset of line 237, which Django (2.0 and later) refuses with
  `ValueError` for an exact lookup, and line 250 has the same shape.
  `ResolveScopeWithRequestUser` models that. The rest of the model uses the
  intended lookup.

Behaviour of the code that the model keeps:

- `date.replace` raises `ValueError` on a day missing from the target month,
  and so does the model; nothing is clamped.
- As written the `Http404` branch (lines 244-246) cannot be reached; see
  Findings. The model uses the intended `NotFound` for an organization the
  user does not own.
- As written the query collapses the three windows into one; see Findings.
  The model sums each window independently over the same rows.
- Every window the resolver computes itself is on or before today. A window
  copied from the provider's period start is on or before today only when
  that period start is; the model proves exactly that.

## Model

| member | source | states |
|---|---|---|
| `Dates.PreviousMonth` | kpi/serializers/v2/service_usage.py:214-218 | the month before: a valid month whose month index is one less, so January wraps to December of the previous year |
| `BillingPeriod.AnchorDayMonthStart` | kpi/serializers/v2/service_usage.py:210-219 | yearly subscription, month window: if today's day is past the anchor day, the anchor day of this month; otherwise the anchor day of the previous month, a `ValueError` exactly when that month lacks the day or the year would be 0; any result is valid, strictly before today, and the next month's anchor day is not before today |
| `BillingPeriod.AnniversaryYearStart` | kpi/serializers/v2/service_usage.py:228-231 | monthly subscription, year window: the anchor's month and day in today's year, or the year before when that is after today; a `ValueError` exactly for a 29 February anchor in a common year, or when the year before is needed and is year 0 or the anchor is 29 February; any result is on or before today and its next anniversary is after today |
| `BillingPeriod.CurrentMonthStart` | kpi/serializers/v2/service_usage.py:203-219 | no subscription: day 1 of today's month; monthly subscription: the provider's period start unchanged; yearly: the anchor-day rule; only `ValueError` can occur; on or before today whenever the period start is |
| `BillingPeriod.CurrentYearStart` | kpi/serializers/v2/service_usage.py:221-231 | no subscription: 1 January of today's year; yearly subscription: the provider's period start unchanged; monthly: the anniversary rule; only `ValueError` can occur; on or before today whenever the period start is |
| `BillingPeriod.NoSubscriptionCalendarWindows` | kpi/serializers/v2/service_usage.py:204-206 | without a subscription both windows resolve (month and year alike, also lines 222-224) to calendar starts, year start ≤ month start ≤ today |
| `BillingPeriod.WorkedExamples` | kpi/serializers/v2/service_usage.py:203-231 | 2024-03-15 with a monthly anchor of 20 January gives year start 2024-01-20; yearly anchor day 20 gives month start 2024-02-20 on 2024-03-15 and 2024-03-20 on 2024-03-25; anchor day 31 on 2023-03-01 is a `ValueError` |
| `BillingPeriod.MonthStartAsWritten` | kpi/serializers/v2/service_usage.py:204-206 | as written: always day 1 of today's month, whatever the subscription |
| `BillingPeriod.MonthStartIgnoresSubscription` | kpi/serializers/v2/service_usage.py:204 | two subscriptions for which the as-written and the intended month start differ |
| `BillingPeriod.YearStartAsWritten` | kpi/serializers/v2/service_usage.py:221-231 | as written: `AttributeError` for every yearly subscription; otherwise the intended year start |
| `BillingPeriod.YearlyYearStartRaises` | kpi/serializers/v2/service_usage.py:225-227 | for every yearly subscription, as written raises where the period start is meant |
| `ServiceUsage.FindOrganization` | kpi/serializers/v2/service_usage.py:237-240 | finds an organization with that id owned by the user exactly when one exists |
| `ServiceUsage.Members` | kpi/serializers/v2/service_usage.py:242-243 | a user is in the list exactly when some membership ties that user to the organization |
| `ServiceUsage.OrganizationScope` | kpi/serializers/v2/service_usage.py:236-256 | a named organization: `NotFound` exactly when the requesting user owns no organization with that id; otherwise the members and subscription of one such organization |
| `ServiceUsage.ResolveScope` | kpi/serializers/v2/service_usage.py:127-131 | no organization id (absent or empty): exactly the serialized user and no subscription; otherwise exactly the lookup keyed on the requesting user |
| `ServiceUsage.ResolveScopeAsWritten` | kpi/serializers/v2/service_usage.py:233-246 | as written: fails with `AttributeError` exactly when an organization is named; otherwise the serialized user alone, as intended |
| `ServiceUsage.ResolveScopeWithRequestUser` | kpi/serializers/v2/service_usage.py:236-246 | with the request's user read correctly at line 238: fails with `ValueError` exactly when an organization is named, since line 242 passes an unsliced queryset to an exact lookup; otherwise the serialized user alone |
| `ServiceUsage.OrganizationRequestRaises` | kpi/serializers/v2/service_usage.py:238-243 | a user who owns organization "5": as written the request raises `AttributeError`, with line 238 corrected `ValueError`, where its members are meant |
| `ServiceUsage.SelectedAssets` | kpi/serializers/v2/service_usage.py:134-141 | an asset is counted exactly when it is a survey, owned by one of the users, with a `backend` deployment key |
| `ServiceUsage.LinkedXForms` | kpi/serializers/v2/service_usage.py:143-145 | a form is counted exactly when its asset uid is one of the counted assets' uids |
| `ServiceUsage.LinkedCounters` | kpi/serializers/v2/service_usage.py:156-157 | a submission counter is counted exactly when its form is one of the counted forms |
| `ServiceUsage.LinkedNlpRows` | kpi/serializers/v2/service_usage.py:177-178 | an NLP counter is counted exactly when its asset is one of the counted assets |
| `ServiceUsage.StorageBytes` | kpi/serializers/v2/service_usage.py:147-150 | 0 over no forms, and every form's attachment bytes are part of the total |
| `ServiceUsage.SubmissionTotals` | kpi/serializers/v2/service_usage.py:154-170 | all zeros over no counters; each window total is at most the all-time total, and the month total at most the year total when the year window starts no later |
| `ServiceUsage.NlpTotals` | kpi/serializers/v2/service_usage.py:172-201 | the same for ASR seconds and MT characters: zeros over no rows, windows bounded by all time, month bounded by year when the year window starts first |
| `ServiceUsage.Summarize` | kpi/serializers/v2/service_usage.py:133-201 | the windows are reported as given, and the storage total covers every form linked to a counted asset |
| `ServiceUsage.ComputeUsage` | kpi/serializers/v2/service_usage.py:126-201 | a request for the serialized user by the requesting user fails only with `NotFound` (exactly when the organization does not resolve) or `ValueError` (exactly when it resolves and one of its windows does not); without an organization it cannot fail and reports calendar windows; a success reports the resolver's two windows for the organization's subscription and the tallies of the resolved users over them |
| `ServiceUsage.NoDeployedSurveysGiveZeroUsage` | kpi/serializers/v2/service_usage.py:147-199 | users with no counted asset get zero storage and zero submission and NLP totals in every window |
| `ServiceUsage.UserOrderIrrelevant` | kpi/serializers/v2/service_usage.py:137 | user lists with the same members give the same tallies |
| `ServiceUsage.RowOrderIrrelevant` | kpi/serializers/v2/service_usage.py:143-199 | reordering any table's rows leaves every tally unchanged |
| `ServiceUsage.AllTimeCountsRowsOutsideWindow` | kpi/serializers/v2/service_usage.py:155-168 | the all-time total is the year-window total plus the counters dated outside the year window |
| `ServiceUsage.SubmissionTotalsAsWritten` | kpi/serializers/v2/service_usage.py:155-168 | as written: all three submission values are equal, and at most the intended current-month value |
| `ServiceUsage.NlpTotalsAsWritten` | kpi/serializers/v2/service_usage.py:172-199 | as written: the three ASR values are equal, and so are the three MT values |
| `ServiceUsage.ChainedFiltersDropOlderRows` | kpi/serializers/v2/service_usage.py:155-199 | a counter dated before the year window: as written every value is 0; intended, all time counts it |
| `ServiceUsage.MissingOrganizationAsWritten` | kpi/serializers/v2/service_usage.py:236-246 | an organization the requesting user does not own: as written `AttributeError`, with line 238 corrected `ValueError`, neither of which reaches `Http404`; intended `NotFound` |
| `ServiceUsage.ServiceUsageSerializer.constructor` | kpi/serializers/v2/service_usage.py:101-108 | the fields start empty: no totals, no windows, storage 0, no subscription |
| `ServiceUsage.ServiceUsageSerializer.Summary` | kpi/serializers/v2/service_usage.py:111-124 | what the getters report: present exactly when every total and window field is set, and then each value is its field |
| `ServiceUsage.ServiceUsageSerializer.GetOrganizationDetails` | kpi/serializers/v2/service_usage.py:233-256 | with no organization named, succeeds and changes nothing; otherwise fails exactly as `OrganizationScope` does for the requesting user, and on success sets the user list to the members and records the subscription when there is one; changes only the user list and the subscription fields |
| `ServiceUsage.ServiceUsageSerializer.LoadStorage` | kpi/serializers/v2/service_usage.py:133-150 | the storage total becomes that of the forms of the current users' deployed surveys; nothing else changes |
| `ServiceUsage.ServiceUsageSerializer.LoadWindows` | kpi/serializers/v2/service_usage.py:152-153 | succeeds exactly when both windows resolve, with the month window's error first; the month start is set exactly when the month window resolves, the year start exactly on success, and otherwise each keeps its value |
| `ServiceUsage.ServiceUsageSerializer.LoadTallies` | kpi/serializers/v2/service_usage.py:154-201 | the submission and NLP totals become the tallies of the current users' rows over the windows already set |
| `ServiceUsage.ServiceUsageSerializer.LoadTotals` | kpi/serializers/v2/service_usage.py:133-201 | succeeds exactly when both windows of the recorded subscription resolve, failing with the month window's error first; the storage total is always set; on success the fields hold the tallies of the current users over those windows; on failure the month start is set exactly when the month window resolved and the year start and both tallies keep their values |
| `ServiceUsage.ServiceUsageSerializer.GetPerAssetUsage` | kpi/serializers/v2/service_usage.py:126-201 | for the serialized user and the requesting user, succeeds exactly when `ComputeUsage` does, with the same error otherwise; on success the fields hold `ComputeUsage`'s summary and the user list is the resolved one |
| `AssetUsage.CalendarMonthStart` | kpi/serializers/v2/service_usage.py:49 | `now.replace(day=1)` never raises, stays in today's month, and is on or before today |
| `AssetUsage.CalendarYearStart` | kpi/serializers/v2/service_usage.py:53 | `now.replace(day=1, month=1)` never raises, and is on or before the month start and today |
| `AssetUsage.NlpTrackingFor` | kpi/serializers/v2/service_usage.py:84-90 | zeros without a deployment; otherwise the backend's totals for exactly this asset's id from the given start |
| `AssetUsage.NlpUsageCurrentMonth` | kpi/serializers/v2/service_usage.py:48-50 | the NLP usage from the aggregator's month window without a subscription |
| `AssetUsage.NlpUsageCurrentYear` | kpi/serializers/v2/service_usage.py:52-54 | the NLP usage from the aggregator's year window without a subscription |
| `AssetUsage.NlpUsageAllTime` | kpi/serializers/v2/service_usage.py:56-57 | zeros without a deployment; otherwise the backend asked with no start date |
| `AssetUsage.SubmissionCountCurrentMonth` | kpi/serializers/v2/service_usage.py:59-63 | 0 without a deployment; otherwise the deployment's count since the aggregator's month window without a subscription |
| `AssetUsage.SubmissionCountCurrentYear` | kpi/serializers/v2/service_usage.py:65-69 | 0 without a deployment; otherwise the deployment's count since the aggregator's year window without a subscription |
| `AssetUsage.SubmissionCountAllTime` | kpi/serializers/v2/service_usage.py:71-75 | 0 without a deployment; otherwise the deployment's count with no start date |
| `AssetUsage.StorageBytes` | kpi/serializers/v2/service_usage.py:77-82 | 0 without a deployment; otherwise the deployment's attachment bytes |
| `AssetUsage.UndeployedAssetReportsZero` | kpi/serializers/v2/service_usage.py:48-90 | without a deployment, every submission count, the storage bytes and every NLP total are 0 in every window |
| `AssetUsage.AssetWindowsAreCalendarWindows` | kpi/serializers/v2/service_usage.py:49-53 | the per-asset windows are the aggregator's windows without a subscription: the calendar month and year starts |

## Left out

- The HTTP views (`kpi/views.py`) are not part of this model. They are routing, permissions and rendering over framework classes.
- Django ORM mechanics are left out: `.only`, `.select_related`, SQL generation and the `ObjectDoesNotExist` to `Http404` mapping. Queries are modelled as filters and sums over row sequences.
- The subscription lookup is left out: the status filter, `.first()` and `items.get().price.recurring`. `Organization.subscription` stands for its result. The error `items.get()` raises for several items is not modelled.
- Stripe intervals other than `month` and `year` are not modelled. The source would send `day` or `week` down the yearly branch for the month window and the monthly branch for the year window.
- The clock is left out. `timezone.now().date()` is a parameter, so the source's stale class-level date is not modelled.
- `submission_count_since_date`, `nlp_tracking_data` and `has_deployment` are code this model does not include. They are function values and an optional `Deployment`.
- Serializer field and hyperlink declarations are left out (lines 19-46, 94-98). The one-line getters at lines 111-124 are modelled together by `ServiceUsageSerializer.Summary`, which reads the same fields.
- `ServiceUsageSerializer.constructor` covers the field initialisation of `__init__` (lines 101-108) only. The call at line 109 is `GetPerAssetUsage`, which requires a fresh instance (no subscription yet recorded).
- ServiceUsage.ServiceUsageSerializer.GetPerAssetUsage: on failure its contract states only the error, not the partly set fields, because the exception ends the initializer and the instance is never used.
- Counter, byte and NLP columns are `nat`. Negative stored values are not modelled.

## Findings

| source | as written | input that shows it | evidently intended | confidence | as-written member | corrected member |
|---|---|---|---|---|---|---|
| kpi/serializers/v2/service_usage.py:238 | reads `self.request.user`; a serializer has no `request` attribute, so every request naming an organization raises `AttributeError`, which `except ObjectDoesNotExist` does not catch | `organization_id="5"`, for a user who owns organization 5: `AttributeError` | the request's user, as line 130 reads the request from the context (line 242 then raises too; see the row for lines 236-246) | high; not executed | `ServiceUsage.ResolveScopeAsWritten`, `ServiceUsage.OrganizationRequestRaises` | `ServiceUsage.ResolveScope` |
| kpi/serializers/v2/service_usage.py:204 | the guard probes `anchor_date`, but line 254 assigns `_anchor_date`, so the month window is always the calendar month | yearly subscription with anchor day 20, today 2024-03-25: month start 2024-03-01 (reachable only once lines 238, 242 and 250 are fixed, since lines 254-256 run after them) | 2024-03-20; for a monthly subscription, its period start | high; not executed | `BillingPeriod.MonthStartAsWritten`, `BillingPeriod.MonthStartIgnoresSubscription` | `BillingPeriod.CurrentMonthStart` |
| kpi/serializers/v2/service_usage.py:227 | reads `_current_period`, but line 255 assigns `_period_start`, so a yearly subscription raises `AttributeError` | any yearly subscription (reachable only once lines 238, 242 and 250 are fixed, since lines 254-256 run after them) | the provider's current period start | high; not executed | `BillingPeriod.YearStartAsWritten`, `BillingPeriod.YearlyYearStartRaises` | `BillingPeriod.CurrentYearStart` |
| kpi/serializers/v2/service_usage.py:155-199 | each chained `filter` narrows the one query, and `Func(..., function='Sum')` is not an aggregate, so all three values sum the rows inside both windows | one counter of 5 dated 2023-06-01; windows from 2024-01-01 and 2024-03-01; today 2024-03-15: all three values 0 | all time 5, both windows 0 (independent range sums) | medium; not executed | `ServiceUsage.SubmissionTotalsAsWritten`, `ServiceUsage.NlpTotalsAsWritten`, `ServiceUsage.ChainedFiltersDropOlderRows` | `ServiceUsage.AllTimeCountsRowsOutsideWindow`, `ServiceUsage.SubmissionTotals`, `ServiceUsage.NlpTotals` |
| kpi/serializers/v2/service_usage.py:236-246 | `Http404` cannot be reached: line 238 raises `AttributeError`, and line 242 would then raise `ValueError` (an exact lookup on the unsliced queryset of line 237, refused by Django 2.0 and later); neither is `ObjectDoesNotExist` | any organization id, owned or not; e.g. one the requesting user owns no organization under: `AttributeError` | `Http404` (not found) for an unowned organization, the members otherwise | medium; not executed | `ServiceUsage.ResolveScopeWithRequestUser`, `ServiceUsage.MissingOrganizationAsWritten` | `ServiceUsage.ResolveScope` |
