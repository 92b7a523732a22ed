/** The usage aggregator of `ServiceUsageSerializer`: it resolves the users
    whose usage is counted (the requesting user, or every member of an
    organization the user owns), the organization's subscription, the two
    billing windows, and then totals storage bytes, submission counters and
    NLP counters over the users' deployed surveys.

    The pure functions below specify one request; the class keeps the
    serializer's instance fields and its methods set them in the order the
    serializer does, proved against those functions.
 */
module ServiceUsage {
  import opened Outcomes
  import opened Dates
  import opened Tally
  import opened BillingPeriod
  import opened UsageRecords

  datatype SubmissionCount = SubmissionCount(allTime: nat, currentYear: nat, currentMonth: nat)

  datatype NlpUsage = NlpUsage(
    asrSecondsAllTime: nat, asrSecondsCurrentYear: nat, asrSecondsCurrentMonth: nat,
    mtCharactersAllTime: nat, mtCharactersCurrentYear: nat, mtCharactersCurrentMonth: nat)

  datatype UsageSummary = UsageSummary(
    totalStorageBytes: nat,
    totalSubmissionCount: SubmissionCount,
    totalNlpUsage: NlpUsage,
    currentMonthStart: Date,
    currentYearStart: Date)

  /** Whose usage is counted, and under which subscription. */
  datatype Scope = Scope(users: seq<UserId>, subscription: Option<Subscription>)

  // ---------------------------------------------------------------------
  // Users and subscription

  /** `if not organization_id`: a missing or empty query parameter. */
  predicate NoOrganization(organizationId: Option<string>) {
    organizationId.None? || organizationId.value == ""
  }

  /** The lookup's filter: the organization with this id whose owner is `user`. */
  predicate OwnedBy(org: Organization, id: string, user: UserId) {
    org.id == id && org.ownerUser == user
  }

  /** The first organization with this id owned by `user`, if there is one. */
  function FindOrganization(orgs: seq<Organization>, id: string, user: UserId): (r: Option<Organization>)
    ensures r.Some? ==> r.value in orgs && OwnedBy(r.value, id, user)
    ensures r.None? <==> forall k :: 0 <= k < |orgs| ==> !OwnedBy(orgs[k], id, user)
  {
    if orgs == [] then None
    else if OwnedBy(orgs[0], id, user) then Some(orgs[0])
    else FindOrganization(orgs[1..], id, user)
  }

  /** The users of the organization's memberships, in membership order. */
  function Members(memberships: seq<OrganizationUser>, orgId: string): (r: seq<UserId>)
    ensures |r| <= |memberships|
    ensures forall u :: u in r <==>
      exists k :: 0 <= k < |memberships| && memberships[k] == OrganizationUser(orgId, u)
  {
    if memberships == [] then []
    else
      var rest := Members(memberships[1..], orgId);
      assert forall k :: 1 <= k < |memberships| ==> memberships[k] == memberships[1..][k - 1];
      if memberships[0].organizationId == orgId then [memberships[0].user] + rest else rest
  }

  /** The lookup of a named organization (`_get_organization_details`):
      the members of the organization with this id that `requestUser` owns,
      and its subscription, or `NotFound` when there is no such organization. */
  function OrganizationScope(store: Store, requestUser: UserId, id: string): (r: Result<Scope>)
    requires ValidStore(store)
    ensures r.Err? <==>
      forall k :: 0 <= k < |store.organizations| ==> !OwnedBy(store.organizations[k], id, requestUser)
    ensures r.Err? ==> r.error == NotFound
    ensures r.Ok? ==>
      exists k :: 0 <= k < |store.organizations| &&
        OwnedBy(store.organizations[k], id, requestUser) &&
        r.value.subscription == store.organizations[k].subscription &&
        r.value.users == Members(store.organizationUsers, id)
    ensures r.Ok? ==> ValidSubscriptionOption(r.value.subscription)
  {
    match FindOrganization(store.organizations, id, requestUser)
    case None => Err(NotFound)
    case Some(org) => Ok(Scope(Members(store.organizationUsers, org.id), org.subscription))
  }

  /** The users and subscription for one request: `user` is the serialized
      user, which `_get_per_asset_usage` puts in the user list first, and
      `requestUser` the user the request is made by, on whom the lookup is
      keyed. With no organization named the serialized user alone and no
      subscription; otherwise the lookup's outcome. */
  function ResolveScope(store: Store, user: UserId, requestUser: UserId, organizationId: Option<string>): (r: Result<Scope>)
    requires ValidStore(store)
    ensures NoOrganization(organizationId) ==> r == Ok(Scope([user], None))
    ensures !NoOrganization(organizationId) ==> r == OrganizationScope(store, requestUser, organizationId.value)
    ensures r.Ok? ==> ValidSubscriptionOption(r.value.subscription)
  {
    if NoOrganization(organizationId) then Ok(Scope([user], None))
    else OrganizationScope(store, requestUser, organizationId.value)
  }

  /** The lookup as written: for a named organization, `service_usage.py`
      line 238 reads the requesting user as `self.request.user`, and a
      serializer has no `request` attribute (the request is in its
      context), so every organization request raises `AttributeError`,
      which the `ObjectDoesNotExist` handler does not catch. */
  function ResolveScopeAsWritten(store: Store, user: UserId, organizationId: Option<string>): (r: Result<Scope>)
    requires ValidStore(store)
    ensures r.Err? <==> !NoOrganization(organizationId)
    ensures r.Err? ==> r.error == AttributeError
    ensures r.Ok? ==> r == Ok(Scope([user], None))
  {
    if NoOrganization(organizationId) then Ok(Scope([user], None))
    else Err(AttributeError)
  }

  /** The lookup once `self.request.user` is read from the context: the
      membership filter (`service_usage.py` line 242) compares a foreign key
      with the unsliced organization queryset, which Django refuses with
      `ValueError` whether or not the organization exists, and the handler
      does not catch that either. */
  function ResolveScopeWithRequestUser(store: Store, user: UserId, organizationId: Option<string>): (r: Result<Scope>)
    requires ValidStore(store)
    ensures r.Err? <==> !NoOrganization(organizationId)
    ensures r.Err? ==> r.error == ValueError
    ensures r.Ok? ==> r == Ok(Scope([user], None))
  {
    if NoOrganization(organizationId) then Ok(Scope([user], None))
    else Err(ValueError)
  }

  /** User 1 owns organization "5", which has one member, user 2: as written
      the request raises, and still raises once the request's user is read
      correctly, where the members and the organization's subscription are
      meant. */
  lemma OrganizationRequestRaises()
    ensures var store := Store([], [], [], [], [Organization("5", 1, None)], [OrganizationUser("5", 2)]);
      ResolveScopeAsWritten(store, 1, Some("5")) == Err(AttributeError) &&
      ResolveScopeWithRequestUser(store, 1, Some("5")) == Err(ValueError) &&
      ResolveScope(store, 1, 1, Some("5")) == Ok(Scope([2], None))
  {
    var store := Store([], [], [], [], [Organization("5", 1, None)], [OrganizationUser("5", 2)]);
    assert Members(store.organizationUsers, "5") == [2];
  }

  // ---------------------------------------------------------------------
  // Rows counted for a set of users

  /** The asset filter: a survey owned by one of the users, with a `backend`
      key in its deployment data. */
  predicate Counted(a: Asset, users: seq<UserId>) {
    a.owner in users && a.assetType == AssetTypeSurvey && BackendKey in a.deploymentDataKeys
  }

  function SelectedAssets(assets: seq<Asset>, users: seq<UserId>): (r: seq<Asset>)
    ensures forall a :: a in r <==>
      a in assets && a.owner in users && a.assetType == AssetTypeSurvey && BackendKey in a.deploymentDataKeys
  {
    Filter(assets, (a: Asset) => Counted(a, users))
  }

  function AssetUids(assets: seq<Asset>): set<string> {
    set a | a in assets :: a.uid
  }

  function AssetPks(assets: seq<Asset>): set<nat> {
    set a | a in assets :: a.pk
  }

  /** The forms whose `kpi_asset_uid` is one of `uids`. */
  function LinkedXForms(xforms: seq<XForm>, uids: set<string>): (r: seq<XForm>)
    ensures forall x :: x in r <==> x in xforms && x.kpiAssetUid in uids
  {
    Filter(xforms, (x: XForm) => x.kpiAssetUid in uids)
  }

  function XFormIds(xforms: seq<XForm>): set<nat> {
    set x | x in xforms :: x.id
  }

  /** The submission counters of the forms numbered `ids`. */
  function LinkedCounters(counters: seq<DailyCounter>, ids: set<nat>): (r: seq<DailyCounter>)
    ensures forall c :: c in r <==> c in counters && c.xformId in ids
  {
    Filter(counters, (c: DailyCounter) => c.xformId in ids)
  }

  /** The NLP counters of the assets numbered `pks`. */
  function LinkedNlpRows(rows: seq<NlpCounter>, pks: set<nat>): (r: seq<NlpCounter>)
    ensures forall n :: n in r <==> n in rows && n.assetId in pks
  {
    Filter(rows, (n: NlpCounter) => n.assetId in pks)
  }

  function StorageOf(x: XForm): nat { x.attachmentStorageBytes }
  function CounterOf(c: DailyCounter): nat { c.counter }
  function AsrOf(n: NlpCounter): nat { n.totalAsrSeconds }
  function MtOf(n: NlpCounter): nat { n.totalMtCharacters }

  /** Attachment storage of the forms: 0 when there are none, and every
      form's bytes are part of it. */
  function StorageBytes(xforms: seq<XForm>): (r: nat)
    ensures xforms == [] ==> r == 0
    ensures forall x :: x in xforms ==> x.attachmentStorageBytes <= r
  {
    SumAtLeastEach(xforms, StorageOf);
    Sum(xforms, StorageOf)
  }

  /** `date__range=[start, end]`: both ends included. */
  predicate InRange(d: Date, start: Date, end: Date) {
    Le(start, d) && Le(d, end)
  }

  function CounterInRange(start: Date, end: Date): DailyCounter -> bool {
    (c: DailyCounter) => InRange(c.date, start, end)
  }

  function NlpInRange(start: Date, end: Date): NlpCounter -> bool {
    (n: NlpCounter) => InRange(n.date, start, end)
  }

  function CountersIn(counters: seq<DailyCounter>, start: Date, end: Date): seq<DailyCounter> {
    Filter(counters, CounterInRange(start, end))
  }

  function NlpRowsIn(rows: seq<NlpCounter>, start: Date, end: Date): seq<NlpCounter> {
    Filter(rows, NlpInRange(start, end))
  }

  /** Submission totals: all rows, rows in `[yearStart, now]` and rows in
      `[monthStart, now]`, each window an independent range over the same rows. */
  function SubmissionTotals(counters: seq<DailyCounter>, yearStart: Date, monthStart: Date, now: Date): (r: SubmissionCount)
    ensures counters == [] ==> r == SubmissionCount(0, 0, 0)
    ensures r.currentYear <= r.allTime && r.currentMonth <= r.allTime
    ensures Le(yearStart, monthStart) ==> r.currentMonth <= r.currentYear
  {
    var inYear, inMonth := CounterInRange(yearStart, now), CounterInRange(monthStart, now);
    FilterSumAtMost(counters, inYear, CounterOf);
    FilterSumAtMost(counters, inMonth, CounterOf);
    assert Le(yearStart, monthStart) ==>
      Sum(Filter(counters, inMonth), CounterOf) <= Sum(Filter(counters, inYear), CounterOf) by {
      if Le(yearStart, monthStart) {
        FilterSumMonotone(counters, inMonth, inYear, CounterOf);
      }
    }
    SubmissionCount(
      Sum(counters, CounterOf),
      Sum(CountersIn(counters, yearStart, now), CounterOf),
      Sum(CountersIn(counters, monthStart, now), CounterOf))
  }

  /** NLP totals: the same three windows for ASR seconds and for MT characters. */
  function NlpTotals(rows: seq<NlpCounter>, yearStart: Date, monthStart: Date, now: Date): (r: NlpUsage)
    ensures rows == [] ==> r == NlpUsage(0, 0, 0, 0, 0, 0)
    ensures r.asrSecondsCurrentYear <= r.asrSecondsAllTime && r.asrSecondsCurrentMonth <= r.asrSecondsAllTime
    ensures r.mtCharactersCurrentYear <= r.mtCharactersAllTime && r.mtCharactersCurrentMonth <= r.mtCharactersAllTime
    ensures Le(yearStart, monthStart) ==>
      r.asrSecondsCurrentMonth <= r.asrSecondsCurrentYear && r.mtCharactersCurrentMonth <= r.mtCharactersCurrentYear
  {
    var inYear, inMonth := NlpInRange(yearStart, now), NlpInRange(monthStart, now);
    FilterSumAtMost(rows, inYear, AsrOf);
    FilterSumAtMost(rows, inMonth, AsrOf);
    FilterSumAtMost(rows, inYear, MtOf);
    FilterSumAtMost(rows, inMonth, MtOf);
    assert Le(yearStart, monthStart) ==>
      Sum(Filter(rows, inMonth), AsrOf) <= Sum(Filter(rows, inYear), AsrOf) &&
      Sum(Filter(rows, inMonth), MtOf) <= Sum(Filter(rows, inYear), MtOf) by {
      if Le(yearStart, monthStart) {
        FilterSumMonotone(rows, inMonth, inYear, AsrOf);
        FilterSumMonotone(rows, inMonth, inYear, MtOf);
      }
    }
    NlpUsage(
      Sum(rows, AsrOf),
      Sum(NlpRowsIn(rows, yearStart, now), AsrOf),
      Sum(NlpRowsIn(rows, monthStart, now), AsrOf),
      Sum(rows, MtOf),
      Sum(NlpRowsIn(rows, yearStart, now), MtOf),
      Sum(NlpRowsIn(rows, monthStart, now), MtOf))
  }

  /** The tallies of the users' deployed surveys for the given windows. */
  function Summarize(store: Store, users: seq<UserId>, monthStart: Date, yearStart: Date, now: Date): (r: UsageSummary)
    ensures r.currentMonthStart == monthStart && r.currentYearStart == yearStart
    ensures forall x :: x in store.xforms && x.kpiAssetUid in AssetUids(SelectedAssets(store.assets, users)) ==>
      x.attachmentStorageBytes <= r.totalStorageBytes
  {
    var assets := SelectedAssets(store.assets, users);
    var xforms := LinkedXForms(store.xforms, AssetUids(assets));
    UsageSummary(
      StorageBytes(xforms),
      SubmissionTotals(LinkedCounters(store.dailyCounters, XFormIds(xforms)), yearStart, monthStart, now),
      NlpTotals(LinkedNlpRows(store.nlpCounters, AssetPks(assets)), yearStart, monthStart, now),
      monthStart,
      yearStart)
  }

  /** One request for the serialized `user`, made by `requestUser`: users
      and subscription, then the month and year windows, then the tallies.
      An unknown organization is `NotFound`; a window date that does not
      exist is `ValueError`; without an organization nothing can fail and
      the windows are the calendar month and year. */
  function ComputeUsage(store: Store, user: UserId, requestUser: UserId, organizationId: Option<string>, now: Date): (r: Result<UsageSummary>)
    requires Valid(now) && ValidStore(store)
    ensures r.Err? ==> r.error == NotFound || r.error == ValueError
    ensures (r.Err? && r.error == NotFound) <==> ResolveScope(store, user, requestUser, organizationId).Err?
    ensures NoOrganization(organizationId) ==>
      r.Ok? &&
      r.value.currentMonthStart == Date(now.year, now.month, 1) &&
      r.value.currentYearStart == Date(now.year, 1, 1)
    ensures var scope := ResolveScope(store, user, requestUser, organizationId);
      (r.Err? && r.error == ValueError) <==>
        scope.Ok? &&
        (CurrentMonthStart(now, scope.value.subscription).Err? || CurrentYearStart(now, scope.value.subscription).Err?)
    ensures var scope := ResolveScope(store, user, requestUser, organizationId);
      r.Ok? ==>
        scope.Ok? &&
        CurrentMonthStart(now, scope.value.subscription) == Ok(r.value.currentMonthStart) &&
        CurrentYearStart(now, scope.value.subscription) == Ok(r.value.currentYearStart) &&
        r == Ok(Summarize(store, scope.value.users, r.value.currentMonthStart, r.value.currentYearStart, now))
  {
    match ResolveScope(store, user, requestUser, organizationId)
    case Err(e) => Err(e)
    case Ok(scope) =>
      match CurrentMonthStart(now, scope.subscription)
      case Err(e) => Err(e)
      case Ok(monthStart) =>
        match CurrentYearStart(now, scope.subscription)
        case Err(e) => Err(e)
        case Ok(yearStart) => Ok(Summarize(store, scope.users, monthStart, yearStart, now))
  }

  // ---------------------------------------------------------------------
  // Properties of the tallies

  /** Users with no deployed survey have all-zero tallies; the windows are
      reported unchanged. */
  lemma NoDeployedSurveysGiveZeroUsage(store: Store, users: seq<UserId>, monthStart: Date, yearStart: Date, now: Date)
    requires SelectedAssets(store.assets, users) == []
    ensures Summarize(store, users, monthStart, yearStart, now) ==
      UsageSummary(0, SubmissionCount(0, 0, 0), NlpUsage(0, 0, 0, 0, 0, 0), monthStart, yearStart)
  {
  }

  /** Only which users are in the user list matters, not their order or repetition. */
  lemma UserOrderIrrelevant(store: Store, users1: seq<UserId>, users2: seq<UserId>, monthStart: Date, yearStart: Date, now: Date)
    requires forall u :: u in users1 <==> u in users2
    ensures Summarize(store, users1, monthStart, yearStart, now) == Summarize(store, users2, monthStart, yearStart, now)
  {
    FilterExtensional(store.assets, (a: Asset) => Counted(a, users1), (a: Asset) => Counted(a, users2));
  }

  /** The tallies do not depend on the order in which the store returns its rows. */
  lemma RowOrderIrrelevant(store1: Store, store2: Store, users: seq<UserId>, monthStart: Date, yearStart: Date, now: Date)
    requires multiset(store1.assets) == multiset(store2.assets)
    requires multiset(store1.xforms) == multiset(store2.xforms)
    requires multiset(store1.dailyCounters) == multiset(store2.dailyCounters)
    requires multiset(store1.nlpCounters) == multiset(store2.nlpCounters)
    ensures Summarize(store1, users, monthStart, yearStart, now) == Summarize(store2, users, monthStart, yearStart, now)
  {
    var assets1, assets2 := SelectedAssets(store1.assets, users), SelectedAssets(store2.assets, users);
    FilterPermutation(store1.assets, store2.assets, (a: Asset) => Counted(a, users));
    assert forall a :: a in assets1 <==> a in assets2 by {
      forall a ensures a in assets1 <==> a in assets2 {
        assert a in assets1 <==> a in multiset(assets1);
        assert a in assets2 <==> a in multiset(assets2);
      }
    }
    assert AssetUids(assets1) == AssetUids(assets2);
    assert AssetPks(assets1) == AssetPks(assets2);
    var uids, pks := AssetUids(assets1), AssetPks(assets1);

    var xforms1, xforms2 := LinkedXForms(store1.xforms, uids), LinkedXForms(store2.xforms, uids);
    FilterPermutation(store1.xforms, store2.xforms, (x: XForm) => x.kpiAssetUid in uids);
    SumPermutation(xforms1, xforms2, StorageOf);
    assert forall x :: x in xforms1 <==> x in xforms2 by {
      forall x ensures x in xforms1 <==> x in xforms2 {
        assert x in xforms1 <==> x in multiset(xforms1);
        assert x in xforms2 <==> x in multiset(xforms2);
      }
    }
    assert XFormIds(xforms1) == XFormIds(xforms2);
    var ids := XFormIds(xforms1);

    var counters1, counters2 := LinkedCounters(store1.dailyCounters, ids), LinkedCounters(store2.dailyCounters, ids);
    FilterPermutation(store1.dailyCounters, store2.dailyCounters, (c: DailyCounter) => c.xformId in ids);
    CounterTotalsPermutation(counters1, counters2, yearStart, monthStart, now);

    var rows1, rows2 := LinkedNlpRows(store1.nlpCounters, pks), LinkedNlpRows(store2.nlpCounters, pks);
    FilterPermutation(store1.nlpCounters, store2.nlpCounters, (n: NlpCounter) => n.assetId in pks);
    NlpTotalsPermutation(rows1, rows2, yearStart, monthStart, now);
  }

  lemma CounterTotalsPermutation(counters1: seq<DailyCounter>, counters2: seq<DailyCounter>, yearStart: Date, monthStart: Date, now: Date)
    requires multiset(counters1) == multiset(counters2)
    ensures SubmissionTotals(counters1, yearStart, monthStart, now) == SubmissionTotals(counters2, yearStart, monthStart, now)
  {
    SumPermutation(counters1, counters2, CounterOf);
    FilterPermutation(counters1, counters2, CounterInRange(yearStart, now));
    SumPermutation(CountersIn(counters1, yearStart, now), CountersIn(counters2, yearStart, now), CounterOf);
    FilterPermutation(counters1, counters2, CounterInRange(monthStart, now));
    SumPermutation(CountersIn(counters1, monthStart, now), CountersIn(counters2, monthStart, now), CounterOf);
  }

  lemma NlpTotalsPermutation(rows1: seq<NlpCounter>, rows2: seq<NlpCounter>, yearStart: Date, monthStart: Date, now: Date)
    requires multiset(rows1) == multiset(rows2)
    ensures NlpTotals(rows1, yearStart, monthStart, now) == NlpTotals(rows2, yearStart, monthStart, now)
  {
    SumPermutation(rows1, rows2, AsrOf);
    SumPermutation(rows1, rows2, MtOf);
    FilterPermutation(rows1, rows2, NlpInRange(yearStart, now));
    SumPermutation(NlpRowsIn(rows1, yearStart, now), NlpRowsIn(rows2, yearStart, now), AsrOf);
    SumPermutation(NlpRowsIn(rows1, yearStart, now), NlpRowsIn(rows2, yearStart, now), MtOf);
    FilterPermutation(rows1, rows2, NlpInRange(monthStart, now));
    SumPermutation(NlpRowsIn(rows1, monthStart, now), NlpRowsIn(rows2, monthStart, now), AsrOf);
    SumPermutation(NlpRowsIn(rows1, monthStart, now), NlpRowsIn(rows2, monthStart, now), MtOf);
  }

  /** All time counts every row: those in the year window and those outside it. */
  lemma AllTimeCountsRowsOutsideWindow(counters: seq<DailyCounter>, yearStart: Date, monthStart: Date, now: Date)
    ensures SubmissionTotals(counters, yearStart, monthStart, now).allTime ==
      SubmissionTotals(counters, yearStart, monthStart, now).currentYear +
      Sum(Filter(counters, (c: DailyCounter) => !InRange(c.date, yearStart, now)), CounterOf)
  {
    SumPartition(counters, CounterInRange(yearStart, now), (c: DailyCounter) => !InRange(c.date, yearStart, now), CounterOf);
  }

  // ---------------------------------------------------------------------
  // The windows as the source writes them

  /** Submission totals as written: each `filter` of the chain narrows the
      rows of the one query, and the annotations are plain `SUM` expressions,
      not aggregates, so all three are summed over the rows inside both
      windows. */
  function SubmissionTotalsAsWritten(counters: seq<DailyCounter>, yearStart: Date, monthStart: Date, now: Date): (r: SubmissionCount)
    ensures r.allTime == r.currentYear == r.currentMonth
    ensures r.allTime <= SubmissionTotals(counters, yearStart, monthStart, now).currentMonth
  {
    var both := CountersIn(CountersIn(counters, yearStart, now), monthStart, now);
    var inBoth := (c: DailyCounter) => InRange(c.date, yearStart, now) && InRange(c.date, monthStart, now);
    FilterTwice(counters, CounterInRange(yearStart, now), CounterInRange(monthStart, now), inBoth);
    FilterSumMonotone(counters, inBoth, CounterInRange(monthStart, now), CounterOf);
    var total := Sum(both, CounterOf);
    SubmissionCount(total, total, total)
  }

  /** NLP totals as written: the same collapse, for both metrics. */
  function NlpTotalsAsWritten(rows: seq<NlpCounter>, yearStart: Date, monthStart: Date, now: Date): (r: NlpUsage)
    ensures r.asrSecondsAllTime == r.asrSecondsCurrentYear == r.asrSecondsCurrentMonth
    ensures r.mtCharactersAllTime == r.mtCharactersCurrentYear == r.mtCharactersCurrentMonth
  {
    var both := NlpRowsIn(NlpRowsIn(rows, yearStart, now), monthStart, now);
    var asr, mt := Sum(both, AsrOf), Sum(both, MtOf);
    NlpUsage(asr, asr, asr, mt, mt, mt)
  }

  /** One counter from before the year window: as written it counts nowhere,
      not even all time; with independent windows it counts all time. */
  lemma ChainedFiltersDropOlderRows()
    ensures var counters := [DailyCounter(1, Date(2023, 6, 1), 5)];
      SubmissionTotalsAsWritten(counters, Date(2024, 1, 1), Date(2024, 3, 1), Date(2024, 3, 15)) == SubmissionCount(0, 0, 0) &&
      SubmissionTotals(counters, Date(2024, 1, 1), Date(2024, 3, 1), Date(2024, 3, 15)) == SubmissionCount(5, 0, 0)
    ensures var rows := [NlpCounter(7, Date(2023, 6, 1), 30, 400)];
      NlpTotalsAsWritten(rows, Date(2024, 1, 1), Date(2024, 3, 1), Date(2024, 3, 15)) == NlpUsage(0, 0, 0, 0, 0, 0) &&
      NlpTotals(rows, Date(2024, 1, 1), Date(2024, 3, 1), Date(2024, 3, 15)) == NlpUsage(30, 0, 0, 400, 0, 0)
  {
  }

  /** A missing organization: as written the request raises
      `AttributeError` before the lookup, and with the request's user read
      correctly it raises `ValueError` in the membership filter; neither is
      `ObjectDoesNotExist`, so the `Http404` branch is never reached. Meant
      is `NotFound`. */
  lemma MissingOrganizationAsWritten(store: Store, user: UserId, requestUser: UserId, id: string)
    requires ValidStore(store) && id != ""
    requires forall k :: 0 <= k < |store.organizations| ==> !OwnedBy(store.organizations[k], id, requestUser)
    ensures ResolveScopeAsWritten(store, user, Some(id)) == Err(AttributeError)
    ensures ResolveScopeWithRequestUser(store, user, Some(id)) == Err(ValueError)
    ensures ResolveScope(store, user, requestUser, Some(id)) == Err(NotFound)
  {
  }

  // ---------------------------------------------------------------------
  // The serializer's instance state

  class ServiceUsageSerializer {
    /** Today's date, fixed for the instance. */
    const now: Date
    var users: seq<UserId>
    /** `_anchor_date`, `_period_start` and `_subscription_interval`, set together. */
    var subscription: Option<Subscription>
    var totalStorageBytes: nat
    var totalSubmissionCount: Option<SubmissionCount>
    var totalNlpUsage: Option<NlpUsage>
    var currentMonthStart: Option<Date>
    var currentYearStart: Option<Date>

    ghost predicate Valid()
      reads this
    {
      Dates.Valid(now) && ValidSubscriptionOption(subscription)
    }

    /** The fields before any usage is loaded. */
    constructor (today: Date)
      requires Dates.Valid(today)
      ensures Valid() && now == today
      ensures users == [] && subscription == None && totalStorageBytes == 0
      ensures totalSubmissionCount == None && totalNlpUsage == None
      ensures currentMonthStart == None && currentYearStart == None
    {
      now := today;
      users := [];
      subscription := None;
      totalStorageBytes := 0;
      totalSubmissionCount := None;
      totalNlpUsage := None;
      currentMonthStart := None;
      currentYearStart := None;
    }

    /** What the serializer's fields report, once every one of them is set. */
    function Summary(): (r: Option<UsageSummary>)
      reads this
      ensures r.Some? <==>
        totalSubmissionCount.Some? && totalNlpUsage.Some? && currentMonthStart.Some? && currentYearStart.Some?
      ensures r.Some? ==>
        r.value.totalStorageBytes == totalStorageBytes &&
        Some(r.value.totalSubmissionCount) == totalSubmissionCount &&
        Some(r.value.totalNlpUsage) == totalNlpUsage &&
        Some(r.value.currentMonthStart) == currentMonthStart &&
        Some(r.value.currentYearStart) == currentYearStart
    {
      if totalSubmissionCount.Some? && totalNlpUsage.Some? && currentMonthStart.Some? && currentYearStart.Some?
      then Some(UsageSummary(totalStorageBytes, totalSubmissionCount.value, totalNlpUsage.value,
                             currentMonthStart.value, currentYearStart.value))
      else None
    }

    /** `_get_organization_details`: replaces the user list by the members of
        the named organization and records its subscription, if it has one. */
    method GetOrganizationDetails(store: Store, requestUser: UserId, organizationId: Option<string>) returns (outcome: Outcome)
      requires Valid() && ValidStore(store)
      modifies this`users, this`subscription
      ensures Valid()
      ensures NoOrganization(organizationId) ==> outcome.Pass?
      ensures !NoOrganization(organizationId) ==>
        var scope := OrganizationScope(store, requestUser, organizationId.value);
        (outcome.Pass? <==> scope.Ok?) &&
        (outcome.Fail? ==> outcome.error == scope.error) &&
        (outcome.Pass? ==>
          users == scope.value.users &&
          subscription == if scope.value.subscription.Some? then scope.value.subscription else old(subscription))
      ensures (NoOrganization(organizationId) || outcome.Fail?) ==>
        users == old(users) && subscription == old(subscription)
    {
      if NoOrganization(organizationId) {
        return Pass;
      }
      var org := FindOrganization(store.organizations, organizationId.value, requestUser);
      if org.None? {
        return Fail(NotFound);
      }
      users := Members(store.organizationUsers, org.value.id);
      if org.value.subscription.Some? {
        subscription := org.value.subscription;
      }
      outcome := Pass;
    }

    /** The storage total of the current users' deployed surveys
        (`_total_storage_bytes`, 0 when they have no forms). */
    method LoadStorage(store: Store)
      modifies this`totalStorageBytes
      ensures totalStorageBytes == StorageBytes(LinkedXForms(store.xforms, AssetUids(SelectedAssets(store.assets, users))))
    {
      var assets := SelectedAssets(store.assets, users);
      var xforms := LinkedXForms(store.xforms, AssetUids(assets));
      totalStorageBytes := StorageBytes(xforms);
    }

    /** The two windows for the recorded subscription, month first: a month
        window that raises leaves both unset, a year window that raises
        leaves only the year unset. */
    method LoadWindows() returns (outcome: Outcome)
      requires Valid()
      modifies this`currentMonthStart, this`currentYearStart
      ensures var monthStart := CurrentMonthStart(now, subscription);
        var yearStart := CurrentYearStart(now, subscription);
        (outcome.Pass? <==> monthStart.Ok? && yearStart.Ok?) &&
        (outcome.Fail? ==> outcome.error == if monthStart.Err? then monthStart.error else yearStart.error) &&
        currentMonthStart == (if monthStart.Ok? then Some(monthStart.value) else old(currentMonthStart)) &&
        currentYearStart == (if outcome.Pass? then Some(yearStart.value) else old(currentYearStart))
    {
      var monthStart := CurrentMonthStart(now, subscription);
      if monthStart.Err? {
        return Fail(monthStart.error);
      }
      currentMonthStart := Some(monthStart.value);
      var yearStart := CurrentYearStart(now, subscription);
      if yearStart.Err? {
        return Fail(yearStart.error);
      }
      currentYearStart := Some(yearStart.value);
      outcome := Pass;
    }

    /** The submission and NLP totals of the current users' deployed surveys
        over the windows already set. */
    method LoadTallies(store: Store)
      requires currentMonthStart.Some? && currentYearStart.Some?
      modifies this`totalSubmissionCount, this`totalNlpUsage
      ensures var assets := SelectedAssets(store.assets, users);
        var xforms := LinkedXForms(store.xforms, AssetUids(assets));
        totalSubmissionCount == Some(SubmissionTotals(LinkedCounters(store.dailyCounters, XFormIds(xforms)),
                                                      currentYearStart.value, currentMonthStart.value, now)) &&
        totalNlpUsage == Some(NlpTotals(LinkedNlpRows(store.nlpCounters, AssetPks(assets)),
                                        currentYearStart.value, currentMonthStart.value, now))
    {
      var assets := SelectedAssets(store.assets, users);
      var xforms := LinkedXForms(store.xforms, AssetUids(assets));
      totalSubmissionCount := Some(SubmissionTotals(
        LinkedCounters(store.dailyCounters, XFormIds(xforms)), currentYearStart.value, currentMonthStart.value, now));
      totalNlpUsage := Some(NlpTotals(
        LinkedNlpRows(store.nlpCounters, AssetPks(assets)), currentYearStart.value, currentMonthStart.value, now));
    }

    /** The part of `_get_per_asset_usage` after the user list is settled:
        the storage total, the two windows and the submission and NLP
        totals, in that order, for the current users and subscription. A
        window that raises leaves the later fields unchanged. */
    method LoadTotals(store: Store) returns (outcome: Outcome)
      requires Valid()
      modifies this`totalStorageBytes, this`currentMonthStart, this`currentYearStart
      modifies this`totalSubmissionCount, this`totalNlpUsage
      ensures Valid()
      ensures var monthStart := CurrentMonthStart(now, subscription);
        var yearStart := CurrentYearStart(now, subscription);
        (outcome.Pass? <==> monthStart.Ok? && yearStart.Ok?) &&
        (outcome.Fail? ==> outcome.error == if monthStart.Err? then monthStart.error else yearStart.error) &&
        (outcome.Pass? ==>
          Summary() == Some(Summarize(store, users, monthStart.value, yearStart.value, now)))
      ensures totalStorageBytes == StorageBytes(LinkedXForms(store.xforms, AssetUids(SelectedAssets(store.assets, users))))
      ensures var monthStart := CurrentMonthStart(now, subscription);
        outcome.Fail? ==>
          totalSubmissionCount == old(totalSubmissionCount) && totalNlpUsage == old(totalNlpUsage) &&
          currentYearStart == old(currentYearStart) &&
          currentMonthStart == if monthStart.Ok? then Some(monthStart.value) else old(currentMonthStart)
    {
      LoadStorage(store);
      outcome := LoadWindows();
      if outcome.Fail? {
        return;
      }
      LoadTallies(store);
      assert Summarize(store, users, currentMonthStart.value, currentYearStart.value, now) ==
        UsageSummary(totalStorageBytes, totalSubmissionCount.value, totalNlpUsage.value,
                     currentMonthStart.value, currentYearStart.value);
    }

    /** `_get_per_asset_usage`, which the initializer runs once on a fresh
        instance: sets the user list to the serialized `user`, looks up the
        organization for `requestUser`, then sets the storage total, the two
        windows and the submission and NLP totals, in that order. */
    method GetPerAssetUsage(store: Store, user: UserId, requestUser: UserId, organizationId: Option<string>) returns (outcome: Outcome)
      requires Valid() && ValidStore(store) && subscription.None?
      modifies this
      ensures Valid()
      ensures var expected := ComputeUsage(store, user, requestUser, organizationId, now);
        (outcome.Pass? <==> expected.Ok?) &&
        (outcome.Fail? ==> outcome.error == expected.error) &&
        (outcome.Pass? ==> Summary() == Some(expected.value))
      ensures outcome.Pass? ==> users == ResolveScope(store, user, requestUser, organizationId).value.users
    {
      users := [user];
      outcome := GetOrganizationDetails(store, requestUser, organizationId);
      if outcome.Fail? {
        return;
      }
      outcome := LoadTotals(store);
    }
  }
}
