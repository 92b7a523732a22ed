/** The stored rows the usage serializers read, as snapshots: assets, the
    deployment forms linked to them, the daily submission counters of those
    forms, the daily NLP counters of the assets, and organizations with
    their memberships. Each table is a sequence in query order.
 */
module UsageRecords {
  import opened Outcomes
  import opened Dates
  import opened BillingPeriod

  type UserId = nat

  /** `kpi.constants.ASSET_TYPE_SURVEY`. */
  const AssetTypeSurvey: string := "survey"

  /** The key of `_deployment_data` that marks a deployed asset. */
  const BackendKey: string := "backend"

  /** An asset: its primary key, `uid`, owner, `asset_type` and the keys of
      its `_deployment_data`. */
  datatype Asset = Asset(pk: nat, uid: string, owner: UserId, assetType: string, deploymentDataKeys: set<string>)

  /** A deployment form, linked to its asset through `kpi_asset_uid`. */
  datatype XForm = XForm(id: nat, kpiAssetUid: string, attachmentStorageBytes: nat)

  /** One day's submission counter of one form. */
  datatype DailyCounter = DailyCounter(xformId: nat, date: Date, counter: nat)

  /** One day's NLP usage of one asset. */
  datatype NlpCounter = NlpCounter(assetId: nat, date: Date, totalAsrSeconds: nat, totalMtCharacters: nat)

  /** An organization, the user its owner's membership belongs to, and the
      outcome of the subscription lookup: its first subscription whose status
      is active, past due or trialing, if there is one. */
  datatype Organization = Organization(id: string, ownerUser: UserId, subscription: Option<Subscription>)

  /** A membership of a user in an organization. */
  datatype OrganizationUser = OrganizationUser(organizationId: string, user: UserId)

  datatype Store = Store(
    assets: seq<Asset>,
    xforms: seq<XForm>,
    dailyCounters: seq<DailyCounter>,
    nlpCounters: seq<NlpCounter>,
    organizations: seq<Organization>,
    organizationUsers: seq<OrganizationUser>)

  /** Subscription dates are date parts of stored timestamps. */
  predicate ValidStore(store: Store) {
    forall k :: 0 <= k < |store.organizations| ==> ValidSubscriptionOption(store.organizations[k].subscription)
  }
}
