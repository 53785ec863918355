/** Plans, prices and subscription rows (src/modules/billing/plan-quota.ts, src/modules/companies). */
module BillingTypes {
  import opened Common

  datatype Plan = Starter | Growth | Scale | Enterprise

  datatype Status = Trial | Active | PastDue | Suspended | Cancelled | Expired

  type CompanyId = nat
  type EventId = nat
  type ProviderSubscriptionId = nat

  /** The contact quota and the whole-MAD price configured per plan; a plan may be missing. */
  datatype Config = Config(quotas: map<Plan, nat>, prices: map<Plan, nat>)

  datatype BillingError =
    | EnterpriseNotAutomated
    | NotConfigured(plan: Plan)
    | InvalidTransition(from: Status, to: Status)
    | UnknownSubscription
    | CompanyNotFound
    | MarkerConflict
    | ActiveSubscriptionConflict
    | InvoiceConflict
    | OutsideFailure
    | AlreadySubscribed
    | NoActiveSubscription
    | SamePlan
    | SubscriptionNotFound
    | NotSuspendable
    | NotSuspended
    | LiveElsewhere
    | QuotaRequired

  function ResolveContactQuota(plan: Plan, cfg: Config): Result<nat, BillingError> {
    if plan.Enterprise? then Err(EnterpriseNotAutomated)
    else if plan !in cfg.quotas then Err(NotConfigured(plan))
    else Ok(cfg.quotas[plan])
  }

  function ResolveMonthlyPriceHt(plan: Plan, cfg: Config): Result<nat, BillingError> {
    if plan.Enterprise? then Err(EnterpriseNotAutomated)
    else if plan !in cfg.prices then Err(NotConfigured(plan))
    else Ok(cfg.prices[plan] * 100)
  }

  /** SUBSCRIPTION_STATUS_TRANSITIONS: cancelled and expired rows are terminal, and no status leads to itself. */
  function Transitions(from: Status): set<Status> {
    match from
    case Trial => {Active, Expired, Cancelled, Suspended}
    case Active => {PastDue, Cancelled, Suspended}
    case PastDue => {Active, Cancelled, Suspended}
    case Suspended => {Active, Cancelled, Expired}
    case Cancelled => {}
    case Expired => {}
  }

  /** From where each status is reached. */
  lemma StatusesAreReached(from: Status, to: Status)
    ensures to in Transitions(from)
            <==> match to
                 case Trial => false
                 case Active => from.Trial? || from.PastDue? || from.Suspended?
                 case PastDue => from.Active?
                 case Suspended => from.Trial? || from.Active? || from.PastDue?
                 case Cancelled => from.Trial? || from.Active? || from.PastDue? || from.Suspended?
                 case Expired => from.Trial? || from.Suspended?
  {
  }

  datatype Subscription = Subscription(
    companyId: CompanyId,
    plan: Plan,
    status: Status,
    externalId: Option<ProviderSubscriptionId>,
    startsAt: Instant,
    endsAt: Option<Instant>,
    contactQuota: nat,
    contactsUsed: nat,
    pastDueSince: Option<Instant>,
    cancelAtPeriodEnd: bool)
}
