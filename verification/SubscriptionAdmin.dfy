/** Staff operations on subscriptions (src/modules/companies/subscription-admin.service.ts). */
module SubscriptionAdmin {
  import opened Common
  import opened BillingTypes
  import opened PaymentWebhook

  const LIVE_STATUSES: set<Status> := {Trial, Active, PastDue, Suspended}

  // ---- What each operation makes of the row it loaded ----

  function Ended(row: Subscription, now: Instant): Subscription {
    row.(status := Cancelled, endsAt := Some(now), cancelAtPeriodEnd := false)
  }

  function Held(row: Subscription): Subscription {
    row.(status := Suspended, cancelAtPeriodEnd := false)
  }

  function Lifted(row: Subscription): Subscription {
    row.(status := Active)
  }

  function Assigned(row: Subscription, plan: Plan, quota: nat): Subscription {
    row.(plan := plan, contactQuota := quota, status := Active, cancelAtPeriodEnd := false, pastDueSince := None,
         endsAt := None)
  }

  function Provisioned(companyId: CompanyId, plan: Plan, quota: nat, now: Instant): Subscription {
    Subscription(companyId, plan, Active, None, now, None, quota, 0, None, false)
  }

  /** An explicit quota wins, and is the only way to an Enterprise plan. */
  function ResolveQuota(plan: Plan, override: Option<nat>, cfg: Config): Result<nat, BillingError> {
    if override.Some? then Ok(override.value)
    else if plan.Enterprise? then Err(QuotaRequired)
    else ResolveContactQuota(plan, cfg)
  }

  predicate LiveElsewhereFor(rows: seq<Subscription>, at: nat)
    requires at < |rows|
  {
    exists j :: 0 <= j < |rows| && j != at && rows[j].companyId == rows[at].companyId && IsLive(rows[j].status)
  }

  // ---- The operations on the table ----

  function Cancellation(rows: seq<Subscription>, at: nat, now: Instant): Result<seq<Subscription>, BillingError> {
    if at >= |rows| then Err(SubscriptionNotFound) else Ok(rows[at := Ended(rows[at], now)])
  }

  function Suspension(rows: seq<Subscription>, at: nat): Result<seq<Subscription>, BillingError> {
    if at >= |rows| then Err(SubscriptionNotFound)
    else if Suspended !in Transitions(rows[at].status) then Err(NotSuspendable)
    else Ok(rows[at := Held(rows[at])])
  }

  function Reactivation(rows: seq<Subscription>, at: nat): Result<seq<Subscription>, BillingError> {
    if at >= |rows| then Err(SubscriptionNotFound)
    else if !rows[at].status.Suspended? then Err(NotSuspended)
    else if LiveElsewhereFor(rows, at) then Err(LiveElsewhere)
    else Ok(rows[at := Lifted(rows[at])])
  }

  function Assignment(rows: seq<Subscription>, companies: set<CompanyId>, companyId: CompanyId, plan: Plan,
          override: Option<nat>, cfg: Config, now: Instant)
    : Result<seq<Subscription>, BillingError>
  {
    if companyId !in companies then Err(CompanyNotFound)
    else
      var quota :- ResolveQuota(plan, override, cfg);
      var at := FindLatest(rows, ByCompany(companyId, LIVE_STATUSES));
      Stored(rows, at, if at < |rows|
          then Assigned(rows[at], plan, quota) else Provisioned(companyId, plan, quota, now))
  }

  class SubscriptionAdminService {
    var subscriptions: seq<Subscription>
    const companies: set<CompanyId>
    const cfg: Config

    constructor (subscriptions: seq<Subscription>, companies: set<CompanyId>, cfg: Config)
      ensures this.subscriptions == subscriptions && this.companies == companies && this.cfg == cfg
    {
      this.subscriptions, this.companies, this.cfg := subscriptions, companies, cfg;
    }

    ghost predicate Did(before: seq<Subscription>,
            wanted: Result<seq<Subscription>, BillingError>, e: Option<BillingError>)
      reads this
    {
      if wanted.Ok? then e.None? && subscriptions == wanted.value
      else e == Some(wanted.error) && subscriptions == before
    }

    method Cancel(at: nat, now: Instant) returns (e: Option<BillingError>)
      modifies this
      ensures Did(old(subscriptions), Cancellation(old(subscriptions), at, now), e)
    {
      if at >= |subscriptions| {
        return Some(SubscriptionNotFound);
      }
      var sub := subscriptions[at];
      sub := sub.(status := Cancelled);
      sub := sub.(endsAt := Some(now));
      sub := sub.(cancelAtPeriodEnd := false);
      subscriptions := subscriptions[at := sub];
      e := None;
    }

    method Suspend(at: nat) returns (e: Option<BillingError>)
      modifies this
      ensures Did(old(subscriptions), Suspension(old(subscriptions), at), e)
    {
      if at >= |subscriptions| {
        return Some(SubscriptionNotFound);
      }
      var sub := subscriptions[at];
      if sub.status.Cancelled? || sub.status.Expired? || sub.status.Suspended? {
        return Some(NotSuspendable);
      }
      sub := sub.(status := Suspended);
      sub := sub.(cancelAtPeriodEnd := false);
      subscriptions := subscriptions[at := sub];
      e := None;
    }

    method Reactivate(at: nat) returns (e: Option<BillingError>)
      modifies this
      ensures Did(old(subscriptions), Reactivation(old(subscriptions), at), e)
    {
      if at >= |subscriptions| {
        return Some(SubscriptionNotFound);
      }
      var sub := subscriptions[at];
      if !sub.status.Suspended? {
        return Some(NotSuspended);
      }
      if LiveElsewhereFor(subscriptions, at) {
        return Some(LiveElsewhere);
      }
      sub := sub.(status := Active);
      subscriptions := subscriptions[at := sub];
      e := None;
    }

    method AssignPlan(companyId: CompanyId, plan: Plan, override: Option<nat>, now: Instant)
      returns (e: Option<BillingError>)
      modifies this
      ensures Did(old(subscriptions), Assignment(old(subscriptions), companies, companyId, plan, override, cfg, now), e)
    {
      if companyId !in companies {
        return Some(CompanyNotFound);
      }
      var quota := ResolveQuota(plan, override, cfg);
      if quota.Err? {
        return Some(quota.error);
      }
      var at := FindLatest(subscriptions, ByCompany(companyId, LIVE_STATUSES));
      var row := Provisioned(companyId, plan, quota.value, now);
      if at < |subscriptions| {
        row := subscriptions[at];
        row := row.(plan := plan);
        row := row.(contactQuota := quota.value);
        row := row.(status := Active);
        row := row.(cancelAtPeriodEnd := false);
        row := row.(pastDueSince := None);
        row := row.(endsAt := None);
      }
      if ViolatesActiveIndex(subscriptions, at, row) {
        return Some(ActiveSubscriptionConflict);
      }
      subscriptions := if at < |subscriptions| then subscriptions[at := row] else subscriptions + [row];
      e := None;
    }
  }

  /**
   An assignment meets the unique index exactly when the company has a trial or active row older than
   its latest live one.
   */
  lemma AssignmentFailsIff(rows: seq<Subscription>, companies: set<CompanyId>, companyId: CompanyId, plan: Plan,
          override: Option<nat>, cfg: Config, now: Instant)
    requires companyId in companies && ResolveQuota(plan, override, cfg).Ok?
    ensures var at := FindLatest(rows, ByCompany(companyId, LIVE_STATUSES));
            Assignment(rows, companies, companyId, plan, override, cfg, now).Err?
            <==> exists j :: 0 <= j < at && rows[j].companyId == companyId && IsLive(rows[j].status)
  {
    var at := FindLatest(rows, ByCompany(companyId, LIVE_STATUSES));
    forall j | at < j < |rows|
      ensures !(rows[j].companyId == companyId && IsLive(rows[j].status))
    {
      assert !Matches(rows[j], ByCompany(companyId, LIVE_STATUSES));
    }
  }

  /** The check before a reactivation refuses exactly what the unique index would: it needs no second line. */
  lemma ReactivationMeetsIndexIff(rows: seq<Subscription>, at: nat)
    requires at < |rows| && rows[at].status.Suspended?
    ensures Reactivation(rows, at).Err? <==> ViolatesActiveIndex(rows, at, Lifted(rows[at]))
    ensures Reactivation(rows, at).Ok? && OneLivePerCompany(rows) ==> OneLivePerCompany(Reactivation(rows, at).value)
  {
    if LiveElsewhereFor(rows, at) {
      var j :| 0 <= j < |rows| && j != at && rows[j].companyId == rows[at].companyId && IsLive(rows[j].status);
      assert rows[j].companyId == Lifted(rows[at]).companyId;
    }
  }

  /**
   A hold that is lifted: always possible where there is one live row per company and the row held was
   the live one, and the rows are then as before exactly when that row was active and not to end.
   */
  lemma SuspendedAndLiftedIff(rows: seq<Subscription>, at: nat)
    requires OneLivePerCompany(rows) && Suspension(rows, at).Ok?
    ensures var held := Suspension(rows, at).value;
            && (IsLive(rows[at].status) ==> Reactivation(held, at).Ok?)
            && (Reactivation(held, at).Ok? ==>
                  (Reactivation(held, at).value == rows <==> rows[at].status.Active? && !rows[at].cancelAtPeriodEnd))
  {
    var held := Suspension(rows, at).value;
    forall j | 0 <= j < |held| && j != at && IsLive(rows[at].status)
      ensures !(held[j].companyId == held[at].companyId && IsLive(held[j].status))
    {
      assert held[j] == rows[j] && (j < at || at < j);
    }
    if Reactivation(held, at).Ok? {
      var lifted := Reactivation(held, at).value;
      assert lifted[at] == rows[at].(status := Active, cancelAtPeriodEnd := false);
      assert forall k :: 0 <= k < |rows| && k != at ==> lifted[k] == rows[k];
    }
  }

  // ---- What each operation does, and when ----

  predicate IsOpen(status: Status) {
    !status.Cancelled? && !status.Expired?
  }

  /** A cancellation knows no bounds; a hold stops what is open, and is lifted where nothing else runs. */
  lemma StaffDoes(rows: seq<Subscription>, at: nat, now: Instant)
    requires at < |rows|
    ensures Cancellation(rows, at, now)
            == Ok(rows[at := rows[at].(status := Cancelled, endsAt := Some(now), cancelAtPeriodEnd := false)])
    ensures Suspension(rows, at)
            == if IsOpen(rows[at].status) && !rows[at].status.Suspended?
               then Ok(rows[at := rows[at].(status := Suspended, cancelAtPeriodEnd := false)]) else Err(NotSuspendable)
    ensures var r := Reactivation(rows, at);
            var other := exists j :: 0 <= j < |rows| && j != at && rows[j].companyId == rows[at].companyId
                                     && (rows[j].status.Trial? || rows[j].status.Active?);
            && (r.Ok? <==> rows[at].status.Suspended? && !other)
            && (r.Ok? ==> r.value == rows[at := rows[at].(status := Active)])
            && (r == Err(LiveElsewhere) <==> rows[at].status.Suspended? && other)
  {
    if LiveElsewhereFor(rows, at) {
      var j :| 0 <= j < |rows| && j != at && rows[j].companyId == rows[at].companyId && IsLive(rows[j].status);
      assert rows[j].status.Trial? || rows[j].status.Active?;
    }
  }

  predicate OpenFor(row: Subscription, companyId: CompanyId) {
    row.companyId == companyId && IsOpen(row.status)
  }

  /** Row `at` is the company's last open one, or the next place if it has none. */
  predicate LastOpen(rows: seq<Subscription>, at: nat, companyId: CompanyId) {
    && at <= |rows| && (at < |rows| ==> OpenFor(rows[at], companyId))
    && forall j :: (if at < |rows| then at + 1 else 0) <= j < |rows| ==> !OpenFor(rows[j], companyId)
  }

  /**
   Assigning a plan: the quota is the one given or the plan's, for Enterprise it must be given; the
   company's last open row, or a new one, is then running on that plan without an end.
   */
  lemma AssignmentDoes(rows: seq<Subscription>, companies: set<CompanyId>, companyId: CompanyId, plan: Plan,
          override: Option<nat>, cfg: Config, now: Instant, at: nat)
    requires LastOpen(rows, at, companyId) && OneLivePerCompany(rows)
    ensures var r := Assignment(rows, companies, companyId, plan, override, cfg, now);
            var hasQuota := override.Some? || (!plan.Enterprise? && plan in cfg.quotas);
            && (r == Err(CompanyNotFound) <==> companyId !in companies)
            && (r == Err(QuotaRequired) <==> companyId in companies && override.None? && plan.Enterprise?)
            && (r.Ok? <==> && companyId in companies && hasQuota
                           && forall j :: 0 <= j < at ==> !(rows[j].companyId == companyId && IsLive(rows[j].status)))
            && (r.Ok? ==>
                  var quota := if override.Some? then override.value else cfg.quotas[plan];
                  if at < |rows| then
                    r.value == rows[at := rows[at].(plan := plan, contactQuota := quota, status := Active,
                                                    cancelAtPeriodEnd := false, pastDueSince := None, endsAt := None)]
                  else
                    r.value == rows + [Subscription(companyId, plan, Active, None, now, None, quota, 0, None, false)])
  {
    var query := ByCompany(companyId, LIVE_STATUSES);
    assert forall j :: 0 <= j < |rows| ==> Matches(rows[j], query) == OpenFor(rows[j], companyId);
    assert FindLatest(rows, query) == at;
    if companyId in companies && ResolveQuota(plan, override, cfg).Ok? {
      hide FindLatest;
      AssignmentFailsIff(rows, companies, companyId, plan, override, cfg, now);
    }
  }
}
