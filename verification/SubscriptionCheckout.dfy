/** The self-service side of billing (src/modules/billing/subscription-checkout.service.ts). */
module SubscriptionCheckout {
  import opened Common
  import opened BillingTypes
  import opened Tax
  import opened PaymentWebhook

  /** What the provider was asked to collect when the session was opened. */
  datatype Session = Session(companyId: CompanyId, plan: Plan, amount: int)

  /** The provider's side: open sessions, the unit amount of each subscription, the ones that end with their period. */
  datatype Account = Account(
    sessions: seq<Session>, unitAmounts: map<ProviderSubscriptionId, int>, ending: set<ProviderSubscriptionId>)

  /** The calls that leave the process: does the provider answer, does the final save go through? */
  datatype Outside = Outside(providerOk: bool, saveOk: bool)

  function ChargeFor(plan: Plan, cfg: Config): Result<int, BillingError> {
    var price :- ResolveMonthlyPriceHt(plan, cfg);
    Ok(ComputeVat(price).amountTTC)
  }

  const BILLED: set<Status> := {Active, PastDue}

  function WithSession(rows: seq<Subscription>, account: Account, companyId: CompanyId, plan: Plan,
          cfg: Config, outside: Outside)
    : Result<Account, BillingError>
  {
    if FindOne(rows, ByCompany(companyId, {Active})) < |rows| then Err(AlreadySubscribed)
    else
      var amount :- ChargeFor(plan, cfg);
      if !outside.providerOk then Err(OutsideFailure)
      else Ok(account.(sessions := account.sessions + [Session(companyId, plan, amount)]))
  }

  /** Rows and account after a plan change, and how the request ends. The two sides are not written atomically. */
  datatype Change = Change(rows: seq<Subscription>, account: Account, result: Result<nat, BillingError>)

  function PlanChange(rows: seq<Subscription>, account: Account, companyId: CompanyId, plan: Plan,
          cfg: Config, outside: Outside)
    : Change
  {
    var at := FindLatest(rows, ByCompany(companyId, BILLED));
    if at == |rows| || rows[at].externalId.None? then Change(rows, account, Err(NoActiveSubscription))
    else if rows[at].plan == plan then Change(rows, account, Err(SamePlan))
    else
      var s := rows[at].externalId.value;
      var quota, amount := ResolveContactQuota(plan, cfg), ChargeFor(plan, cfg);
      if quota.Err? then Change(rows, account, Err(quota.error))
      else if amount.Err? then Change(rows, account, Err(amount.error))
      else if !outside.providerOk || s !in account.unitAmounts then Change(rows, account, Err(OutsideFailure))
      else
        var account' := account.(unitAmounts := account.unitAmounts[s := amount.value]);
        if !outside.saveOk then Change(rows, account', Err(OutsideFailure))
        else Change(rows[at := rows[at].(plan := plan, contactQuota := quota.value)], account', Ok(at))
  }

  function PeriodEndCancellation(rows: seq<Subscription>, account: Account, companyId: CompanyId, outside: Outside)
    : Change
  {
    var at := FindLatest(rows, ByCompany(companyId, BILLED));
    if at == |rows| || rows[at].externalId.None? then Change(rows, account, Err(NoActiveSubscription))
    else if rows[at].cancelAtPeriodEnd then Change(rows, account, Ok(at))
    else if !outside.providerOk then Change(rows, account, Err(OutsideFailure))
    else
      var account' := account.(ending := account.ending + {rows[at].externalId.value});
      if !outside.saveOk then Change(rows, account', Err(OutsideFailure))
      else Change(rows[at := rows[at].(cancelAtPeriodEnd := true)], account', Ok(at))
  }

  class SubscriptionCheckoutService {
    var subscriptions: seq<Subscription>
    var sessions: seq<Session>
    var unitAmounts: map<ProviderSubscriptionId, int>
    var ending: set<ProviderSubscriptionId>
    const cfg: Config

    constructor (cfg: Config, subscriptions: seq<Subscription>)
      ensures this.cfg == cfg && this.subscriptions == subscriptions && Provider() == Account([], map[], {})
    {
      this.cfg := cfg;
      this.subscriptions := subscriptions;
      sessions, unitAmounts, ending := [], map[], {};
    }

    function Provider(): Account
      reads this
    {
      Account(sessions, unitAmounts, ending)
    }

    method CreateCheckoutSession(companyId: CompanyId, plan: Plan, outside: Outside)
      returns (r: Result<nat, BillingError>)
      modifies this`sessions
      ensures var w := WithSession(subscriptions, old(Provider()), companyId, plan, cfg, outside);
              if w.Ok? then Provider() == w.value && r == Ok(|old(sessions)|)
              else Provider() == old(Provider()) && r == Err(w.error)
    {
      if FindOne(subscriptions, ByCompany(companyId, {Active})) < |subscriptions| {
        return Err(AlreadySubscribed);
      }
      var amountHT := ResolveMonthlyPriceHt(plan, cfg);
      if amountHT.Err? {
        return Err(amountHT.error);
      }
      var vat := ComputeVat(amountHT.value);
      if !outside.providerOk {
        return Err(OutsideFailure);
      }
      sessions := sessions + [Session(companyId, plan, vat.amountTTC)];
      r := Ok(|sessions| - 1);
    }

    method CancelSubscription(companyId: CompanyId, outside: Outside) returns (r: Result<nat, BillingError>)
      modifies this`subscriptions, this`ending
      ensures Change(subscriptions, Provider(), r)
              == PeriodEndCancellation(old(subscriptions), old(Provider()), companyId, outside)
    {
      var at := FindLatest(subscriptions, ByCompany(companyId, BILLED));
      if at == |subscriptions| || subscriptions[at].externalId.None? {
        return Err(NoActiveSubscription);
      }
      var subscription := subscriptions[at];
      if !subscription.cancelAtPeriodEnd {
        if !outside.providerOk {
          return Err(OutsideFailure);
        }
        ending := ending + {subscription.externalId.value};
        subscription := subscription.(cancelAtPeriodEnd := true);
        if !outside.saveOk {
          return Err(OutsideFailure);
        }
        subscriptions := subscriptions[at := subscription];
      }
      r := Ok(at);
    }

    method ChangePlan(companyId: CompanyId, plan: Plan, outside: Outside) returns (r: Result<nat, BillingError>)
      modifies this`subscriptions, this`unitAmounts
      ensures Change(subscriptions, Provider(), r)
              == PlanChange(old(subscriptions), old(Provider()), companyId, plan, cfg, outside)
    {
      var at := FindLatest(subscriptions, ByCompany(companyId, BILLED));
      if at == |subscriptions| || subscriptions[at].externalId.None? {
        return Err(NoActiveSubscription);
      }
      var subscription := subscriptions[at];
      if subscription.plan == plan {
        return Err(SamePlan);
      }
      var newQuota := ResolveContactQuota(plan, cfg);
      if newQuota.Err? {
        return Err(newQuota.error);
      }
      var amountHT := ResolveMonthlyPriceHt(plan, cfg);
      if amountHT.Err? {
        return Err(amountHT.error);
      }
      var vat := ComputeVat(amountHT.value);
      if !outside.providerOk || subscription.externalId.value !in unitAmounts {
        return Err(OutsideFailure);
      }
      unitAmounts := unitAmounts[subscription.externalId.value := vat.amountTTC];
      subscription := subscription.(plan := plan);
      subscription := subscription.(contactQuota := newQuota.value);
      if !outside.saveOk {
        return Err(OutsideFailure);
      }
      subscriptions := subscriptions[at := subscription];
      r := Ok(at);
    }
  }

  /** Cancelling at the period's end twice is cancelling once: neither side changes the second time. */
  lemma PeriodEndCancellationIsIdempotent(rows: seq<Subscription>, account: Account, companyId: CompanyId,
          outside: Outside, again: Outside)
    requires PeriodEndCancellation(rows, account, companyId, outside).result.Ok?
    ensures var once := PeriodEndCancellation(rows, account, companyId, outside);
            PeriodEndCancellation(once.rows, once.account, companyId, again) == once
  {
    var once := PeriodEndCancellation(rows, account, companyId, outside);
    var query := ByCompany(companyId, BILLED);
    var at := FindLatest(rows, query);
    assert forall j :: 0 <= j < |rows| ==> (Matches(once.rows[j], query) <==> Matches(rows[j], query));
    assert FindLatest(once.rows, query) == at by {
      var at' := FindLatest(once.rows, query);
      assert Matches(once.rows[at], query);
    }
  }

  /**
   A plan changed and changed back: possible where the old plan is configured, and then the rows are as
   before exactly when the quota was the old plan's, the provider's side when its price was what was collected.
   */
  lemma PlanChangedBackIff(rows: seq<Subscription>, account: Account, companyId: CompanyId, plan: Plan, cfg: Config)
    requires PlanChange(rows, account, companyId, plan, cfg, Outside(true, true)).result.Ok?
    ensures var at := FindLatest(rows, ByCompany(companyId, BILLED));
            && at < |rows| && rows[at].externalId.Some? && rows[at].externalId.value in account.unitAmounts
            && var first, s := rows[at].plan, rows[at].externalId.value;
            var there := PlanChange(rows, account, companyId, plan, cfg, Outside(true, true));
            var back := PlanChange(there.rows, there.account, companyId, first, cfg, Outside(true, true));
            && (back.result.Ok? <==> ResolveContactQuota(first, cfg).Ok? && ChargeFor(first, cfg).Ok?)
            && (back.result.Ok? ==>
                  && (back.rows == rows <==> ResolveContactQuota(first, cfg) == Ok(rows[at].contactQuota))
                  && (back.account == account <==> ChargeFor(first, cfg) == Ok(account.unitAmounts[s])))
  {
    var query := ByCompany(companyId, BILLED);
    var at := FindLatest(rows, query);
    var first := PlanChange(rows, account, companyId, plan, cfg, Outside(true, true));
    var row, s := rows[at], rows[at].externalId.value;
    assert first.rows[at] == row.(plan := plan, contactQuota := first.rows[at].contactQuota);
    FoundAgain(rows, at, first.rows[at], query);
    hide ResolveContactQuota, ChargeFor, FindLatest;
    var back := PlanChange(first.rows, first.account, companyId, row.plan, cfg, Outside(true, true));
    if back.result.Ok? {
      var quota, amount := ResolveContactQuota(row.plan, cfg).value, ChargeFor(row.plan, cfg).value;
      PutBackIff(rows, at, first.rows[at], row.(contactQuota := quota));
      AmountPutBackIff(account.unitAmounts, s, first.account.unitAmounts[s], amount);
    }
  }

  lemma FoundAgain(rows: seq<Subscription>, at: nat, row: Subscription, query: Query)
    requires at < |rows| && at == FindLatest(rows, query) && Matches(row, query)
    ensures FindLatest(rows[at := row], query) == at
  {
    var rows' := rows[at := row];
    assert forall j :: at < j < |rows| ==> rows'[j] == rows[j] && !Matches(rows[j], query);
    assert Matches(rows'[at], query);
  }

  lemma PutBackIff(rows: seq<Subscription>, at: nat, row: Subscription, row': Subscription)
    requires at < |rows|
    ensures rows[at := row][at := row'] == rows <==> row' == rows[at]
  {
    assert rows[at := row][at := row'][at] == row';
  }

  lemma AmountPutBackIff(amounts: map<ProviderSubscriptionId, int>, s: ProviderSubscriptionId, a: int, a': int)
    requires s in amounts
    ensures amounts[s := a][s := a'] == amounts <==> a' == amounts[s]
  {
    assert amounts[s := a][s := a'][s] == a';
  }

  // ---- What each request does, and when ----

  predicate IsPriced(plan: Plan, cfg: Config) {
    !plan.Enterprise? && plan in cfg.prices
  }

  /** What is collected is the configured price with a fifth of it as tax, in centimes. */
  lemma ChargeIsPriceWithTax(plan: Plan, cfg: Config)
    ensures ChargeFor(plan, cfg).Ok? <==> IsPriced(plan, cfg)
    ensures ChargeFor(plan, cfg).Ok? ==> ChargeFor(plan, cfg).value == 120 * cfg.prices[plan]
    ensures ChargeFor(plan, cfg).Err?
            ==> ChargeFor(plan, cfg).error == if plan.Enterprise? then EnterpriseNotAutomated else NotConfigured(plan)
  {
    if IsPriced(plan, cfg) {
      VatOf(20 * cfg.prices[plan], 0);
    }
  }

  /** A checkout is opened for a priced plan unless the company has a running subscription. */
  lemma SessionIsOpenedIff(rows: seq<Subscription>, account: Account, companyId: CompanyId, plan: Plan, cfg: Config,
          outside: Outside)
    ensures var w := WithSession(rows, account, companyId, plan, cfg, outside);
            var running := exists i :: 0 <= i < |rows| && rows[i].companyId == companyId && rows[i].status.Active?;
            && (w == Err(AlreadySubscribed) <==> running)
            && (w.Ok? <==> !running && IsPriced(plan, cfg) && outside.providerOk)
            && (w.Ok? ==> w.value == Account(account.sessions + [Session(companyId, plan, 120 * cfg.prices[plan])],
                                             account.unitAmounts, account.ending))
  {
    hide ChargeFor;
    ChargeIsPriceWithTax(plan, cfg);
    var at := FindOne(rows, ByCompany(companyId, {Active}));
    if i :| 0 <= i < |rows| && rows[i].companyId == companyId && rows[i].status.Active? {
      assert Matches(rows[i], ByCompany(companyId, {Active}));
    }
    assert at < |rows| ==> Matches(rows[at], ByCompany(companyId, {Active}));
  }

  predicate IsBilledFor(row: Subscription, companyId: CompanyId) {
    row.companyId == companyId && (row.status.Active? || row.status.PastDue?)
  }

  /** Row `at` is the last one of the company that is running or past due, and the provider knows it as s. */
  predicate PaysFor(rows: seq<Subscription>, at: nat, companyId: CompanyId, s: ProviderSubscriptionId) {
    && at < |rows| && IsBilledFor(rows[at], companyId) && rows[at].externalId == Some(s)
    && forall j :: at < j < |rows| ==> !IsBilledFor(rows[j], companyId)
  }

  lemma LastBilled(rows: seq<Subscription>, companyId: CompanyId)
    ensures var at := FindLatest(rows, ByCompany(companyId, BILLED));
            && (forall k: nat, s :: PaysFor(rows, k, companyId, s) ==> k == at)
            && (at < |rows| && rows[at].externalId.Some? ==> PaysFor(rows, at, companyId, rows[at].externalId.value))
  {
    var query := ByCompany(companyId, BILLED);
    assert forall j :: 0 <= j < |rows| ==> Matches(rows[j], query) == IsBilledFor(rows[j], companyId);
  }

  /** May row `at` be put on this plan? */
  predicate MayMoveTo(rows: seq<Subscription>, account: Account, at: nat, s: ProviderSubscriptionId, plan: Plan,
          cfg: Config)
    requires at < |rows|
  {
    rows[at].plan != plan && plan in cfg.quotas && IsPriced(plan, cfg) && s in account.unitAmounts
  }

  /** Plan and quota are written, and the price with tax is what the provider now collects; nothing else moves. */
  lemma PlanIsChangedIff(rows: seq<Subscription>, account: Account, companyId: CompanyId, plan: Plan, cfg: Config,
          outside: Outside, at: nat, s: ProviderSubscriptionId)
    requires PaysFor(rows, at, companyId, s)
    ensures var change := PlanChange(rows, account, companyId, plan, cfg, outside);
            var told := MayMoveTo(rows, account, at, s, plan, cfg) && outside.providerOk;
            && (change.result.Ok? <==> told && outside.saveOk)
            && change.account == (if told then account.(unitAmounts := account.unitAmounts[s := 120 * cfg.prices[plan]])
                                  else account)
            && change.rows == (if told && outside.saveOk then
                                 rows[at := rows[at].(plan := plan, contactQuota := cfg.quotas[plan])]
                               else rows)
  {
    hide ChargeFor, FindLatest;
    ChargeIsPriceWithTax(plan, cfg);
    LastBilled(rows, companyId);
  }

  /** The flag is set once the provider knows; when it is set already, nothing is asked of anybody. */
  lemma PeriodEndIsSetIff(rows: seq<Subscription>, account: Account, companyId: CompanyId, outside: Outside,
          at: nat, s: ProviderSubscriptionId)
    requires PaysFor(rows, at, companyId, s)
    ensures var change := PeriodEndCancellation(rows, account, companyId, outside);
            var already := rows[at].cancelAtPeriodEnd;
            var told := !already && outside.providerOk;
            && (change.result == Ok(at) <==> already || (told && outside.saveOk))
            && change.account == (if told then account.(ending := account.ending + {s}) else account)
            && change.rows == (if told && outside.saveOk
                               then rows[at := rows[at].(cancelAtPeriodEnd := true)] else rows)
  {
    hide FindLatest;
    LastBilled(rows, companyId);
  }

  /** Without such a row both are refused, and nobody is asked. */
  lemma NothingToChange(rows: seq<Subscription>, account: Account, companyId: CompanyId, plan: Plan, cfg: Config,
          outside: Outside)
    requires forall at: nat, s :: !PaysFor(rows, at, companyId, s)
    ensures PlanChange(rows, account, companyId, plan, cfg, outside)
            == PeriodEndCancellation(rows, account, companyId, outside)
            == Change(rows, account, Err(NoActiveSubscription))
  {
    hide FindLatest;
    LastBilled(rows, companyId);
  }
}
