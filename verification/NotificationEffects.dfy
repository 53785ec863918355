/**
 What a posted notification does to the tables when it is processed, and when it is, in terms of
 the notification and the tables alone.
 */
module NotificationEffects {
  import opened Common
  import opened BillingTypes
  import opened PaymentWebhook
  import opened StripeAdapter
  import LedgerRuns
  import Tax

  /** Thirty days. */
  const PERIOD_MS: int := 2_592_000_000

  // ---- Rows ----

  predicate Bears(row: Subscription, s: ProviderSubscriptionId) {
    row.externalId == Some(s)
  }

  predicate Renewable(row: Subscription, s: ProviderSubscriptionId) {
    Bears(row, s) && (row.status.Active? || row.status.PastDue?)
  }

  predicate Convertible(row: Subscription, companyId: CompanyId) {
    row.companyId == companyId && (row.status.Trial? || row.status.PastDue?)
  }

  predicate RunsFor(row: Subscription, companyId: CompanyId) {
    row.companyId == companyId && row.status.Active?
  }

  /** Row k is the first one that bears s. */
  predicate FirstBearing(rows: seq<Subscription>, k: nat, s: ProviderSubscriptionId) {
    k < |rows| && Bears(rows[k], s) && forall j :: 0 <= j < k ==> !Bears(rows[j], s)
  }

  predicate FirstRenewable(rows: seq<Subscription>, k: nat, s: ProviderSubscriptionId) {
    k < |rows| && Renewable(rows[k], s) && forall j :: 0 <= j < k ==> !Renewable(rows[j], s)
  }

  /** Row k is the last trial or past-due one of the company, or k is the next place when it has none. */
  predicate LastConvertible(rows: seq<Subscription>, k: nat, companyId: CompanyId) {
    && k <= |rows| && (k < |rows| ==> Convertible(rows[k], companyId))
    && forall j :: (if k < |rows| then k + 1 else 0) <= j < |rows| ==> !Convertible(rows[j], companyId)
  }

  predicate FirstRunning(rows: seq<Subscription>, k: nat, companyId: CompanyId) {
    k < |rows| && RunsFor(rows[k], companyId) && forall j :: 0 <= j < k ==> !RunsFor(rows[j], companyId)
  }

  /** One more period from its end, or from now if it had none; running, unused, and not past due any more. */
  predicate RenewsRow(rows: seq<Subscription>, rows': seq<Subscription>, k: nat,
          s: ProviderSubscriptionId, now: Instant)
  {
    && FirstRenewable(rows, k, s)
    && var start := if rows[k].endsAt.Some? then rows[k].endsAt.value else now;
    && rows' == rows[k := rows[k].(status := Active, contactsUsed := 0, endsAt := Some(start + PERIOD_MS),
                                   pastDueSince := if rows[k].status.PastDue? then None else rows[k].pastDueSince)]
  }

  /** The company, plan and subscription named, that plan's quota, unused, for one period from now. */
  predicate ActivatesRow(rows: seq<Subscription>, rows': seq<Subscription>, k: nat, companyId: CompanyId, plan: Plan,
          s: ProviderSubscriptionId, now: Instant, cfg: Config)
  {
    && LastConvertible(rows, k, companyId) && !plan.Enterprise? && plan in cfg.quotas
    && k < |rows'| && rows' == (if k < |rows| then rows[k := rows'[k]] else rows + [rows'[k]])
    && var row := rows'[k];
    && row.companyId == companyId && row.plan == plan && row.externalId == Some(s) && row.status.Active?
    && row.contactQuota == cfg.quotas[plan] && row.contactsUsed == 0 && row.endsAt == Some(now + PERIOD_MS)
    && (if k < |rows|
        then row.startsAt == rows[k].startsAt && row.pastDueSince == rows[k].pastDueSince
             && row.cancelAtPeriodEnd == rows[k].cancelAtPeriodEnd
        else row.startsAt == now && row.pastDueSince.None? && !row.cancelAtPeriodEnd)
  }

  /** Cancelled and no longer past due, if it was not cancelled already. */
  predicate CancelsRow(rows: seq<Subscription>, rows': seq<Subscription>, k: nat, s: ProviderSubscriptionId) {
    && FirstBearing(rows, k, s)
    && rows' == if rows[k].status.Cancelled? then rows
                else rows[k := rows[k].(status := Cancelled, pastDueSince := None)]
  }

  /** Past due since now, if it was running. */
  predicate DemotesRow(rows: seq<Subscription>, rows': seq<Subscription>, k: nat,
          s: ProviderSubscriptionId, now: Instant)
  {
    && FirstBearing(rows, k, s)
    && rows' == if rows[k].status.Active? then rows[k := rows[k].(status := PastDue, pastDueSince := Some(now))]
                else rows
  }

  // ---- Invoices ----

  /** One invoice is added: for this event and row, issued now, and its amounts add up. */
  predicate AddsInvoice(db: Tables, db': Tables, id: EventId, k: nat, env: Env) {
    && |db'.invoices| == |db.invoices| + 1 && db'.invoices[..|db.invoices|] == db.invoices
    && k < |db'.subscriptions|
    && var bill := db'.invoices[|db.invoices|];
    && bill.stripeEventId == id && bill.subscription == k && bill.companyId == db'.subscriptions[k].companyId
    && bill.companyId in db.companies && bill.issuedAt == env.now && bill.row.year == env.year
    && bill.amounts.amountHT + bill.amounts.vatAmount == bill.amounts.amountTTC
  }

  /** The plan's monthly price in centimes, and a fifth of it as tax. */
  predicate StatesPrice(bill: Invoice, plan: Plan, cfg: Config) {
    && !plan.Enterprise? && plan in cfg.prices
    && bill.amounts.amountHT == 100 * cfg.prices[plan]
    && bill.amounts.vatAmount == 20 * cfg.prices[plan]
    && bill.amounts.amountTTC == 120 * cfg.prices[plan]
  }

  /** The amount paid, and the nearest price before tax: five sixths of it. */
  predicate StatesAmount(bill: Invoice, amount: int) {
    bill.amounts.amountTTC == amount && -3 < 6 * bill.amounts.amountHT - 5 * amount <= 3
  }

  predicate BillsPrice(db: Tables, db': Tables, id: EventId, k: nat, env: Env, cfg: Config) {
    && AddsInvoice(db, db', id, k, env)
    && StatesPrice(db'.invoices[|db.invoices|], db'.subscriptions[k].plan, cfg)
  }

  predicate BillsAmount(db: Tables, db': Tables, id: EventId, k: nat, env: Env, amount: int) {
    AddsInvoice(db, db', id, k, env) && StatesAmount(db'.invoices[|db.invoices|], amount)
  }

  predicate BillsNothing(db: Tables, db': Tables) {
    db'.invoices == db.invoices && db'.sequences == db.sequences
  }

  /** A redeemed trial that now pays is marked as converted, once. */
  predicate MarksConversion(db: Tables, db': Tables, companyId: CompanyId, now: Instant) {
    db'.conversions == if companyId in db.conversions && db.conversions[companyId].None?
                       then db.conversions[companyId := Some(now)] else db.conversions
  }

  // ---- Notifications ----

  /** The row that a notification is about is number k. */
  ghost predicate DoesTo(n: Notification, id: EventId, db: Tables, db': Tables, k: nat, env: Env, cfg: Config) {
    var rows, rows' := db.subscriptions, db'.subscriptions;
    match n
    case CheckoutSessionCompleted(companyId, plan, s) =>
      && companyId.Some? && plan.Some? && s.Some?
      && ActivatesRow(rows, rows', k, companyId.value, plan.value, s.value, env.now, cfg)
      && BillsPrice(db, db', id, k, env, cfg) && MarksConversion(db, db', companyId.value, env.now)
    case InvoicePaid(billingReason, s, amountPaid) =>
      && db'.conversions == db.conversions
      && (match billingReason
          case SubscriptionCycle =>
            s.Some? && RenewsRow(rows, rows', k, s.value, env.now) && BillsPrice(db, db', id, k, env, cfg)
          case SubscriptionUpdate =>
            s.Some? && FirstBearing(rows, k, s.value) && rows' == rows && BillsAmount(db, db', id, k, env, amountPaid)
          case _ => rows' == rows && BillsNothing(db, db'))
    case InvoicePaymentFailed(s) =>
      && (if s.Some? then DemotesRow(rows, rows', k, s.value, env.now) else rows' == rows)
      && BillsNothing(db, db') && db'.conversions == db.conversions
    case CustomerSubscriptionUpdated(s, unpaid) =>
      && (if unpaid then CancelsRow(rows, rows', k, s) else rows' == rows)
      && BillsNothing(db, db') && db'.conversions == db.conversions
    case CustomerSubscriptionDeleted(s) =>
      CancelsRow(rows, rows', k, s) && BillsNothing(db, db') && db'.conversions == db.conversions
    case CheckoutSessionFailedOrExpired(companyId) =>
      && (if companyId.Some? && k < |rows|
          then FirstRunning(rows, k, companyId.value) && rows' == rows[k := rows[k].(status := PastDue)]
          else && rows' == rows
               && (companyId.Some? ==> forall j :: 0 <= j < |rows| ==> !RunsFor(rows[j], companyId.value)))
      && BillsNothing(db, db') && db'.conversions == db.conversions
    case UnhandledType => rows' == rows && BillsNothing(db, db') && db'.conversions == db.conversions
  }

  // ---- From the handlers ----

  lemma PriceIsStated(plan: Plan, cfg: Config)
    ensures AmountsDue(plan, None, cfg).Ok? <==> !plan.Enterprise? && plan in cfg.prices
    ensures AmountsDue(plan, None, cfg).Ok? ==>
              AmountsDue(plan, None, cfg).value
              == Tax.VatBreakdown(100 * cfg.prices[plan], 20 * cfg.prices[plan], 120 * cfg.prices[plan])
  {
    if !plan.Enterprise? && plan in cfg.prices {
      Tax.VatOf(20 * cfg.prices[plan], 0);
    }
  }

  lemma AmountIsStated(plan: Plan, amount: int, cfg: Config)
    ensures AmountsDue(plan, Some(amount), cfg).Ok?
    ensures var b := AmountsDue(plan, Some(amount), cfg).value;
            b.amountTTC == amount && b.amountHT + b.vatAmount == amount && -3 < 6 * b.amountHT - 5 * amount <= 3
  {
  }

  lemma PlanChangeWritesNothing(found: Option<Subscription>, event: Event, cfg: Config, now: Instant)
    requires event.PlanChanged? && Rewritten(found, event, cfg, now).Ok?
    ensures found.Some? && Rewritten(found, event, cfg, now).value.None?
  {
  }

  /** What a transaction adds to the invoices and conversions, from the handler's read on. */
  lemma HandlerBills(db: Tables, at: nat, found: Option<Subscription>, event: Event, cfg: Config, env: Env)
    requires if found.Some? then at < |db.subscriptions| else at == |db.subscriptions|
    requires AppliedTo(db, at, found, event, cfg, env).Ok?
    ensures var db' := AppliedTo(db, at, found, event, cfg, env).value;
            && (if event.PlanChanged? then BillsAmount(db, db', event.id, at, env, event.amountTTC)
                else if Bills(event) then BillsPrice(db, db', event.id, at, env, cfg)
                else BillsNothing(db, db'))
            && (if event.Activated? then MarksConversion(db, db', event.companyId, env.now)
                else db'.conversions == db.conversions)
  {
    hide ViolatesActiveIndex, InvoiceRefused, Rewritten, AmountsDue;
    var effect := EffectAt(at, found, event, cfg, env.now).value;
    LedgerRuns.EffectShape(at, found, event, cfg, env.now);
    if event.PlanChanged? {
      PlanChangeWritesNothing(found, event, cfg, env.now);
      AmountIsStated(db.subscriptions[at].plan, event.amountTTC, cfg);
    } else if Bills(event) {
      PriceIsStated(RowsAfter(db.subscriptions, effect)[at].plan, cfg);
    }
  }

  // ---- One event, processed as a whole ----

  lemma EventBills(db: Tables, d: LedgerRuns.Delivery, cfg: Config)
    requires LedgerRuns.Commits(db, d, cfg)
    ensures var db', k := LedgerRuns.Step(db, d, cfg), RowFor(db.subscriptions, d.event);
            && (if d.event.PlanChanged? then BillsAmount(db, db', d.event.id, k, d.env, d.event.amountTTC)
                else if Bills(d.event) then BillsPrice(db, db', d.event.id, k, d.env, cfg)
                else BillsNothing(db, db'))
            && (if d.event.Activated? then MarksConversion(db, db', d.event.companyId, d.env.now)
                else db'.conversions == db.conversions)
  {
    hide AppliedTo, RowFor;
    var rows, k := db.subscriptions, RowFor(db.subscriptions, d.event);
    HandlerBills(db.(markers := db.markers + {d.event.id}), k, RowAt(rows, k), d.event, cfg, d.env);
  }

  /** The rows after an event: as its handler leaves the row it finds. */
  lemma EventRows(db: Tables, d: LedgerRuns.Delivery, cfg: Config)
    requires LedgerRuns.Commits(db, d, cfg)
    ensures var rows, k := db.subscriptions, RowFor(db.subscriptions, d.event);
            var saved := Rewritten(RowAt(rows, k), d.event, cfg, d.env.now);
            && saved.Ok?
            && LedgerRuns.Step(db, d, cfg).subscriptions
               == if saved.value.None? then rows
                  else if k < |rows| then rows[k := saved.value.value] else rows + [saved.value.value]
  {
    hide LedgerRuns.Step, LedgerRuns.Commits, Rewritten, RowFor;
    LedgerRuns.StepShape(db, d, cfg);
  }

  lemma CheckoutDoes(db: Tables, d: LedgerRuns.Delivery, cfg: Config)
    requires LedgerRuns.Commits(db, d, cfg) && d.event.Activated?
    ensures ActivatesRow(db.subscriptions, LedgerRuns.Step(db, d, cfg).subscriptions, RowFor(db.subscriptions, d.event),
                         d.event.companyId, d.event.plan, d.event.subscriptionId, d.env.now, cfg)
  {
    hide LedgerRuns.Step, LedgerRuns.Commits;
    EventRows(db, d, cfg);
    var rows, query := db.subscriptions, ByCompany(d.event.companyId, {Trial, PastDue});
    assert forall j :: 0 <= j < |rows| ==> Matches(rows[j], query) == Convertible(rows[j], d.event.companyId);
  }

  lemma RenewalDoes(db: Tables, d: LedgerRuns.Delivery, cfg: Config)
    requires LedgerRuns.Commits(db, d, cfg) && d.event.Renewed?
    ensures RenewsRow(db.subscriptions, LedgerRuns.Step(db, d, cfg).subscriptions, RowFor(db.subscriptions, d.event),
                      d.event.subscriptionId, d.env.now)
  {
    hide LedgerRuns.Step, LedgerRuns.Commits;
    EventRows(db, d, cfg);
    var rows, query := db.subscriptions, ByProviderSubscription(d.event.subscriptionId, {Active, PastDue});
    assert forall j :: 0 <= j < |rows| ==> Matches(rows[j], query) == Renewable(rows[j], d.event.subscriptionId);
  }

  lemma AnyStatusCounts(status: Status)
    ensures status in ANY_STATUS
  {
  }

  lemma NoticeDoes(db: Tables, d: LedgerRuns.Delivery, cfg: Config)
    requires LedgerRuns.Commits(db, d, cfg) && (d.event.WentPastDue? || d.event.PlanChanged? || d.event.WasCancelled?)
    ensures var rows, rows', k := db.subscriptions, LedgerRuns.Step(db, d, cfg).subscriptions,
                RowFor(db.subscriptions, d.event);
            && FirstBearing(rows, k, d.event.subscriptionId)
            && (d.event.WentPastDue? ==> DemotesRow(rows, rows', k, d.event.subscriptionId, d.env.now))
            && (d.event.WasCancelled? ==> CancelsRow(rows, rows', k, d.event.subscriptionId))
            && (d.event.PlanChanged? ==> rows' == rows)
  {
    hide LedgerRuns.Step, LedgerRuns.Commits;
    EventRows(db, d, cfg);
    var rows, query := db.subscriptions, ByProviderSubscription(d.event.subscriptionId, ANY_STATUS);
    forall j | 0 <= j < |rows|
      ensures Matches(rows[j], query) == Bears(rows[j], d.event.subscriptionId)
    {
      AnyStatusCounts(rows[j].status);
    }
  }

  lemma FailureDoes(db: Tables, d: LedgerRuns.Delivery, cfg: Config)
    requires LedgerRuns.Commits(db, d, cfg) && d.event.PaymentFailed?
    ensures var rows, rows', k := db.subscriptions, LedgerRuns.Step(db, d, cfg).subscriptions,
                RowFor(db.subscriptions, d.event);
            if k < |rows|
            then FirstRunning(rows, k, d.event.companyId) && rows' == rows[k := rows[k].(status := PastDue)]
            else rows' == rows && forall j :: 0 <= j < |rows| ==> !RunsFor(rows[j], d.event.companyId)
  {
    hide LedgerRuns.Step, LedgerRuns.Commits;
    EventRows(db, d, cfg);
    var rows, query := db.subscriptions, ByCompany(d.event.companyId, {Active});
    assert forall j :: 0 <= j < |rows| ==> Matches(rows[j], query) == RunsFor(rows[j], d.event.companyId);
  }

  lemma IgnoredDoesNothing(db: Tables, d: LedgerRuns.Delivery, cfg: Config)
    requires LedgerRuns.Commits(db, d, cfg) && d.event.Ignored?
    ensures LedgerRuns.Step(db, d, cfg).subscriptions == db.subscriptions
  {
    hide LedgerRuns.Step, LedgerRuns.Commits;
    EventRows(db, d, cfg);
  }

  lemma EventDoes(db: Tables, e: StripeEvent, env: Env, cfg: Config)
    requires ToDomainEvent(e).Ok? && LedgerRuns.Commits(db, LedgerRuns.Delivery(ToDomainEvent(e).value, env), cfg)
    ensures var d := LedgerRuns.Delivery(ToDomainEvent(e).value, env);
            DoesTo(e.notification, e.id, db, LedgerRuns.Step(db, d, cfg), RowFor(db.subscriptions, d.event), env, cfg)
  {
    hide LedgerRuns.Step, LedgerRuns.Commits, RowFor, ActivatesRow, RenewsRow, DemotesRow, CancelsRow, BillsPrice,
      BillsAmount, BillsNothing, MarksConversion, FirstRunning, FirstBearing;
    var d := LedgerRuns.Delivery(ToDomainEvent(e).value, env);
    EventBills(db, d, cfg);
    match d.event
    case Activated(_, _, _, _) => CheckoutDoes(db, d, cfg);
    case Renewed(_, _) => RenewalDoes(db, d, cfg);
    case PaymentFailed(_, _) => FailureDoes(db, d, cfg);
    case WentPastDue(_, _) => NoticeDoes(db, d, cfg);
    case PlanChanged(_, _, _) => NoticeDoes(db, d, cfg);
    case WasCancelled(_, _) => NoticeDoes(db, d, cfg);
    case Ignored(_) => IgnoredDoesNothing(db, d, cfg);
  }

  // ---- When a notification can be processed ----

  predicate LiveFor(row: Subscription, companyId: CompanyId) {
    row.companyId == companyId && (row.status.Trial? || row.status.Active?)
  }

  predicate IsPriced(plan: Plan, cfg: Config) {
    !plan.Enterprise? && plan in cfg.prices
  }

  ghost predicate CanCancel(rows: seq<Subscription>, s: ProviderSubscriptionId, env: Env) {
    exists k: nat :: FirstBearing(rows, k, s)
                && (rows[k].status.Cancelled? || (!rows[k].status.Expired? && env.auditOk))
  }

  ghost predicate CanRenew(db: Tables, s: ProviderSubscriptionId, env: Env, cfg: Config) {
    && env.auditOk && env.uploadOk
    && var rows := db.subscriptions;
    && exists k: nat :: FirstRenewable(rows, k, s) && rows[k].companyId in db.companies && IsPriced(rows[k].plan, cfg)
                   && forall j :: 0 <= j < |rows| && LiveFor(rows[j], rows[k].companyId) ==> j == k
  }

  ghost predicate CanActivate(db: Tables, companyId: CompanyId, plan: Plan, env: Env, cfg: Config) {
    && env.auditOk && env.uploadOk
    && companyId in db.companies && plan in cfg.quotas && IsPriced(plan, cfg)
    && var rows := db.subscriptions;
    && forall j :: 0 <= j < |rows| && LiveFor(rows[j], companyId) ==> LastConvertible(rows, j, companyId)
  }

  ghost predicate CanBillChange(db: Tables, s: ProviderSubscriptionId, env: Env) {
    && env.auditOk && env.uploadOk
    && exists k: nat :: FirstBearing(db.subscriptions, k, s) && db.subscriptions[k].companyId in db.companies
  }

  /** What must be there for a notification to be processed. */
  ghost predicate CanDo(n: Notification, db: Tables, env: Env, cfg: Config) {
    match n
    case CheckoutSessionCompleted(companyId, plan, s) =>
      companyId.Some? && plan.Some? && s.Some? && CanActivate(db, companyId.value, plan.value, env, cfg)
    case InvoicePaid(billingReason, s, _) =>
      (match billingReason
       case SubscriptionCycle => s.Some? && CanRenew(db, s.value, env, cfg)
       case SubscriptionUpdate => s.Some? && CanBillChange(db, s.value, env)
       case _ => true)
    case InvoicePaymentFailed(s) =>
      s.Some? ==> env.auditOk && exists k: nat :: FirstBearing(db.subscriptions, k, s.value)
    case CustomerSubscriptionUpdated(s, unpaid) => unpaid ==> CanCancel(db.subscriptions, s, env)
    case CustomerSubscriptionDeleted(s) => CanCancel(db.subscriptions, s, env)
    case CheckoutSessionFailedOrExpired(companyId) => companyId.Some? ==> env.auditOk
    case UnhandledType => true
  }

  /** When the rest of a transaction goes through, from the handler's read on. */
  lemma HandlerSucceedsIff(db: Tables, at: nat, found: Option<Subscription>, event: Event, cfg: Config, env: Env)
    requires if found.Some? then at < |db.subscriptions| else at == |db.subscriptions|
    requires !InvoiceRefused(db.invoices, LedgerRuns.NextRow(db, env), event.id)
    ensures AppliedTo(db, at, found, event, cfg, env).Ok?
            <==> var saved := Rewritten(found, event, cfg, env.now);
                 && saved.Ok?
                 && (saved.value.Some? ==> !ViolatesActiveIndex(db.subscriptions, at, saved.value.value))
                 && (event.Ignored? || (event.WasCancelled? && saved.value.None?) || env.auditOk)
                 && (Bills(event) ==>
                       && env.uploadOk
                       && (if saved.value.Some? then
                             saved.value.value.companyId in db.companies && IsPriced(saved.value.value.plan, cfg)
                           else found.Some? && db.subscriptions[at].companyId in db.companies))
  {
    hide ViolatesActiveIndex, InvoiceRefused, AmountsDue;
    if Bills(event) && Rewritten(found, event, cfg, env.now).Ok? {
      BillsIffPriced(db, at, found, event, cfg, env.now);
    }
  }

  lemma BillsIffPriced(db: Tables, at: nat, found: Option<Subscription>, event: Event, cfg: Config, now: Instant)
    requires if found.Some? then at < |db.subscriptions| else at == |db.subscriptions|
    requires Bills(event) && Rewritten(found, event, cfg, now).Ok?
    ensures var saved := Rewritten(found, event, cfg, now).value;
            if saved.Some? then AmountsDue(saved.value.plan, None, cfg).Ok? <==> IsPriced(saved.value.plan, cfg)
            else found.Some? && AmountsDue(db.subscriptions[at].plan, Some(event.amountTTC), cfg).Ok?
  {
  }

  lemma EventCommitsIff(db: Tables, d: LedgerRuns.Delivery, cfg: Config)
    requires LedgerRuns.LedgerInv(db) && d.event.id !in db.markers
    ensures var rows, k := db.subscriptions, RowFor(db.subscriptions, d.event);
            var found := RowAt(rows, k);
            var saved := Rewritten(found, d.event, cfg, d.env.now);
            LedgerRuns.Commits(db, d, cfg)
            <==> && saved.Ok?
                 && (saved.value.Some? ==> !ViolatesActiveIndex(rows, k, saved.value.value))
                 && (d.event.Ignored? || (d.event.WasCancelled? && saved.value.None?) || d.env.auditOk)
                 && (Bills(d.event) ==>
                       && d.env.uploadOk
                       && (if saved.value.Some? then
                             saved.value.value.companyId in db.companies && IsPriced(saved.value.value.plan, cfg)
                           else found.Some? && rows[k].companyId in db.companies))
  {
    hide AppliedTo, RowFor, Rewritten, InvoiceRefused, ViolatesActiveIndex, LedgerRuns.LedgerInv, LedgerRuns.NextRow,
      IsPriced;
    var marked, k := db.(markers := db.markers + {d.event.id}), RowFor(db.subscriptions, d.event);
    LedgerRuns.NextRowIsFree(db, d.event.id, d.env);
    LedgerRuns.SameInvoicesRefused(db, marked, d.event.id, d.env);
    HandlerSucceedsIff(marked, k, RowAt(db.subscriptions, k), d.event, cfg, d.env);
  }

  lemma ByIdIff(rows: seq<Subscription>, s: ProviderSubscriptionId)
    ensures var k := FindOne(rows, ByProviderSubscription(s, ANY_STATUS));
            forall j: nat :: FirstBearing(rows, j, s) <==> j == k && k < |rows|
  {
    forall j | 0 <= j < |rows|
      ensures Matches(rows[j], ByProviderSubscription(s, ANY_STATUS)) == Bears(rows[j], s)
    {
      AnyStatusCounts(rows[j].status);
    }
  }

  lemma RenewableIff(rows: seq<Subscription>, s: ProviderSubscriptionId)
    ensures var k := FindOne(rows, ByProviderSubscription(s, {Active, PastDue}));
            forall j: nat :: FirstRenewable(rows, j, s) <==> j == k && k < |rows|
  {
    assert forall j :: 0 <= j < |rows|
             ==> Matches(rows[j], ByProviderSubscription(s, {Active, PastDue})) == Renewable(rows[j], s);
  }

  lemma ConvertibleIff(rows: seq<Subscription>, companyId: CompanyId)
    ensures var k := FindLatest(rows, ByCompany(companyId, {Trial, PastDue}));
            forall j: nat :: LastConvertible(rows, j, companyId) <==> j == k
  {
    assert forall j :: 0 <= j < |rows|
             ==> Matches(rows[j], ByCompany(companyId, {Trial, PastDue})) == Convertible(rows[j], companyId);
  }

  lemma CheckoutCommitsIff(db: Tables, d: LedgerRuns.Delivery, cfg: Config)
    requires LedgerRuns.LedgerInv(db) && d.event.id !in db.markers && d.event.Activated?
    ensures LedgerRuns.Commits(db, d, cfg) <==> CanActivate(db, d.event.companyId, d.event.plan, d.env, cfg)
  {
    hide LedgerRuns.Commits, LedgerRuns.LedgerInv;
    EventCommitsIff(db, d, cfg);
    ConvertibleIff(db.subscriptions, d.event.companyId);
  }

  lemma RenewalCommitsIff(db: Tables, d: LedgerRuns.Delivery, cfg: Config)
    requires LedgerRuns.LedgerInv(db) && d.event.id !in db.markers && d.event.Renewed?
    ensures LedgerRuns.Commits(db, d, cfg) <==> CanRenew(db, d.event.subscriptionId, d.env, cfg)
  {
    hide LedgerRuns.Commits, LedgerRuns.LedgerInv;
    EventCommitsIff(db, d, cfg);
    RenewableIff(db.subscriptions, d.event.subscriptionId);
  }

  lemma EndedNeverViolates(rows: seq<Subscription>, k: nat, row: Subscription)
    requires !IsLive(row.status)
    ensures !ViolatesActiveIndex(rows, k, row)
  {
  }

  lemma NoticeCommitsIff(db: Tables, d: LedgerRuns.Delivery, cfg: Config)
    requires LedgerRuns.LedgerInv(db) && d.event.id !in db.markers
    requires d.event.WentPastDue? || d.event.PlanChanged? || d.event.WasCancelled?
    ensures LedgerRuns.Commits(db, d, cfg)
            <==> if d.event.WasCancelled? then CanCancel(db.subscriptions, d.event.subscriptionId, d.env)
                 else if d.event.PlanChanged? then CanBillChange(db, d.event.subscriptionId, d.env)
                 else d.env.auditOk && exists k: nat :: FirstBearing(db.subscriptions, k, d.event.subscriptionId)
  {
    hide LedgerRuns.Commits, LedgerRuns.LedgerInv, FirstBearing;
    EventCommitsIff(db, d, cfg);
    ByIdIff(db.subscriptions, d.event.subscriptionId);
    var rows, k := db.subscriptions, RowFor(db.subscriptions, d.event);
    assert k < |rows| ==> FirstBearing(rows, k, d.event.subscriptionId);
    if d.event.WasCancelled? && k < |rows| {
      EndedNeverViolates(rows, k, rows[k].(status := Cancelled, pastDueSince := None));
    } else if d.event.WentPastDue? && k < |rows| {
      EndedNeverViolates(rows, k, rows[k].(status := PastDue, pastDueSince := Some(d.env.now)));
    }
  }

  lemma OtherCommitsIff(db: Tables, d: LedgerRuns.Delivery, cfg: Config)
    requires LedgerRuns.LedgerInv(db) && d.event.id !in db.markers && (d.event.PaymentFailed? || d.event.Ignored?)
    ensures LedgerRuns.Commits(db, d, cfg) <==> d.event.Ignored? || d.env.auditOk
  {
    hide LedgerRuns.Commits, LedgerRuns.LedgerInv;
    EventCommitsIff(db, d, cfg);
  }

  lemma NotificationCommitsIff(db: Tables, e: StripeEvent, env: Env, cfg: Config)
    requires LedgerRuns.LedgerInv(db) && e.id !in db.markers
    ensures ToDomainEvent(e).Ok? ==>
              (LedgerRuns.Commits(db, LedgerRuns.Delivery(ToDomainEvent(e).value, env), cfg)
               <==> CanDo(e.notification, db, env, cfg))
    ensures ToDomainEvent(e).Err? ==> !CanDo(e.notification, db, env, cfg)
  {
    hide LedgerRuns.Commits, LedgerRuns.LedgerInv, CanActivate, CanRenew, CanBillChange, CanCancel, FirstBearing;
    if ToDomainEvent(e).Ok? {
      var d := LedgerRuns.Delivery(ToDomainEvent(e).value, env);
      match d.event
      case Activated(_, _, _, _) => CheckoutCommitsIff(db, d, cfg);
      case Renewed(_, _) => RenewalCommitsIff(db, d, cfg);
      case PaymentFailed(_, _) => OtherCommitsIff(db, d, cfg);
      case WentPastDue(_, _) => NoticeCommitsIff(db, d, cfg);
      case PlanChanged(_, _, _) => NoticeCommitsIff(db, d, cfg);
      case WasCancelled(_, _) => NoticeCommitsIff(db, d, cfg);
      case Ignored(_) => OtherCommitsIff(db, d, cfg);
    }
  }

  // ---- Runs of posts ----

  lemma {:induction false} AfterOneMore(db: Tables, ds: seq<LedgerRuns.Delivery>, d: LedgerRuns.Delivery, cfg: Config)
    ensures LedgerRuns.After(db, ds + [d], cfg) == LedgerRuns.Step(LedgerRuns.After(db, ds, cfg), d, cfg)
    decreases |ds|
  {
    hide LedgerRuns.Step;
    if ds == [] {
      assert [] + [d] == [d] && [d][1..] == [];
    } else {
      AfterOneMore(LedgerRuns.Step(db, ds[0], cfg), ds[1..], d, cfg);
      assert (ds + [d])[1..] == ds[1..] + [d];
    }
  }

  lemma {:induction false} AcceptedOneMore(posts: seq<Post>, p: Post)
    ensures var e := ToDomainEvent(p.event);
            Accepted(posts + [p])
            == Accepted(posts) + if e.Ok? then [LedgerRuns.Delivery(e.value, p.env)] else []
  {
    hide ToDomainEvent;
    if posts == [] {
      assert [] + [p] == [p] && [p][1..] == [];
    } else {
      AcceptedOneMore(posts[1..], p);
      assert (posts + [p])[1..] == posts[1..] + [p];
    }
  }

  function AfterPosts(db: Tables, posts: seq<Post>, cfg: Config): Tables {
    LedgerRuns.After(db, Accepted(posts), cfg)
  }

  lemma OneMorePost(db: Tables, posts: seq<Post>, i: nat, cfg: Config)
    requires i < |posts|
    ensures var before, e := AfterPosts(db, posts[..i], cfg), ToDomainEvent(posts[i].event);
            AfterPosts(db, posts[..i + 1], cfg)
            == if e.Ok? then LedgerRuns.Step(before, LedgerRuns.Delivery(e.value, posts[i].env), cfg) else before
  {
    hide ToDomainEvent, LedgerRuns.Step;
    var e := ToDomainEvent(posts[i].event);
    assert posts[..i + 1] == posts[..i] + [posts[i]];
    AcceptedOneMore(posts[..i], posts[i]);
    if e.Ok? {
      AfterOneMore(db, Accepted(posts[..i]), LedgerRuns.Delivery(e.value, posts[i].env), cfg);
    } else {
      assert Accepted(posts[..i]) + [] == Accepted(posts[..i]);
    }
  }

  /** Post i of the run is processed: its marker appears. */
  predicate Processes(before: Tables, after: Tables, id: EventId) {
    id !in before.markers && id in after.markers
  }

  /**
   Over any posts: whichever is processed does to the tables exactly what its notification says,
   once, and whichever is not changes nothing.
   */
  lemma PostsDoWhatTheySay(db: Tables, posts: seq<Post>, i: nat, cfg: Config)
    requires i < |posts|
    ensures var before, after := AfterPosts(db, posts[..i], cfg), AfterPosts(db, posts[..i + 1], cfg);
            var e, env := posts[i].event, posts[i].env;
            if Processes(before, after, e.id) then
              after.markers == before.markers + {e.id}
              && exists k :: DoesTo(e.notification, e.id, before, after, k, env, cfg)
            else after == before
  {
    hide AfterPosts, ToDomainEvent, LedgerRuns.Step, LedgerRuns.Commits, DoesTo, RowFor, LedgerRuns.Shape;
    var before, e := AfterPosts(db, posts[..i], cfg), posts[i].event;
    OneMorePost(db, posts, i, cfg);
    TranslationBillsPayments(e);
    if ToDomainEvent(e).Ok? {
      var d := LedgerRuns.Delivery(ToDomainEvent(e).value, posts[i].env);
      StepMarks(before, d, cfg);
      if LedgerRuns.Commits(before, d, cfg) {
        EventDoes(before, e, posts[i].env, cfg);
      }
    }
  }

  lemma StepMarks(db: Tables, d: LedgerRuns.Delivery, cfg: Config)
    ensures if LedgerRuns.Commits(db, d, cfg)
            then d.event.id !in db.markers && LedgerRuns.Step(db, d, cfg).markers == db.markers + {d.event.id}
            else LedgerRuns.Step(db, d, cfg) == db
  {
    hide LedgerRuns.Step, LedgerRuns.Commits, LedgerRuns.Written;
    LedgerRuns.StepShape(db, d, cfg);
  }

  /** And it is processed exactly when it was not before and what it needs is there. */
  lemma PostIsProcessedIff(db: Tables, posts: seq<Post>, i: nat, cfg: Config)
    requires i < |posts| && LedgerRuns.LedgerInv(db)
    ensures var before, after := AfterPosts(db, posts[..i], cfg), AfterPosts(db, posts[..i + 1], cfg);
            var e := posts[i].event;
            Processes(before, after, e.id)
            <==> e.id !in before.markers && CanDo(e.notification, before, posts[i].env, cfg)
  {
    hide AfterPosts, ToDomainEvent, LedgerRuns.Step, LedgerRuns.Commits, CanDo, LedgerRuns.LedgerInv;
    var before, e := AfterPosts(db, posts[..i], cfg), posts[i].event;
    OneMorePost(db, posts, i, cfg);
    LedgerIsSound(db, posts[..i], cfg);
    TranslationBillsPayments(e);
    if e.id !in before.markers {
      NotificationCommitsIff(before, e, posts[i].env, cfg);
    }
    if ToDomainEvent(e).Ok? {
      StepMarks(before, LedgerRuns.Delivery(ToDomainEvent(e).value, posts[i].env), cfg);
    }
  }

  lemma LedgerIsSound(db: Tables, posts: seq<Post>, cfg: Config)
    requires LedgerRuns.LedgerInv(db)
    ensures LedgerRuns.LedgerInv(AfterPosts(db, posts, cfg))
  {
    hide LedgerRuns.LedgerInv;
    var any := LedgerRuns.Delivery(Ignored(0), Env(0, 0, true, true));
    LedgerRuns.LedgerStaysSound(db, Accepted(posts), any, cfg);
  }
}
