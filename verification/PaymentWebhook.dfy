/**
 The payment webhook (src/modules/billing/payment-webhook.service.ts) with the invoice
 emission it calls (src/modules/billing/invoice-emission.service.ts): what one delivery
 of one domain event does to the tables.
 */
module PaymentWebhook {
  import opened Common
  import opened BillingTypes
  import opened Tax
  import Numbering = InvoiceNumbering

  const BILLING_PERIOD_DAYS: int := 30

  datatype Event =
    | Activated(id: EventId, subscriptionId: ProviderSubscriptionId, companyId: CompanyId, plan: Plan)
    | Renewed(id: EventId, subscriptionId: ProviderSubscriptionId)
    | PaymentFailed(id: EventId, companyId: CompanyId)
    | WentPastDue(id: EventId, subscriptionId: ProviderSubscriptionId)
    | PlanChanged(id: EventId, subscriptionId: ProviderSubscriptionId, amountTTC: int)
    | WasCancelled(id: EventId, subscriptionId: ProviderSubscriptionId)
    | Ignored(id: EventId)

  datatype Invoice = Invoice(
    subscription: nat,
    companyId: CompanyId,
    row: Numbering.Row,
    amounts: VatBreakdown,
    issuedAt: Instant,
    stripeEventId: EventId)

  /** The transactional tables. Subscriptions are listed by creation time; a row is named by its index. */
  datatype Tables = Tables(
    markers: set<EventId>,
    subscriptions: seq<Subscription>,
    invoices: seq<Invoice>,
    sequences: map<int, nat>,
    companies: set<CompanyId>,
    conversions: map<CompanyId, Option<Instant>>)

  /** What a delivery finds outside the tables: the clock, and whether the calls that leave the process return. */
  datatype Env = Env(now: Instant, year: int, auditOk: bool, uploadOk: bool)

  datatype Outcome = Processed | AlreadyProcessed | Failed(error: BillingError)

  // ---- Queries ----

  datatype Query =
    | ByCompany(companyId: CompanyId, statuses: set<Status>)
    | ByProviderSubscription(subscriptionId: ProviderSubscriptionId, statuses: set<Status>)

  const ANY_STATUS: set<Status> := {Trial, Active, PastDue, Suspended, Cancelled, Expired}

  predicate Matches(row: Subscription, query: Query) {
    && row.status in query.statuses
    && match query
       case ByCompany(companyId, _) => row.companyId == companyId
       case ByProviderSubscription(s, _) => row.externalId == Some(s)
  }

  /** `findOne`: the first matching row in table order. */
  function FindOne(rows: seq<Subscription>, query: Query): (i: nat)
    ensures i <= |rows|
    ensures i < |rows| ==> Matches(rows[i], query)
    ensures forall j :: 0 <= j < i ==> !Matches(rows[j], query)
  {
    if rows == [] || Matches(rows[0], query) then 0 else 1 + FindOne(rows[1..], query)
  }

  /** `findOne` ordered by creation time, latest first; the number of rows when none matches. */
  function FindLatest(rows: seq<Subscription>, query: Query): (i: nat)
    ensures i <= |rows|
    ensures i < |rows| ==> Matches(rows[i], query) && forall j :: i < j < |rows| ==> !Matches(rows[j], query)
    ensures i == |rows| ==> forall j :: 0 <= j < |rows| ==> !Matches(rows[j], query)
    decreases |rows|
  {
    if rows == [] then 0
    else if Matches(rows[|rows| - 1], query) then |rows| - 1
    else
      var i := FindLatest(rows[..|rows| - 1], query);
      if i < |rows| - 1 then i else |rows|
  }

  // ---- Statements ----

  predicate IsLive(status: Status) {
    status.Trial? || status.Active?
  }

  /** Would this row be a second TRIAL or ACTIVE one of its company? */
  predicate ViolatesActiveIndex(rows: seq<Subscription>, at: nat, row: Subscription) {
    && IsLive(row.status)
    && exists j :: 0 <= j < |rows| && j != at && rows[j].companyId == row.companyId && IsLive(rows[j].status)
  }

  ghost predicate OneLivePerCompany(rows: seq<Subscription>) {
    forall i, j :: 0 <= i < j < |rows| && IsLive(rows[i].status) && IsLive(rows[j].status)
                   ==> rows[i].companyId != rows[j].companyId
  }

  /** `save` of row number `at`, an insert when there is no such row yet; the partial unique index may refuse it. */
  function Stored(rows: seq<Subscription>, at: nat, row: Subscription): (r: Result<seq<Subscription>, BillingError>)
    requires at <= |rows|
  {
    if ViolatesActiveIndex(rows, at, row) then Err(ActiveSubscriptionConflict)
    else if at < |rows| then Ok(rows[at := row])
    else Ok(rows + [row])
  }

  function SaveRow(db: Tables, at: nat, row: Subscription): (r: Result<Tables, BillingError>)
    requires at <= |db.subscriptions|
  {
    var rows :- Stored(db.subscriptions, at, row);
    Ok(db.(subscriptions := rows))
  }

  predicate InvoiceRefused(invoices: seq<Invoice>, row: Numbering.Row, eventId: EventId) {
    exists i :: 0 <= i < |invoices| &&
      (invoices[i].stripeEventId == eventId
       || Numbering.InvoiceNumber(invoices[i].row.year, invoices[i].row.number)
           == Numbering.InvoiceNumber(row.year, row.number))
  }

  function AmountsDue(plan: Plan, amountTTC: Option<int>, cfg: Config): Result<VatBreakdown, BillingError> {
    if amountTTC.Some? then Ok(ComputeVatFromTtc(amountTTC.value))
    else
      var price :- ResolveMonthlyPriceHt(plan, cfg);
      Ok(ComputeVat(price))
  }

  function Emitted(db: Tables, at: nat, eventId: EventId, amountTTC: Option<int>, cfg: Config, env: Env)
    : Result<Tables, BillingError>
    requires at < |db.subscriptions|
  {
    var subscription := db.subscriptions[at];
    var amounts :- AmountsDue(subscription.plan, amountTTC, cfg);
    var row := Numbering.Row(env.year, Numbering.Last(db.sequences, env.year) + 1);
    if !env.uploadOk then Err(OutsideFailure)
    else if InvoiceRefused(db.invoices, row, eventId) then Err(InvoiceConflict)
    else Ok(db.(sequences := db.sequences[env.year := row.number],
                invoices := db.invoices + [Invoice(at, subscription.companyId, row, amounts, env.now, eventId)]))
  }

  // ---- The effect of an event ----

  predicate Bills(event: Event) {
    event.Activated? || event.Renewed? || event.PlanChanged?
  }

  /** The row that the handler of an event reads; the number of rows when there is none. */
  function RowFor(rows: seq<Subscription>, event: Event): (at: nat)
    ensures at <= |rows|
  {
    match event
    case Activated(_, _, companyId, _) => FindLatest(rows, ByCompany(companyId, {Trial, PastDue}))
    case Renewed(_, s) => FindOne(rows, ByProviderSubscription(s, {Active, PastDue}))
    case PaymentFailed(_, companyId) => FindOne(rows, ByCompany(companyId, {Active}))
    case WentPastDue(_, s) => FindOne(rows, ByProviderSubscription(s, ANY_STATUS))
    case PlanChanged(_, s, _) => FindOne(rows, ByProviderSubscription(s, ANY_STATUS))
    case WasCancelled(_, s) => FindOne(rows, ByProviderSubscription(s, ANY_STATUS))
    case Ignored(_) => |rows|
  }

  /** What the handler makes of the row it found, or of none; there may be nothing to save. */
  function Rewritten(found: Option<Subscription>, event: Event, cfg: Config, now: Instant)
    : Result<Option<Subscription>, BillingError>
  {
    match event
    case Activated(_, s, companyId, plan) =>
      var quota :- ResolveContactQuota(plan, cfg);
      var end := Some(AddDays(now, BILLING_PERIOD_DAYS));
      if found.Some? then Ok(Some(found.value.(status := Active, plan := plan, contactQuota := quota, contactsUsed := 0,
                                               externalId := Some(s), endsAt := end)))
      else Ok(Some(Subscription(companyId, plan, Active, Some(s), now, end, quota, 0, None, false)))
    case PaymentFailed(_, _) => Ok(if found.Some? then Some(found.value.(status := PastDue)) else None)
    case Ignored(_) => Ok(None)
    case _ => if found.None? then Err(UnknownSubscription) else RewrittenFound(found.value, event, now)
  }

  function RewrittenFound(row: Subscription, event: Event, now: Instant): Result<Option<Subscription>, BillingError> {
    match event
    case Renewed(_, _) =>
      var start := if row.endsAt.Some? then row.endsAt.value else now;
      Ok(Some(row.(status := Active, contactsUsed := 0, endsAt := Some(AddDays(start, BILLING_PERIOD_DAYS)),
                   pastDueSince := if row.status.PastDue? then None else row.pastDueSince)))
    case WentPastDue(_, _) =>
      Ok(if row.status.Active? then Some(row.(status := PastDue, pastDueSince := Some(now))) else None)
    case WasCancelled(_, _) =>
      if row.status.Cancelled? then Ok(None)
      else if Cancelled !in Transitions(row.status) then Err(InvalidTransition(row.status, Cancelled))
      else Ok(Some(row.(status := Cancelled, pastDueSince := None)))
    case _ => Ok(None)
  }

  /** Which row an event writes, and which row it bills. */
  datatype Effect = Effect(write: Option<(nat, Subscription)>, bills: Option<nat>, audited: bool)

  /** The effect on row `at` as it was found. */
  function EffectAt(at: nat, found: Option<Subscription>, event: Event, cfg: Config, now: Instant)
    : (r: Result<Effect, BillingError>)
    ensures r.Ok? && r.value.write.Some? ==> r.value.write.value.0 == at
    ensures r.Ok? && r.value.bills.Some? ==> r.value.bills.value == at && (found.Some? || r.value.write.Some?)
  {
    var row :- Rewritten(found, event, cfg, now);
    Ok(Effect(if row.Some? then Some((at, row.value)) else None, if Bills(event) then Some(at) else None,
              !event.Ignored? && !(event.WasCancelled? && row.None?)))
  }

  function RowAt(rows: seq<Subscription>, at: nat): Option<Subscription> {
    if at < |rows| then Some(rows[at]) else None
  }

  function EffectOf(rows: seq<Subscription>, event: Event, cfg: Config, now: Instant): (r: Result<Effect, BillingError>)
    ensures r.Ok? && r.value.write.Some? ==> r.value.write.value.0 <= |rows|
    ensures r.Ok? && r.value.bills.Some? ==> r.value.bills.value < |RowsAfter(rows, r.value)|
  {
    EffectAt(RowFor(rows, event), RowAt(rows, RowFor(rows, event)), event, cfg, now)
  }

  function MarkConverted(db: Tables, companyId: CompanyId, now: Instant): Tables {
    if companyId in db.conversions && db.conversions[companyId].None?
    then db.(conversions := db.conversions[companyId := Some(now)])
    else db
  }

  function Applied(db: Tables, event: Event, cfg: Config, env: Env): Result<Tables, BillingError> {
    AppliedTo(db, RowFor(db.subscriptions, event), RowAt(db.subscriptions, RowFor(db.subscriptions, event)), event, cfg,
              env)
  }

  /** The handler from its read on: the tables may have changed since it found that row. */
  function AppliedTo(db: Tables, at: nat, found: Option<Subscription>, event: Event, cfg: Config, env: Env)
    : Result<Tables, BillingError>
    requires if found.Some? then at < |db.subscriptions| else at == |db.subscriptions|
  {
    var effect :- EffectAt(at, found, event, cfg, env.now);
    Settled(db, event, effect, cfg, env)
  }

  /** Write the row, log it, note a converted trial, then issue the invoice. */
  function Settled(db: Tables, event: Event, effect: Effect, cfg: Config, env: Env): Result<Tables, BillingError>
    requires effect.write.Some? ==> effect.write.value.0 <= |db.subscriptions|
    requires effect.bills.Some? ==> effect.bills.value < |RowsAfter(db.subscriptions, effect)|
  {
    var db1 :- if effect.write.Some? then SaveRow(db, effect.write.value.0, effect.write.value.1) else Ok(db);
    if effect.audited && !env.auditOk && !event.PlanChanged? then Err(OutsideFailure)
    else
      var db2 := if event.Activated? then MarkConverted(db1, event.companyId, env.now) else db1;
      if effect.bills.None? then Ok(db2)
      else
        var at := effect.bills.value;
        if db2.subscriptions[at].companyId !in db2.companies then Err(CompanyNotFound)
        else
          var db3 :- Emitted(db2, at, event.id, if event.PlanChanged? then Some(event.amountTTC) else None, cfg, env);
          if event.PlanChanged? && !env.auditOk then Err(OutsideFailure) else Ok(db3)
  }

  function RowsAfter(rows: seq<Subscription>, effect: Effect): seq<Subscription>
    requires effect.write.Some? ==> effect.write.value.0 <= |rows|
  {
    if effect.write.None? then rows
    else if effect.write.value.0 < |rows| then rows[effect.write.value.0 := effect.write.value.1]
    else rows + [effect.write.value.1]
  }

  /** One delivery: the marker and the effect commit together or not at all. */
  function Delivered(db: Tables, event: Event, cfg: Config, env: Env): (Tables, Outcome) {
    if event.id in db.markers then (db, AlreadyProcessed)
    else
      match Applied(db.(markers := db.markers + {event.id}), event, cfg, env)
      case Ok(db') => (db', Processed)
      case Err(e) => (db, Failed(e))
  }

  /** A conflict inside the effect is never mistaken for the marker's. */
  lemma OnlyTheMarkerConflicts(db: Tables, event: Event, cfg: Config, env: Env)
    ensures Applied(db, event, cfg, env) != Err(MarkerConflict)
  {
    hide EffectAt, Settled, RowFor;
    var at := RowFor(db.subscriptions, event);
    var effect := EffectAt(at, RowAt(db.subscriptions, at), event, cfg, env.now);
    EffectIsNoMarkerConflict(at, RowAt(db.subscriptions, at), event, cfg, env.now);
    if effect.Ok? {
      SettlingIsNoMarkerConflict(db, event, effect.value, cfg, env);
    }
  }

  lemma EffectIsNoMarkerConflict(at: nat, found: Option<Subscription>, event: Event, cfg: Config, now: Instant)
    ensures EffectAt(at, found, event, cfg, now) != Err(MarkerConflict)
  {
  }

  lemma SettlingIsNoMarkerConflict(db: Tables, event: Event, effect: Effect, cfg: Config, env: Env)
    requires effect.write.Some? ==> effect.write.value.0 <= |db.subscriptions|
    requires effect.bills.Some? ==> effect.bills.value < |RowsAfter(db.subscriptions, effect)|
    ensures Settled(db, event, effect, cfg, env) != Err(MarkerConflict)
  {
    hide ViolatesActiveIndex, InvoiceRefused;
  }

  // ---- The service ----

  class PaymentWebhookService {
    var markers: set<EventId>
    var subscriptions: seq<Subscription>
    var invoices: seq<Invoice>
    var sequences: map<int, nat>
    var companies: set<CompanyId>
    var conversions: map<CompanyId, Option<Instant>>
    const cfg: Config

    constructor (cfg: Config)
      ensures this.cfg == cfg
      ensures Contents() == Tables({}, [], [], map[], {}, map[])
    {
      this.cfg := cfg;
      markers, subscriptions, invoices, sequences, companies, conversions := {}, [], [], map[], {}, map[];
    }

    function Contents(): Tables
      reads this
    {
      Tables(markers, subscriptions, invoices, sequences, companies, conversions)
    }

    method Save(at: nat, row: Subscription) returns (r: Result<(), BillingError>)
      requires at <= |subscriptions|
      modifies this`subscriptions
      ensures SaveRow(old(Contents()), at, row).Ok? ==> r.Ok? && Contents() == SaveRow(old(Contents()), at, row).value
      ensures SaveRow(old(Contents()), at, row).Err? ==> r == Err(SaveRow(old(Contents()), at, row).error)
    {
      if ViolatesActiveIndex(subscriptions, at, row) {
        return Err(ActiveSubscriptionConflict);
      }
      subscriptions := if at < |subscriptions| then subscriptions[at := row] else subscriptions + [row];
      r := Ok(());
    }

    /** ON CONFLICT DO NOTHING, then SELECT ... FOR UPDATE, then the increment. */
    method AllocateInvoiceNumber(year: int) returns (row: Numbering.Row)
      modifies this`sequences
      ensures row == Numbering.Row(year, Numbering.Last(old(sequences), year) + 1)
      ensures sequences == old(sequences)[year := row.number]
    {
      if year !in sequences {
        sequences := sequences[year := 0];
      }
      var lastNumber := sequences[year];
      lastNumber := lastNumber + 1;
      sequences := sequences[year := lastNumber];
      row := Numbering.Row(year, lastNumber);
    }

    method Emit(at: nat, eventId: EventId, amountTTC: Option<int>, env: Env) returns (r: Result<(), BillingError>)
      requires at < |subscriptions|
      modifies this`sequences, this`invoices
      ensures var e := Emitted(old(Contents()), at, eventId, amountTTC, cfg, env);
              (e.Ok? ==> r.Ok? && Contents() == e.value) && (e.Err? ==> r == Err(e.error))
    {
      hide AmountsDue, InvoiceRefused, Numbering.InvoiceNumber;
      var subscription := subscriptions[at];
      var amounts := AmountsDue(subscription.plan, amountTTC, cfg);
      if amounts.Err? {
        return Err(amounts.error);
      }
      var row := AllocateInvoiceNumber(env.year);
      if !env.uploadOk {
        return Err(OutsideFailure);
      }
      if InvoiceRefused(invoices, row, eventId) {
        return Err(InvoiceConflict);
      }
      invoices := invoices + [Invoice(at, subscription.companyId, row, amounts.value, env.now, eventId)];
      r := Ok(());
    }

    method ActivateSubscription(event: Event, env: Env) returns (r: Result<(), BillingError>)
      requires event.Activated?
      modifies this
      ensures ReportsApplied(old(Contents()), event, env, r)
    {
      hide Emitted, ViolatesActiveIndex, FindLatest;
      var quota := ResolveContactQuota(event.plan, cfg);
      if quota.Err? {
        return Err(quota.error);
      }
      var at := FindLatest(subscriptions, ByCompany(event.companyId, {Trial, PastDue}));
      var periodEnd := AddDays(env.now, BILLING_PERIOD_DAYS);
      var row;
      if at < |subscriptions| {
        row := subscriptions[at];
        row := row.(status := Active);
        row := row.(plan := event.plan);
        row := row.(contactQuota := quota.value, contactsUsed := 0);
        row := row.(externalId := Some(event.subscriptionId));
        row := row.(endsAt := Some(periodEnd));
      } else {
        row := Subscription(event.companyId, event.plan, Active, Some(event.subscriptionId), env.now, Some(periodEnd),
                            quota.value, 0, None, false);
      }
      var saved := Save(at, row);
      if saved.Err? {
        return saved;
      }
      if !env.auditOk {
        return Err(OutsideFailure);
      }
      if event.companyId in conversions && conversions[event.companyId].None? {
        conversions := conversions[event.companyId := Some(env.now)];
      }
      if subscriptions[at].companyId !in companies {
        return Err(CompanyNotFound);
      }
      r := Emit(at, event.id, None, env);
    }

    method RenewSubscription(event: Event, env: Env) returns (r: Result<(), BillingError>)
      requires event.Renewed?
      modifies this
      ensures ReportsApplied(old(Contents()), event, env, r)
    {
      hide Emitted, ViolatesActiveIndex, FindOne;
      var at := FindOne(subscriptions, ByProviderSubscription(event.subscriptionId, {Active, PastDue}));
      if at == |subscriptions| {
        return Err(UnknownSubscription);
      }
      var row := subscriptions[at];
      if row.status.PastDue? {
        row := row.(status := Active);
        row := row.(pastDueSince := None);
      }
      row := row.(endsAt := Some(AddDays(if row.endsAt.Some? then row.endsAt.value else env.now, BILLING_PERIOD_DAYS)));
      row := row.(contactsUsed := 0);
      var saved := Save(at, row);
      if saved.Err? {
        return saved;
      }
      if !env.auditOk {
        return Err(OutsideFailure);
      }
      if row.companyId !in companies {
        return Err(CompanyNotFound);
      }
      r := Emit(at, event.id, None, env);
    }

    method MarkPastDue(event: Event, env: Env) returns (r: Result<(), BillingError>)
      requires event.PaymentFailed?
      modifies this
      ensures ReportsApplied(old(Contents()), event, env, r)
    {
      var at := FindOne(subscriptions, ByCompany(event.companyId, {Active}));
      if at < |subscriptions| {
        var row := subscriptions[at];
        row := row.(status := PastDue);
        var saved := Save(at, row);
        if saved.Err? {
          return saved;
        }
      }
      r := if env.auditOk then Ok(()) else Err(OutsideFailure);
    }

    method MarkSubscriptionPastDue(event: Event, env: Env) returns (r: Result<(), BillingError>)
      requires event.WentPastDue?
      modifies this
      ensures ReportsApplied(old(Contents()), event, env, r)
    {
      var at := FindOne(subscriptions, ByProviderSubscription(event.subscriptionId, ANY_STATUS));
      if at == |subscriptions| {
        return Err(UnknownSubscription);
      }
      var row := subscriptions[at];
      if row.status.Active? {
        row := row.(status := PastDue);
        row := row.(pastDueSince := Some(env.now));
        var saved := Save(at, row);
        if saved.Err? {
          return saved;
        }
      }
      r := if env.auditOk then Ok(()) else Err(OutsideFailure);
    }

    method HandlePlanChangeInvoice(event: Event, env: Env) returns (r: Result<(), BillingError>)
      requires event.PlanChanged?
      modifies this
      ensures ReportsApplied(old(Contents()), event, env, r)
    {
      var at := FindOne(subscriptions, ByProviderSubscription(event.subscriptionId, ANY_STATUS));
      if at == |subscriptions| {
        return Err(UnknownSubscription);
      }
      if subscriptions[at].companyId !in companies {
        return Err(CompanyNotFound);
      }
      r := Emit(at, event.id, Some(event.amountTTC), env);
      if r.Ok? && !env.auditOk {
        r := Err(OutsideFailure);
      }
    }

    method CancelSubscription(event: Event, env: Env) returns (r: Result<(), BillingError>)
      requires event.WasCancelled?
      modifies this
      ensures ReportsApplied(old(Contents()), event, env, r)
    {
      var at := FindOne(subscriptions, ByProviderSubscription(event.subscriptionId, ANY_STATUS));
      if at == |subscriptions| {
        return Err(UnknownSubscription);
      }
      var row := subscriptions[at];
      if row.status.Cancelled? {
        return Ok(());
      }
      if Cancelled !in Transitions(row.status) {
        return Err(InvalidTransition(row.status, Cancelled));
      }
      row := row.(status := Cancelled);
      row := row.(pastDueSince := None);
      var saved := Save(at, row);
      if saved.Err? {
        return saved;
      }
      r := if env.auditOk then Ok(()) else Err(OutsideFailure);
    }

    ghost predicate ReportsApplied(before: Tables, event: Event, env: Env, r: Result<(), BillingError>)
      reads this
    {
      var applied := Applied(before, event, cfg, env);
      (applied.Ok? ==> r.Ok? && Contents() == applied.value) && (applied.Err? ==> r == Err(applied.error))
    }

    method ApplyEffect(event: Event, env: Env) returns (r: Result<(), BillingError>)
      modifies this
      ensures ReportsApplied(old(Contents()), event, env, r)
    {
      match event
      case Activated(_, _, _, _) => r := ActivateSubscription(event, env);
      case Renewed(_, _) => r := RenewSubscription(event, env);
      case PaymentFailed(_, _) => r := MarkPastDue(event, env);
      case WentPastDue(_, _) => r := MarkSubscriptionPastDue(event, env);
      case PlanChanged(_, _, _) => r := HandlePlanChangeInvoice(event, env);
      case WasCancelled(_, _) => r := CancelSubscription(event, env);
      case Ignored(_) => r := Ok(());
    }

    /** Whatever the transaction had already written when it failed is rolled back. */
    method HandleWebhook(event: Event, env: Env) returns (outcome: Outcome)
      modifies this
      ensures (Contents(), outcome) == Delivered(old(Contents()), event, cfg, env)
    {
      hide Applied;
      var before := Contents();
      OnlyTheMarkerConflicts(before.(markers := markers + {event.id}), event, cfg, env);
      var r: Result<(), BillingError>;
      if event.id in markers {
        r := Err(MarkerConflict);
      } else {
        markers := markers + {event.id};
        r := ApplyEffect(event, env);
      }
      if r.Err? {
        markers, subscriptions, invoices := before.markers, before.subscriptions, before.invoices;
        sequences, companies, conversions := before.sequences, before.companies, before.conversions;
      }
      outcome := if r.Ok? then Processed else if r.error.MarkerConflict? then AlreadyProcessed else Failed(r.error);
    }
  }
}
