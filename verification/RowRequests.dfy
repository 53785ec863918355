/**
 Every service, the webhook included, writes a subscription row in parts: it reads the row and
 checks it, tells the provider where it must, and saves what it read with some fields set. `save`
 writes the whole row back, so what others wrote in between is lost. Consuming a contact is the
 exception: one conditional UPDATE of the row as it then is.
 */
module RowRequests {
  import opened Common
  import opened BillingTypes
  import opened PaymentWebhook
  import opened SubscriptionCheckout
  import opened SubscriptionAdmin

  datatype Operation =
    | ChangePlan(companyId: CompanyId, plan: Plan)
    | CancelAtPeriodEnd(companyId: CompanyId)
    | RedeemTrial(companyId: CompanyId, plan: Plan, endsAt: Instant)
    | ConsumeContact(companyId: CompanyId)
    | CancelNow(at: nat, now: Instant)
    | Suspend(at: nat)
    | Reactivate(at: nat)
    | AssignPlan(companyId: CompanyId, plan: Plan, override: Option<nat>, now: Instant)
    | Process(event: Event, env: Env)

  /** A request under way: the row it read, None if it found none, and whether the provider was told. */
  datatype Request = Request(op: Operation, at: nat, read: Option<Subscription>, told: bool)

  predicate TellsProvider(op: Operation) {
    op.ChangePlan? || op.CancelAtPeriodEnd?
  }

  /** The row an operation reads; the number of rows when there is none. */
  function Picks(rows: seq<Subscription>, op: Operation): (at: nat)
    ensures at <= |rows|
  {
    match op
    case ChangePlan(companyId, _) => FindLatest(rows, ByCompany(companyId, BILLED))
    case CancelAtPeriodEnd(companyId) => FindLatest(rows, ByCompany(companyId, BILLED))
    case RedeemTrial(companyId, _, _) => FindLatest(rows, ByCompany(companyId, {Trial}))
    case ConsumeContact(companyId) => FindOne(rows, ByCompany(companyId, {Trial, Active}))
    case AssignPlan(companyId, _, _, _) => FindLatest(rows, ByCompany(companyId, LIVE_STATUSES))
    case CancelNow(at, _) => if at < |rows| then at else |rows|
    case Suspend(at) => if at < |rows| then at else |rows|
    case Reactivate(at) => if at < |rows| then at else |rows|
    case Process(event, _) => RowFor(rows, event)
  }

  function QuotaFor(op: Operation, cfg: Config): Result<nat, BillingError> {
    match op
    case ChangePlan(_, plan) => ResolveContactQuota(plan, cfg)
    case RedeemTrial(_, plan, _) => ResolveContactQuota(plan, cfg)
    case AssignPlan(_, plan, override, _) => ResolveQuota(plan, override, cfg)
    case Process(event, _) => if event.Activated? then ResolveContactQuota(event.plan, cfg) else Ok(0)
    case _ => Ok(0)
  }

  /** Is it a row that the handler of the event looks for? */
  predicate SoughtBy(row: Subscription, event: Event) {
    match event
    case Activated(_, _, companyId, _) => row.companyId == companyId && (row.status.Trial? || row.status.PastDue?)
    case Renewed(_, s) => row.externalId == Some(s) && row.status in BILLED
    case PaymentFailed(_, companyId) => row.companyId == companyId && row.status.Active?
    case WentPastDue(_, s) => row.externalId == Some(s)
    case PlanChanged(_, s, _) => row.externalId == Some(s)
    case WasCancelled(_, s) => row.externalId == Some(s)
    case Ignored(_) => false
  }

  /** May the operation go on with this row? */
  predicate Suits(row: Subscription, op: Operation, cfg: Config) {
    match op
    case ChangePlan(_, plan) =>
      && row.status in BILLED && row.externalId.Some? && row.plan != plan && ChargeFor(plan, cfg).Ok?
    case CancelAtPeriodEnd(_) => row.status in BILLED && row.externalId.Some? && !row.cancelAtPeriodEnd
    case RedeemTrial(_, _, _) => row.status.Trial?
    case ConsumeContact(_) => IsLive(row.status)
    case CancelNow(_, _) => true
    case Suspend(_) => Suspended in Transitions(row.status)
    case Reactivate(_) => row.status.Suspended?
    case AssignPlan(_, _, _, _) => row.status in LIVE_STATUSES
    case Process(event, env) => SoughtBy(row, event) && Rewritten(Some(row), event, cfg, env.now).Ok?
  }

  /** May it go on when there is no row? */
  predicate GoesOnWithout(op: Operation, cfg: Config) {
    op.AssignPlan? || (op.Process? && Rewritten(None, op.event, cfg, op.env.now).Ok?)
  }

  /** Does the operation get past its checks to the point where it saves? */
  predicate Proceeds(rows: seq<Subscription>, companies: set<CompanyId>, op: Operation, cfg: Config) {
    var at := Picks(rows, op);
    && QuotaFor(op, cfg).Ok?
    && (if at < |rows| then Suits(rows[at], op, cfg) else GoesOnWithout(op, cfg))
    && (op.AssignPlan? ==> op.companyId in companies)
    && (op.Reactivate? ==> at < |rows| && !LiveElsewhereFor(rows, at))
  }

  function Began(rows: seq<Subscription>, op: Operation): Request {
    Request(op, Picks(rows, op), RowAt(rows, Picks(rows, op)), false)
  }

  /** What the operation makes of a row. */
  function Intended(row: Subscription, op: Operation, cfg: Config): Subscription {
    var quota := if QuotaFor(op, cfg).Ok? then QuotaFor(op, cfg).value else 0;
    match op
    case ChangePlan(_, plan) => row.(plan := plan, contactQuota := quota)
    case CancelAtPeriodEnd(_) => row.(cancelAtPeriodEnd := true)
    case RedeemTrial(_, plan, endsAt) => row.(plan := plan, contactQuota := quota, endsAt := Some(endsAt))
    case ConsumeContact(_) =>
      if row.contactsUsed < row.contactQuota then row.(contactsUsed := row.contactsUsed + 1) else row
    case CancelNow(_, now) => Ended(row, now)
    case Suspend(_) => Held(row)
    case Reactivate(_) => Lifted(row)
    case AssignPlan(_, plan, _, _) => Assigned(row, plan, quota)
    case Process(event, env) =>
      var saved := Rewritten(Some(row), event, cfg, env.now);
      if saved.Ok? && saved.value.Some? then saved.value.value else row
  }

  /** Does it write back the row it read? Some events change nothing, and a contact is counted on the row as it is. */
  predicate WritesBack(read: Subscription, op: Operation) {
    match op
    case ConsumeContact(_) => false
    case Process(event, _) =>
      !event.PlanChanged? && !event.Ignored? && (event.WentPastDue? ==> read.status.Active?)
      && (event.WasCancelled? ==> !read.status.Cancelled?)
    case _ => true
  }

  /** Without a row, does it insert one? */
  predicate Inserts(op: Operation) {
    op.AssignPlan? || (op.Process? && op.event.Activated?)
  }

  function Inserted(op: Operation, cfg: Config): Subscription
    requires Inserts(op)
  {
    var quota := if QuotaFor(op, cfg).Ok? then QuotaFor(op, cfg).value else 0;
    match op
    case AssignPlan(companyId, plan, _, now) => Provisioned(companyId, plan, quota, now)
    case Process(event, env) =>
      Subscription(event.companyId, event.plan, Active, Some(event.subscriptionId), env.now,
                   Some(AddDays(env.now, BILLING_PERIOD_DAYS)), quota, 0, None, false)
  }

  predicate WellPlaced(q: Request, rows: seq<Subscription>) {
    if q.read.Some? then q.at < |rows| else q.op.AssignPlan? || q.op.Process?
  }

  predicate PlacesRow(q: Request) {
    q.read.Some? || Inserts(q.op)
  }

  /** The row a request leaves in its place, given the rows as they are by then. */
  function Writes(rows: seq<Subscription>, q: Request, cfg: Config): Subscription
    requires WellPlaced(q, rows) && PlacesRow(q)
  {
    if q.read.None? then Inserted(q.op, cfg)
    else if WritesBack(q.read.value, q.op) then Intended(q.read.value, q.op, cfg)
    else if q.op.ConsumeContact? then Intended(rows[q.at], q.op, cfg)
    else rows[q.at]
  }

  function Place(rows: seq<Subscription>, q: Request): nat {
    if q.read.Some? then q.at else |rows|
  }

  /** The unique index lets the save through. */
  predicate Accepted(rows: seq<Subscription>, q: Request, cfg: Config)
    requires WellPlaced(q, rows)
  {
    PlacesRow(q) ==> !ViolatesActiveIndex(rows, Place(rows, q), Writes(rows, q, cfg))
  }

  /** The rows with the request's row in its place. */
  function Placed(rows: seq<Subscription>, q: Request, cfg: Config): seq<Subscription>
    requires WellPlaced(q, rows)
  {
    if !PlacesRow(q) then rows
    else if q.read.Some? then rows[q.at := Writes(rows, q, cfg)]
    else rows + [Writes(rows, q, cfg)]
  }

  /** The rest of the webhook's transaction, from its read on, with its marker. */
  function Handled(db: Tables, q: Request, cfg: Config): Result<Tables, BillingError>
    requires WellPlaced(q, db.subscriptions) && q.op.Process?
  {
    var marked := db.(markers := db.markers + {q.op.event.id});
    AppliedTo(marked, Place(db.subscriptions, q), q.read, q.op.event, cfg, q.op.env)
  }

  /** Does the request succeed? An event's transaction also issues the invoice. */
  predicate GoesThrough(db: Tables, q: Request, cfg: Config)
    requires WellPlaced(q, db.subscriptions)
  {
    if q.op.Process? then Handled(db, q, cfg).Ok? else Accepted(db.subscriptions, q, cfg)
  }

  /** The tables after the save, which may be refused. */
  function Saved(db: Tables, q: Request, cfg: Config): Tables
    requires WellPlaced(q, db.subscriptions)
  {
    if !GoesThrough(db, q, cfg) then db
    else if q.op.Process? then Handled(db, q, cfg).value
    else db.(subscriptions := Placed(db.subscriptions, q, cfg))
  }

  function ToldAccount(account: Account, q: Request, cfg: Config): Account
    requires TellsProvider(q.op) && q.read.Some? && q.read.value.externalId.Some?
  {
    var s := q.read.value.externalId.value;
    if q.op.ChangePlan? then
      if ChargeFor(q.op.plan, cfg).Ok?
          then account.(unitAmounts := account.unitAmounts[s := ChargeFor(q.op.plan, cfg).value])
      else account
    else account.(ending := account.ending + {s})
  }

  // ---- Run on its own, a request is the operation of its service ----

  lemma KeepingTheStatusIsAccepted(rows: seq<Subscription>, at: nat, row: Subscription)
    requires OneLivePerCompany(rows) && at < |rows|
    requires row.companyId == rows[at].companyId && row.status == rows[at].status
    ensures !ViolatesActiveIndex(rows, at, row)
  {
    if IsLive(row.status) {
      forall j | 0 <= j < |rows| && j != at && IsLive(rows[j].status)
        ensures rows[j].companyId != row.companyId
      {
        assert if j < at then IsLive(rows[j].status) && IsLive(rows[at].status)
               else IsLive(rows[at].status) && IsLive(rows[j].status);
      }
    }
  }

  lemma PlanChangeAlone(rows: seq<Subscription>, account: Account, companyId: CompanyId, plan: Plan, cfg: Config)
    requires PlanChange(rows, account, companyId, plan, cfg, Outside(true, true)).result.Ok?
    requires OneLivePerCompany(rows)
    ensures var op := ChangePlan(companyId, plan);
            var q := Began(rows, op);
            && Proceeds(rows, {}, op, cfg) && WellPlaced(q, rows)
            && var change := PlanChange(rows, account, companyId, plan, cfg, Outside(true, true));
            && Accepted(rows, q, cfg) && Placed(rows, q, cfg) == change.rows
            && ToldAccount(account, q, cfg) == change.account
  {
    var at := FindLatest(rows, ByCompany(companyId, BILLED));
    assert Matches(rows[at], ByCompany(companyId, BILLED));
    KeepingTheStatusIsAccepted(rows, at, Writes(rows, Began(rows, ChangePlan(companyId, plan)), cfg));
  }

  lemma PeriodEndCancellationAlone(rows: seq<Subscription>, account: Account, companyId: CompanyId, cfg: Config)
    requires PeriodEndCancellation(rows, account, companyId, Outside(true, true)).result.Ok?
    requires OneLivePerCompany(rows)
    ensures var op := CancelAtPeriodEnd(companyId);
            var q, change := Began(rows, op), PeriodEndCancellation(rows, account, companyId, Outside(true, true));
            if Proceeds(rows, {}, op, cfg) then
              && WellPlaced(q, rows) && Accepted(rows, q, cfg) && Placed(rows, q, cfg) == change.rows
              && ToldAccount(account, q, cfg) == change.account
            else change.rows == rows && change.account == account
  {
    var at := FindLatest(rows, ByCompany(companyId, BILLED));
    assert Matches(rows[at], ByCompany(companyId, BILLED));
    if !rows[at].cancelAtPeriodEnd {
      KeepingTheStatusIsAccepted(rows, at, Writes(rows, Began(rows, CancelAtPeriodEnd(companyId)), cfg));
    }
  }

  /** The staff operations: each is refused before it begins, refused on saving, or has its effect. */
  lemma StaffOperationAlone(rows: seq<Subscription>, companies: set<CompanyId>, op: Operation, cfg: Config)
    requires op.CancelNow? || op.Suspend? || op.Reactivate? || op.AssignPlan?
    ensures var wanted :=
              match op
              case CancelNow(at, now) => Cancellation(rows, at, now)
              case Suspend(at) => Suspension(rows, at)
              case Reactivate(at) => Reactivation(rows, at)
              case AssignPlan(companyId, plan, override, now) =>
                Assignment(rows, companies, companyId, plan, override, cfg, now)
              case _ => Ok(rows);
            var q := Began(rows, op);
            if Proceeds(rows, companies, op, cfg) && WellPlaced(q, rows) && Accepted(rows, q, cfg)
            then wanted == Ok(Placed(rows, q, cfg)) else wanted.Err?
  {
  }

  /** A redeemed trial gets the code's plan, that plan's quota and the end it was given, and keeps all else. */
  lemma RedemptionWrites(row: Subscription, op: Operation, cfg: Config)
    requires op.RedeemTrial? && QuotaFor(op, cfg).Ok?
    ensures op.plan in cfg.quotas && !op.plan.Enterprise?
    ensures Intended(row, op, cfg)
            == row.(plan := op.plan, contactQuota := cfg.quotas[op.plan], endsAt := Some(op.endsAt))
  {
  }

  /**
   A contact is counted on the row as it is by then, one at a time and never beyond the quota; whatever
   the request had read of it does not matter.
   */
  lemma ConsumptionCountsOne(rows: seq<Subscription>, q: Request, cfg: Config)
    requires q.op.ConsumeContact? && q.read.Some? && WellPlaced(q, rows)
    ensures var row := rows[q.at];
            && (row.contactsUsed < row.contactQuota
                ==> Writes(rows, q, cfg) == row.(contactsUsed := row.contactsUsed + 1))
            && (row.contactsUsed >= row.contactQuota ==> Writes(rows, q, cfg) == row)
  {
  }

  /** Which of the staff's operations and of the company's own get past their checks. */
  lemma ProceedsIff(rows: seq<Subscription>, companies: set<CompanyId>, at: nat, now: Instant, companyId: CompanyId,
          plan: Plan, override: Option<nat>, cfg: Config)
    ensures Proceeds(rows, companies, CancelNow(at, now), cfg) <==> at < |rows|
    ensures Proceeds(rows, companies, Suspend(at), cfg)
            <==> at < |rows| && IsOpen(rows[at].status) && !rows[at].status.Suspended?
    ensures Proceeds(rows, companies, Reactivate(at), cfg)
            <==> && at < |rows| && rows[at].status.Suspended?
                 && forall j :: 0 <= j < |rows| && j != at && rows[j].companyId == rows[at].companyId
                                ==> !rows[j].status.Trial? && !rows[j].status.Active?
    ensures Proceeds(rows, companies, AssignPlan(companyId, plan, override, now), cfg)
            <==> companyId in companies && (override.Some? || (!plan.Enterprise? && plan in cfg.quotas))
    ensures Proceeds(rows, companies, ConsumeContact(companyId), cfg)
            <==> exists i :: 0 <= i < |rows| && OfCompany(rows[i], companyId, true)
    ensures Proceeds(rows, companies, RedeemTrial(companyId, plan, now), cfg)
            <==> && !plan.Enterprise? && plan in cfg.quotas
                 && exists i :: 0 <= i < |rows| && OfCompany(rows[i], companyId, false)
  {
    hide FindOne, FindLatest;
    RowsPicked(rows, companyId, plan, now);
    if at < |rows| && LiveElsewhereFor(rows, at) {
      var j :| 0 <= j < |rows| && j != at && rows[j].companyId == rows[at].companyId && IsLive(rows[j].status);
      assert rows[j].status.Trial? || rows[j].status.Active?;
    }
  }

  /** The requests that tell the provider go on with the row that the provider collects for. */
  lemma ToldProceedsIff(rows: seq<Subscription>, companies: set<CompanyId>, companyId: CompanyId, plan: Plan,
          cfg: Config)
    ensures Proceeds(rows, companies, ChangePlan(companyId, plan), cfg)
            <==> && plan in cfg.quotas && SubscriptionCheckout.IsPriced(plan, cfg)
                 && exists at: nat, s :: PaysFor(rows, at, companyId, s) && rows[at].plan != plan
    ensures Proceeds(rows, companies, CancelAtPeriodEnd(companyId), cfg)
            <==> exists at: nat, s :: PaysFor(rows, at, companyId, s) && !rows[at].cancelAtPeriodEnd
  {
    hide FindLatest, ChargeFor;
    LastBilled(rows, companyId);
    ChargeIsPriceWithTax(plan, cfg);
    var at := Picks(rows, ChangePlan(companyId, plan));
    assert at < |rows| && rows[at].externalId.Some? ==> PaysFor(rows, at, companyId, rows[at].externalId.value);
  }

  predicate OfCompany(row: Subscription, companyId: CompanyId, live: bool) {
    row.companyId == companyId && (row.status.Trial? || (live && row.status.Active?))
  }

  /** A redemption is about the company's last trial, a contact about its first trial or active row. */
  lemma RowsPicked(rows: seq<Subscription>, companyId: CompanyId, plan: Plan, endsAt: Instant)
    ensures var at := Picks(rows, RedeemTrial(companyId, plan, endsAt));
            && (at < |rows| ==> OfCompany(rows[at], companyId, false))
            && forall j :: (if at < |rows| then at + 1 else 0) <= j < |rows| ==> !OfCompany(rows[j], companyId, false)
    ensures var at := Picks(rows, ConsumeContact(companyId));
            && (at < |rows| ==> OfCompany(rows[at], companyId, true))
            && forall j :: 0 <= j < at ==> !OfCompany(rows[j], companyId, true)
  {
    assert forall j :: 0 <= j < |rows|
             ==> Matches(rows[j], ByCompany(companyId, {Trial})) == OfCompany(rows[j], companyId, false);
    assert forall j :: 0 <= j < |rows|
             ==> Matches(rows[j], ByCompany(companyId, {Trial, Active})) == OfCompany(rows[j], companyId, true);
  }

  /** What is saved is what the handler makes of the row it found. */
  lemma HandlerSaves(q: Request, cfg: Config)
    requires q.op.Process? && Rewritten(q.read, q.op.event, cfg, q.op.env.now).Ok?
    requires q.read.Some? ==> SoughtBy(q.read.value, q.op.event)
    ensures var saved := Rewritten(q.read, q.op.event, cfg, q.op.env.now).value;
            && (q.read.Some? ==> (saved.Some? <==> WritesBack(q.read.value, q.op)))
            && (q.read.Some? && saved.Some? ==> saved.value == Intended(q.read.value, q.op, cfg))
            && (q.read.None? ==> (saved.Some? <==> Inserts(q.op)))
            && (q.read.None? && saved.Some? ==> saved.value == Inserted(q.op, cfg))
  {
  }

  lemma RowsSought(rows: seq<Subscription>, event: Event)
    ensures var at := RowFor(rows, event);
            at < |rows| ==> SoughtBy(rows[at], event)
  {
  }

  /** Read and saved with nothing in between, an event is the delivery of the webhook service. */
  lemma DeliveryAlone(db: Tables, event: Event, cfg: Config, env: Env)
    requires event.id !in db.markers
    ensures var op := Process(event, env);
            var q := Began(db.subscriptions, op);
            && WellPlaced(q, db.subscriptions)
            && (Delivered(db, event, cfg, env).1.Processed?
                <==> Proceeds(db.subscriptions, db.companies, op, cfg) && GoesThrough(db, q, cfg))
            && Delivered(db, event, cfg, env).0 == Saved(db, q, cfg)
  {
    hide Settled, RowFor;
    RowsSought(db.subscriptions, event);
  }

  // ---- Lost updates ----

  /** The fields that an operation leaves as it read them, in a row that is blank in the others. */
  function LeftAlone(row: Subscription, op: Operation): Subscription {
    match op
    case ChangePlan(_, _) => row.(plan := Starter, contactQuota := 0)
    case CancelAtPeriodEnd(_) => row.(cancelAtPeriodEnd := true)
    case RedeemTrial(_, _, _) => row.(plan := Starter, contactQuota := 0, endsAt := None)
    case ConsumeContact(_) => row
    case CancelNow(_, _) => row.(status := Cancelled, endsAt := None, cancelAtPeriodEnd := false)
    case Suspend(_) => row.(status := Suspended, cancelAtPeriodEnd := false)
    case Reactivate(_) => row.(status := Active)
    case AssignPlan(_, _, _, _) =>
      row.(plan := Starter, contactQuota := 0, status := Active, cancelAtPeriodEnd := false, pastDueSince := None,
          endsAt := None)
    case Process(event, env) => LeftAloneBy(row, event, env.now)
  }

  function LeftAloneBy(row: Subscription, event: Event, now: Instant): Subscription {
    match event
    case Activated(_, _, _, _) =>
      row.(status := Active, plan := Starter, contactQuota := 0, contactsUsed := 0, externalId := None, endsAt := None)
    case Renewed(_, _) =>
      row.(status := Active, contactsUsed := 0, endsAt := Some(if row.endsAt.Some? then row.endsAt.value else now),
          pastDueSince := if row.status.PastDue? then None else row.pastDueSince)
    case PaymentFailed(_, _) => row.(status := PastDue)
    case WentPastDue(_, _) => row.(status := PastDue, pastDueSince := None)
    case WasCancelled(_, _) => row.(status := Cancelled, pastDueSince := None)
    case _ => row
  }

  /**
   A save does to the row as it now is what was asked exactly when nobody has changed a field it was to
   leave alone; for a renewal also the start of the new period.
   */
  lemma SaveLosesNothingIff(read: Subscription, now: Subscription, op: Operation, cfg: Config)
    requires WritesBack(read, op) && WritesBack(now, op)
    requires op.Process? ==> Rewritten(Some(read), op.event, cfg, op.env.now).Ok?
                             && Rewritten(Some(now), op.event, cfg, op.env.now).Ok?
    ensures Intended(read, op, cfg) == Intended(now, op, cfg) <==> LeftAlone(read, op) == LeftAlone(now, op)
  {
  }

  /**
   For instance a redeemed trial: saved over a row that was activated meanwhile, it is a trial again,
   known to no provider.
   */
  lemma RedemptionUndoesActivation(read: Subscription, now: Subscription, op: Operation, cfg: Config)
    requires op.RedeemTrial? && Suits(read, op, cfg) && !now.status.Trial?
    ensures Intended(read, op, cfg) != Intended(now, op, cfg)
    ensures Intended(read, op, cfg).status.Trial? && Intended(read, op, cfg).externalId == read.externalId
  {
    SaveLosesNothingIff(read, now, op, cfg);
  }
}
