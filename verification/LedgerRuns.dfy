/** Whole runs of webhook deliveries: duplicates, failed attempts and retries in any order. */
module LedgerRuns {
  import opened Common
  import opened BillingTypes
  import opened PaymentWebhook
  import Numbering = InvoiceNumbering

  datatype Delivery = Delivery(event: Event, env: Env)

  function Step(db: Tables, d: Delivery, cfg: Config): Tables {
    Delivered(db, d.event, cfg, d.env).0
  }

  predicate Commits(db: Tables, d: Delivery, cfg: Config) {
    Delivered(db, d.event, cfg, d.env).1.Processed?
  }

  function After(db: Tables, ds: seq<Delivery>, cfg: Config): Tables
    decreases |ds|
  {
    if ds == [] then db else After(Step(db, ds[0], cfg), ds[1..], cfg)
  }

  /** The deliveries of a run that were reported as processed. */
  function Committed(db: Tables, ds: seq<Delivery>, cfg: Config): seq<Delivery>
    decreases |ds|
  {
    if ds == [] then []
    else (if Commits(db, ds[0], cfg) then [ds[0]] else []) + Committed(Step(db, ds[0], cfg), ds[1..], cfg)
  }

  function Ids(ds: seq<Delivery>): seq<EventId> {
    seq(|ds|, i requires 0 <= i < |ds| => ds[i].event.id)
  }

  // ---- One delivery ----

  /** "Already processed" means a committed marker and nothing else; a failure leaves no trace, so it can be retried. */
  lemma OutcomeMeaning(db: Tables, event: Event, cfg: Config, env: Env)
    ensures var (db', outcome) := Delivered(db, event, cfg, env);
            && (outcome.AlreadyProcessed? <==> event.id in db.markers)
            && (outcome.Failed? ==> db' == db && event.id !in db'.markers && !outcome.error.MarkerConflict?)
            && (outcome.Processed? ==> db'.markers == db.markers + {event.id})
  {
    AppliedShape(db.(markers := db.markers + {event.id}), event, cfg, env);
  }

  function NextRow(db: Tables, env: Env): Numbering.Row {
    Numbering.Row(env.year, Numbering.Last(db.sequences, env.year) + 1)
  }

  /** What a committed event can do to the tables at all. */
  ghost predicate Shape(db: Tables, event: Event, cfg: Config, env: Env, db': Tables) {
    Shaped(db, event, Written(db.subscriptions, event, cfg, env.now), env, db')
  }

  ghost predicate Shaped(db: Tables, event: Event, rows': seq<Subscription>, env: Env, db': Tables) {
    && db'.markers == db.markers && db'.companies == db.companies
    && db'.subscriptions == rows'
    && if Bills(event) then
         && |db'.invoices| == |db.invoices| + 1
         && db'.invoices[..|db.invoices|] == db.invoices
         && var bill := db'.invoices[|db.invoices|];
         && bill.stripeEventId == event.id
         && bill.row == NextRow(db, env)
         && db'.sequences == db.sequences[env.year := bill.row.number]
       else db'.invoices == db.invoices && db'.sequences == db.sequences
  }

  lemma EffectShape(at: nat, found: Option<Subscription>, event: Event, cfg: Config, now: Instant)
    ensures var effect := EffectAt(at, found, event, cfg, now);
            && (effect.Err? ==> !effect.error.MarkerConflict? && !effect.error.InvoiceConflict?)
            && (effect.Ok? ==> (effect.value.bills.Some? <==> Bills(event)))
  {
  }

  lemma EmittedShape(db: Tables, at: nat, eventId: EventId, amountTTC: Option<int>, cfg: Config, env: Env)
    requires at < |db.subscriptions|
    ensures var e := Emitted(db, at, eventId, amountTTC, cfg, env);
            && (e.Err? ==> !e.error.MarkerConflict?)
            && (e == Err(InvoiceConflict) ==> InvoiceRefused(db.invoices, NextRow(db, env), eventId))
            && (e.Ok? ==> !InvoiceRefused(db.invoices, NextRow(db, env), eventId))
            && (e.Ok? ==>
                  && |e.value.invoices| == |db.invoices| + 1
                  && var bill := e.value.invoices[|db.invoices|];
                  && bill.stripeEventId == eventId
                  && bill.row == NextRow(db, env)
                  && e.value
                      == db.(invoices := db.invoices + [bill], sequences := db.sequences[env.year := bill.row.number]))
  {
  }

  lemma SettledShape(db: Tables, event: Event, effect: Effect, cfg: Config, env: Env)
    requires effect.write.Some? ==> effect.write.value.0 <= |db.subscriptions|
    requires effect.bills.Some? ==> effect.bills.value < |RowsAfter(db.subscriptions, effect)|
    requires effect.bills.Some? <==> Bills(event)
    ensures var a := Settled(db, event, effect, cfg, env);
            && (a.Err? ==> !a.error.MarkerConflict?)
            && (a == Err(InvoiceConflict) ==> InvoiceRefused(db.invoices, NextRow(db, env), event.id))
            && (a.Ok? && Bills(event) ==> !InvoiceRefused(db.invoices, NextRow(db, env), event.id))
            && (a.Ok? ==> Shaped(db, event, RowsAfter(db.subscriptions, effect), env, a.value))
  {
    hide Emitted, InvoiceRefused, ViolatesActiveIndex;
    var db1 := if effect.write.Some? then SaveRow(db, effect.write.value.0, effect.write.value.1) else Ok(db);
    if db1.Ok? && effect.bills.Some? {
      var db2 := if event.Activated? then MarkConverted(db1.value, event.companyId, env.now) else db1.value;
      EmittedShape(db2, effect.bills.value, event.id,
                   if event.PlanChanged? then Some(event.amountTTC) else None, cfg, env);
    }
  }

  /** The same from the handler's read on, whatever was written since. */
  lemma AppliedToShape(db: Tables, at: nat, found: Option<Subscription>, event: Event, cfg: Config, env: Env)
    requires if found.Some? then at < |db.subscriptions| else at == |db.subscriptions|
    ensures var a, effect := AppliedTo(db, at, found, event, cfg, env), EffectAt(at, found, event, cfg, env.now);
            && (a.Err? ==> !a.error.MarkerConflict?)
            && (a == Err(InvoiceConflict) ==> InvoiceRefused(db.invoices, NextRow(db, env), event.id))
            && (a.Ok? && Bills(event) ==> !InvoiceRefused(db.invoices, NextRow(db, env), event.id))
            && (a.Ok? ==> effect.Ok? && Shaped(db, event, RowsAfter(db.subscriptions, effect.value), env, a.value))
            && (a.Ok? && effect.value.write.Some?
                ==> !ViolatesActiveIndex(db.subscriptions, at, effect.value.write.value.1))
  {
    hide Emitted, InvoiceRefused, ViolatesActiveIndex, Shaped;
    EffectShape(at, found, event, cfg, env.now);
    var effect := EffectAt(at, found, event, cfg, env.now);
    if effect.Ok? {
      SettledShape(db, event, effect.value, cfg, env);
    }
  }

  lemma AppliedShape(db: Tables, event: Event, cfg: Config, env: Env)
    ensures var a := Applied(db, event, cfg, env);
            && (a.Err? ==> !a.error.MarkerConflict?)
            && (a == Err(InvoiceConflict) ==> InvoiceRefused(db.invoices, NextRow(db, env), event.id))
            && (a.Ok? && Bills(event) ==> !InvoiceRefused(db.invoices, NextRow(db, env), event.id))
            && (a.Ok? ==> EffectOf(db.subscriptions, event, cfg, env.now).Ok? && Shape(db, event, cfg, env, a.value))
  {
    hide AppliedTo, EffectAt, RowFor, InvoiceRefused, Shaped;
    var at := RowFor(db.subscriptions, event);
    AppliedToShape(db, at, RowAt(db.subscriptions, at), event, cfg, env);
  }

  /** The subscription rows once an event's row is written. */
  function Written(rows: seq<Subscription>, event: Event, cfg: Config, now: Instant): seq<Subscription> {
    var effect := EffectOf(rows, event, cfg, now);
    if effect.Err? then rows else RowsAfter(rows, effect.value)
  }

  lemma StepShape(db: Tables, d: Delivery, cfg: Config)
    ensures if Commits(db, d, cfg) then
              && d.event.id !in db.markers
              && EffectOf(db.subscriptions, d.event, cfg, d.env.now).Ok?
              && Shape(db.(markers := db.markers + {d.event.id}), d.event, cfg, d.env, Step(db, d, cfg))
            else Step(db, d, cfg) == db
  {
    AppliedShape(db.(markers := db.markers + {d.event.id}), d.event, cfg, d.env);
  }

  // ---- Exactly once ----

  lemma {:induction false} CommittedSuffice(db: Tables, ds: seq<Delivery>, cfg: Config)
    ensures After(db, ds, cfg) == After(db, Committed(db, ds, cfg), cfg)
    ensures Committed(db, Committed(db, ds, cfg), cfg) == Committed(db, ds, cfg)
    decreases |ds|
  {
    if ds != [] {
      var db', rest := Step(db, ds[0], cfg), Committed(Step(db, ds[0], cfg), ds[1..], cfg);
      CommittedSuffice(db', ds[1..], cfg);
      StepShape(db, ds[0], cfg);
      if Commits(db, ds[0], cfg) {
        assert ([ds[0]] + rest)[1..] == rest;
      } else {
        assert [] + rest == rest;
      }
    }
  }

  lemma {:induction false} CommittedIdsAreNew(db: Tables, ds: seq<Delivery>, cfg: Config)
    ensures var once := Committed(db, ds, cfg);
            && NoDup(Ids(once))
            && (forall i :: 0 <= i < |once| ==> once[i].event.id !in db.markers)
            && After(db, ds, cfg).markers == db.markers + IdSet(once)
    decreases |ds|
  {
    if ds != [] {
      var d, rest := ds[0], Committed(Step(db, ds[0], cfg), ds[1..], cfg);
      CommittedIdsAreNew(Step(db, d, cfg), ds[1..], cfg);
      StepShape(db, d, cfg);
      if Commits(db, d, cfg) {
        NewIdInFront(d, rest);
      } else {
        assert Committed(db, ds, cfg) == rest;
      }
    }
  }

  ghost function IdSet(ds: seq<Delivery>): set<EventId> {
    set i | 0 <= i < |ds| :: ds[i].event.id
  }

  lemma IdSetInFront(d: Delivery, rest: seq<Delivery>)
    ensures IdSet([d] + rest) == {d.event.id} + IdSet(rest)
  {
    var all := [d] + rest;
    assert all[0] == d;
    assert forall i :: 0 <= i < |rest| ==> all[i + 1] == rest[i];
    assert forall i :: 0 < i < |all| ==> all[i] == rest[i - 1];
  }

  lemma NewIdInFront(d: Delivery, rest: seq<Delivery>)
    requires NoDup(Ids(rest)) && forall i :: 0 <= i < |rest| ==> rest[i].event.id != d.event.id
    ensures NoDup(Ids([d] + rest))
    ensures IdSet([d] + rest) == {d.event.id} + IdSet(rest)
  {
    hide IdSet;
    IdSetInFront(d, rest);
    assert Ids([d] + rest) == [d.event.id] + Ids(rest);
  }

  /**
   However often events are delivered and however often their processing fails, the tables
   end as if each committed event had been delivered once, at its first successful attempt,
   and nothing else had arrived. All those deliveries succeed when they are the only ones.
   */
  lemma ExactlyOnce(db: Tables, ds: seq<Delivery>, cfg: Config)
    ensures var once := Committed(db, ds, cfg);
            && After(db, ds, cfg) == After(db, once, cfg)
            && Committed(db, once, cfg) == once
            && NoDup(Ids(once))
            && (forall i :: 0 <= i < |once| ==> once[i].event.id !in db.markers)
            && After(db, ds, cfg).markers == db.markers + IdSet(once)
  {
    CommittedSuffice(db, ds, cfg);
    CommittedIdsAreNew(db, ds, cfg);
  }

  /** Once committed, every later delivery of the event is answered "already processed". */
  lemma {:induction false} CommittedForGood(db: Tables, ds: seq<Delivery>, event: Event, cfg: Config, env: Env)
    requires event.id in db.markers
    ensures Delivered(After(db, ds, cfg), event, cfg, env) == (After(db, ds, cfg), AlreadyProcessed)
    decreases |ds|
  {
    if ds != [] {
      StepShape(db, ds[0], cfg);
      CommittedForGood(Step(db, ds[0], cfg), ds[1..], event, cfg, env);
    }
  }

  // ---- Invoices ----

  function BilledIds(invoices: seq<Invoice>): seq<EventId> {
    seq(|invoices|, i requires 0 <= i < |invoices| => invoices[i].stripeEventId)
  }

  function BillingIds(ds: seq<Delivery>): seq<EventId> {
    if ds == [] then [] else (if Bills(ds[0].event) then [ds[0].event.id] else []) + BillingIds(ds[1..])
  }

  lemma ShapeBills(db: Tables, event: Event, rows': seq<Subscription>, env: Env, db': Tables)
    requires Shaped(db, event, rows', env, db')
    ensures BilledIds(db'.invoices) == BilledIds(db.invoices) + if Bills(event) then [event.id] else []
  {
    if Bills(event) {
      assert db'.invoices == db'.invoices[..|db.invoices|] + [db'.invoices[|db.invoices|]];
    }
  }

  /** The new invoices are, in order, one for each committed activation, renewal and plan change. */
  lemma {:induction false} InvoicesMatchEvents(db: Tables, ds: seq<Delivery>, cfg: Config)
    ensures BilledIds(After(db, ds, cfg).invoices) == BilledIds(db.invoices) + BillingIds(Committed(db, ds, cfg))
    decreases |ds|
  {
    if ds != [] {
      var d, db' := ds[0], Step(db, ds[0], cfg);
      InvoicesMatchEvents(db', ds[1..], cfg);
      StepShape(db, d, cfg);
      var rest := Committed(db', ds[1..], cfg);
      if Commits(db, d, cfg) {
        ShapeBills(db.(markers := db.markers + {d.event.id}), d.event, db'.subscriptions, d.env, db');
        assert Committed(db, ds, cfg) == [d] + rest && ([d] + rest)[1..] == rest;
      } else {
        assert Committed(db, ds, cfg) == rest;
      }
    }
  }

  function Rows(invoices: seq<Invoice>): seq<Numbering.Row> {
    seq(|invoices|, i requires 0 <= i < |invoices| => invoices[i].row)
  }

  ghost predicate LedgerInv(db: Tables) {
    && Numbering.GapFree(db.sequences, Rows(db.invoices))
    && forall i :: 0 <= i < |db.invoices| ==> db.invoices[i].stripeEventId in db.markers
  }

  lemma ShapeKeepsLedgerInv(db: Tables, event: Event, rows': seq<Subscription>, env: Env, db': Tables)
    requires LedgerInv(db) && event.id in db.markers && Shaped(db, event, rows', env, db')
    ensures LedgerInv(db')
  {
    hide Numbering.GapFree;
    ShapeKeepsGapFree(db, event, rows', env, db');
    if Bills(event) {
      assert db'.invoices == db'.invoices[..|db.invoices|] + [db'.invoices[|db.invoices|]];
    }
  }

  lemma StepKeepsLedgerInv(db: Tables, d: Delivery, cfg: Config)
    requires LedgerInv(db)
    ensures LedgerInv(Step(db, d, cfg))
  {
    StepShape(db, d, cfg);
    var marked := db.(markers := db.markers + {d.event.id});
    assert Rows(marked.invoices) == Rows(db.invoices);
    if Commits(db, d, cfg) {
      ShapeKeepsLedgerInv(marked, d.event, Step(db, d, cfg).subscriptions, d.env, Step(db, d, cfg));
    }
  }

  lemma NextRowIsFree(db: Tables, eventId: EventId, env: Env)
    requires LedgerInv(db) && eventId !in db.markers
    ensures !InvoiceRefused(db.invoices, NextRow(db, env), eventId)
  {
    hide Numbering.GapFree, InvoiceRefused;
    RefusedIffBilled(db, eventId, env);
  }

  lemma SameInvoicesRefused(db: Tables, marked: Tables, eventId: EventId, env: Env)
    requires marked.invoices == db.invoices && marked.sequences == db.sequences
    ensures InvoiceRefused(marked.invoices, NextRow(marked, env), eventId)
        == InvoiceRefused(db.invoices, NextRow(db, env), eventId)
  {
  }

  /** The unique indexes on the invoice table are never what makes a delivery fail. */
  lemma InvoiceIsNeverRefused(db: Tables, d: Delivery, cfg: Config)
    requires LedgerInv(db)
    ensures Delivered(db, d.event, cfg, d.env).1 != Failed(InvoiceConflict)
  {
    hide Applied, LedgerInv, InvoiceRefused, Shape, NextRow;
    if d.event.id !in db.markers {
      SameInvoicesRefused(db, db.(markers := db.markers + {d.event.id}), d.event.id, d.env);
      NextRowIsFree(db, d.event.id, d.env);
      AppliedShape(db.(markers := db.markers + {d.event.id}), d.event, cfg, d.env);
    }
  }

  /** Over every run of deliveries the legal numbering has no gap, and no invoice is ever refused. */
  lemma {:induction false} LedgerStaysSound(db: Tables, ds: seq<Delivery>, next: Delivery, cfg: Config)
    requires LedgerInv(db)
    ensures LedgerInv(After(db, ds, cfg))
    ensures Delivered(After(db, ds, cfg), next.event, cfg, next.env).1 != Failed(InvoiceConflict)
    decreases |ds|
  {
    if ds == [] {
      InvoiceIsNeverRefused(db, next, cfg);
    } else {
      StepKeepsLedgerInv(db, ds[0], cfg);
      LedgerStaysSound(Step(db, ds[0], cfg), ds[1..], next, cfg);
    }
  }

  // ---- Subscription rows ----

  predicate QuotaMatchesPlan(row: Subscription, cfg: Config) {
    ResolveContactQuota(row.plan, cfg) == Ok(row.contactQuota)
  }

  /** The only ways a delivery changes an existing row. */
  ghost predicate RowStep(row: Subscription, row': Subscription, cfg: Config) {
    && row'.companyId == row.companyId
    && (row'.status == row.status || row'.status in Transitions(row.status))
    && (QuotaMatchesPlan(row, cfg) ==> QuotaMatchesPlan(row', cfg))
    && (row.status.Cancelled? ==> row' == row)
    && (row'.status.Cancelled? && !row.status.Cancelled? ==> row'.pastDueSince.None?)
    && (row.status.PastDue? && row'.status.PastDue? ==> row' == row)
  }

  lemma DeliveryStepsRows(db: Tables, d: Delivery, cfg: Config)
    ensures var rows, rows' := db.subscriptions, Step(db, d, cfg).subscriptions;
            && |rows| <= |rows'|
            && (forall i :: 0 <= i < |rows| ==> RowStep(rows[i], rows'[i], cfg))
            && (forall i :: |rows| <= i < |rows'| ==> rows'[i].status.Active? && QuotaMatchesPlan(rows'[i], cfg))
  {
    hide Step, Commits;
    StepShape(db, d, cfg);
  }

  ghost predicate RowsInv(rows: seq<Subscription>, cfg: Config) {
    && (forall i :: 0 <= i < |rows| ==> QuotaMatchesPlan(rows[i], cfg))
    && (forall i :: 0 <= i < |rows| && rows[i].status.Cancelled? ==> rows[i].pastDueSince.None?)
  }

  /** In every run the quota goes with the plan, and a cancelled row is final and no longer past due. */
  lemma {:induction false} RowsStaySound(db: Tables, ds: seq<Delivery>, cfg: Config)
    requires RowsInv(db.subscriptions, cfg)
    ensures RowsInv(After(db, ds, cfg).subscriptions, cfg)
    ensures |db.subscriptions| <= |After(db, ds, cfg).subscriptions|
    ensures forall i :: 0 <= i < |db.subscriptions| && db.subscriptions[i].status.Cancelled?
                        ==> After(db, ds, cfg).subscriptions[i] == db.subscriptions[i]
    decreases |ds|
  {
    if ds != [] {
      DeliveryStepsRows(db, ds[0], cfg);
      RowsStaySound(Step(db, ds[0], cfg), ds[1..], cfg);
    }
  }

  lemma StepKeepsOneLive(db: Tables, d: Delivery, cfg: Config)
    requires OneLivePerCompany(db.subscriptions)
    ensures OneLivePerCompany(Step(db, d, cfg).subscriptions)
  {
    StepShape(db, d, cfg);
  }

  /** Retries of a failed charge do not extend the grace period: only a renewal, activation or cancellation ends it. */
  lemma {:induction false} GracePeriodIsNotExtended(db: Tables, ds: seq<Delivery>, cfg: Config, i: nat)
    requires i < |db.subscriptions| && db.subscriptions[i].status.PastDue?
    requires forall k :: 0 <= k < |ds|
               ==> !ds[k].event.Activated? && !ds[k].event.Renewed? && !ds[k].event.WasCancelled?
    ensures i < |After(db, ds, cfg).subscriptions| && After(db, ds, cfg).subscriptions[i] == db.subscriptions[i]
    decreases |ds|
  {
    if ds != [] {
      StepShape(db, ds[0], cfg);
      assert Step(db, ds[0], cfg).subscriptions[i] == db.subscriptions[i];
      GracePeriodIsNotExtended(Step(db, ds[0], cfg), ds[1..], cfg, i);
    }
  }

  function Renewals(ds: seq<Delivery>, s: ProviderSubscriptionId): nat {
    if ds == [] then 0
    else Renewals(ds[1..], s) + if ds[0].event.Renewed? && ds[0].event.subscriptionId == s then 1 else 0
  }

  /** Row i is the one that provider subscription s pays for. */
  ghost predicate PaidBy(rows: seq<Subscription>, i: nat, s: ProviderSubscriptionId) {
    && i < |rows| && rows[i].externalId == Some(s) && rows[i].endsAt.Some?
    && forall j :: 0 <= j < |rows| && rows[j].externalId == Some(s) ==> j == i
  }

  lemma StepExtendsThePeriod(db: Tables, d: Delivery, cfg: Config, i: nat, s: ProviderSubscriptionId)
    requires PaidBy(db.subscriptions, i, s)
    requires d.event.Activated? ==> d.event.companyId != db.subscriptions[i].companyId && d.event.subscriptionId != s
    ensures var row, rows' := db.subscriptions[i], Step(db, d, cfg).subscriptions;
            && PaidBy(rows', i, s)
            && rows'[i].companyId == row.companyId
            && rows'[i].endsAt.value
                == AddDays(row.endsAt.value, 30 * Renewals(if Commits(db, d, cfg) then [d] else [], s))
  {
    hide Step, Commits;
    StepShape(db, d, cfg);
    var rows := db.subscriptions;
    if Commits(db, d, cfg) && d.event.Activated? {
      var at := FindLatest(rows, ByCompany(d.event.companyId, {Trial, PastDue}));
      assert at != i;
    } else if Commits(db, d, cfg) && d.event.Renewed? {
      var at := FindOne(rows, ByProviderSubscription(d.event.subscriptionId, {Active, PastDue}));
      assert at < |rows| && rows[at].externalId == Some(d.event.subscriptionId);
      assert at == i <==> d.event.subscriptionId == s;
      assert Renewals([d][1..], s) == 0;
    } else {
      assert Renewals([d][1..], s) == 0;
    }
  }

  /**
   Until the company activates again, each committed renewal adds exactly one billing period,
   whatever failures, cancellations and duplicates the run also contains.
   */
  lemma {:induction false} RenewalsExtendThePeriod(db: Tables, ds: seq<Delivery>, cfg: Config,
          i: nat, s: ProviderSubscriptionId)
    requires PaidBy(db.subscriptions, i, s)
    requires forall k :: 0 <= k < |ds| && ds[k].event.Activated?
                         ==> ds[k].event.companyId != db.subscriptions[i].companyId && ds[k].event.subscriptionId != s
    ensures var rows' := After(db, ds, cfg).subscriptions;
            && PaidBy(rows', i, s)
            && rows'[i].endsAt.value
               == AddDays(db.subscriptions[i].endsAt.value, BILLING_PERIOD_DAYS * Renewals(Committed(db, ds, cfg), s))
    decreases |ds|
  {
    if ds != [] {
      var d, db' := ds[0], Step(db, ds[0], cfg);
      StepExtendsThePeriod(db, d, cfg, i, s);
      RenewalsExtendThePeriod(db', ds[1..], cfg, i, s);
      var rest := Committed(db', ds[1..], cfg);
      if Commits(db, d, cfg) {
        assert Committed(db, ds, cfg) == [d] + rest;
        assert ([d] + rest)[1..] == rest && [d][1..] == [];
      } else {
        assert Committed(db, ds, cfg) == rest;
      }
    }
  }

  /** The delivery that activates: its row is paid for by its subscription, for one period from now. */
  lemma ActivationStartsThePeriod(db: Tables, d: Delivery, cfg: Config)
    requires d.event.Activated? && Commits(db, d, cfg)
    requires forall k :: 0 <= k < |db.subscriptions| ==> db.subscriptions[k].externalId != Some(d.event.subscriptionId)
    ensures var at := FindLatest(db.subscriptions, ByCompany(d.event.companyId, {Trial, PastDue}));
            var rows' := Step(db, d, cfg).subscriptions;
            && PaidBy(rows', at, d.event.subscriptionId)
            && rows'[at].companyId == d.event.companyId
            && rows'[at].endsAt == Some(AddDays(d.env.now, BILLING_PERIOD_DAYS))
  {
    hide Step, Commits, ResolveContactQuota;
    StepShape(db, d, cfg);
  }

  /**
   Activated at t by a subscription that no other row has, and renewed k times since, a
   subscription ends at t + 30 (k + 1) days, whatever else was delivered, until its company
   activates again.
   */
  lemma PeriodsSinceActivation(db: Tables, d: Delivery, ds: seq<Delivery>, cfg: Config)
    requires d.event.Activated? && Commits(db, d, cfg)
    requires forall k :: 0 <= k < |db.subscriptions| ==> db.subscriptions[k].externalId != Some(d.event.subscriptionId)
    requires forall k :: 0 <= k < |ds| && ds[k].event.Activated?
                         ==> ds[k].event.companyId != d.event.companyId
                             && ds[k].event.subscriptionId != d.event.subscriptionId
    ensures var at, s := FindLatest(db.subscriptions, ByCompany(d.event.companyId, {Trial, PastDue})),
        d.event.subscriptionId;
            var activated := Step(db, d, cfg);
            var rows' := After(activated, ds, cfg).subscriptions;
            && at < |rows'| && rows'[at].externalId == Some(s)
            && rows'[at].endsAt
               == Some(AddDays(d.env.now, BILLING_PERIOD_DAYS * (Renewals(Committed(activated, ds, cfg), s) + 1)))
  {
    hide Step, Commits, After, Committed;
    ActivationStartsThePeriod(db, d, cfg);
    var at := FindLatest(db.subscriptions, ByCompany(d.event.companyId, {Trial, PastDue}));
    RenewalsExtendThePeriod(Step(db, d, cfg), ds, cfg, at, d.event.subscriptionId);
  }

  // ---- Old markers are purged ----

  datatype Happening = Deliver(d: Delivery) | PurgeMarkers(ids: set<EventId>)

  function Happened(db: Tables, h: Happening, cfg: Config): Tables {
    match h
    case Deliver(d) => Step(db, d, cfg)
    case PurgeMarkers(ids) => db.(markers := db.markers - ids)
  }

  function AfterAll(db: Tables, hs: seq<Happening>, cfg: Config): Tables
    decreases |hs|
  {
    if hs == [] then db else AfterAll(Happened(db, hs[0], cfg), hs[1..], cfg)
  }

  /** With gap-free numbering the invoice indexes refuse an invoice exactly when its event has one. */
  lemma RefusedIffBilled(db: Tables, eventId: EventId, env: Env)
    requires Numbering.GapFree(db.sequences, Rows(db.invoices))
    ensures InvoiceRefused(db.invoices, NextRow(db, env), eventId) <==> eventId in BilledIds(db.invoices)
  {
    hide Numbering.InvoiceNumber, Numbering.GapFree;
    var numbering := Numbering.Db(db.sequences, Rows(db.invoices), map[]);
    Numbering.NextNumberIsFree(numbering, env.year);
    forall i | 0 <= i < |db.invoices|
      ensures Numbering.InvoiceNumber(db.invoices[i].row.year, db.invoices[i].row.number)
              != Numbering.InvoiceNumber(env.year, NextRow(db, env).number)
    {
      assert numbering.invoices[i] == db.invoices[i].row;
    }
    assert forall i :: 0 <= i < |db.invoices| ==> BilledIds(db.invoices)[i] == db.invoices[i].stripeEventId;
  }

  /** An event that has an invoice never applies again, marker or no marker. */
  lemma BilledNeverAppliesAgain(db: Tables, d: Delivery, cfg: Config)
    requires Numbering.GapFree(db.sequences, Rows(db.invoices))
    requires Bills(d.event) && d.event.id in BilledIds(db.invoices)
    ensures !Commits(db, d, cfg) && Step(db, d, cfg) == db
  {
    hide Applied, InvoiceRefused, Numbering.GapFree, Shape, NextRow;
    var marked := db.(markers := db.markers + {d.event.id});
    SameInvoicesRefused(db, marked, d.event.id, d.env);
    RefusedIffBilled(db, d.event.id, d.env);
    AppliedShape(marked, d.event, cfg, d.env);
  }

  ghost predicate BilledOnce(db: Tables) {
    NoDup(BilledIds(db.invoices)) && Numbering.GapFree(db.sequences, Rows(db.invoices))
  }

  lemma HappeningKeepsBilledOnce(db: Tables, h: Happening, cfg: Config)
    requires BilledOnce(db)
    ensures BilledOnce(Happened(db, h, cfg))
    ensures BilledIds(db.invoices) <= BilledIds(Happened(db, h, cfg).invoices)
  {
    hide Numbering.GapFree, Step, Commits, InvoiceRefused, Written;
    if h.Deliver? {
      var d, marked := h.d, db.(markers := db.markers + {h.d.event.id});
      StepShape(db, d, cfg);
      if Commits(db, d, cfg) {
        if Bills(d.event) && d.event.id in BilledIds(db.invoices) {
          BilledNeverAppliesAgain(db, d, cfg);
        }
        ShapeBills(marked, d.event, Step(db, d, cfg).subscriptions, d.env, Step(db, d, cfg));
        ShapeKeepsGapFree(marked, d.event, Step(db, d, cfg).subscriptions, d.env, Step(db, d, cfg));
      }
    }
  }

  lemma ShapeKeepsGapFree(db: Tables, event: Event, rows': seq<Subscription>, env: Env, db': Tables)
    requires Numbering.GapFree(db.sequences, Rows(db.invoices)) && Shaped(db, event, rows', env, db')
    ensures Numbering.GapFree(db'.sequences, Rows(db'.invoices))
  {
    hide Numbering.GapFree;
    if Bills(event) {
      Numbering.GapFreeExtends(db.sequences, Rows(db.invoices), env.year);
      assert db'.invoices == db'.invoices[..|db.invoices|] + [db'.invoices[|db.invoices|]];
      assert Rows(db'.invoices) == Rows(db.invoices) + [NextRow(db, env)];
    } else {
      assert Rows(db'.invoices) == Rows(db.invoices);
    }
  }

  /** Purging markers, at any time and however young, bills nothing twice and leaves no gap. */
  lemma {:induction false} PurgingBillsNothingTwice(db: Tables, hs: seq<Happening>, cfg: Config)
    requires BilledOnce(db)
    ensures BilledOnce(AfterAll(db, hs, cfg))
    ensures BilledIds(db.invoices) <= BilledIds(AfterAll(db, hs, cfg).invoices)
    decreases |hs|
  {
    if hs != [] {
      hide BilledOnce, Happened;
      HappeningKeepsBilledOnce(db, hs[0], cfg);
      PurgingBillsNothingTwice(Happened(db, hs[0], cfg), hs[1..], cfg);
    }
  }

  lemma FindOneIsFirst(rows: seq<Subscription>, query: Query, i: nat)
    requires i <= |rows| && (i < |rows| ==> Matches(rows[i], query))
    requires forall j :: 0 <= j < i ==> !Matches(rows[j], query)
    ensures FindOne(rows, query) == i
  {
  }

  /** Of the rows that an event which bills nothing has written, it writes none again. */
  lemma WrittenTwice(rows: seq<Subscription>, event: Event, cfg: Config, now: Instant, again: Instant)
    requires OneLivePerCompany(rows) && !Bills(event) && EffectOf(rows, event, cfg, now).Ok?
    ensures var rows' := Written(rows, event, cfg, now);
            Written(rows', event, cfg, again) == rows'
  {
    var rows', at := Written(rows, event, cfg, now), RowFor(rows, event);
    if event.PaymentFailed? {
      var query := ByCompany(event.companyId, {Active});
      forall j | 0 <= j < |rows'|
        ensures !Matches(rows'[j], query)
      {
        assert at < |rows| && j != at ==> IsLive(rows[at].status) && (IsLive(rows[j].status)
                                           ==> rows[j].companyId != rows[at].companyId);
      }
      FindOneIsFirst(rows', query, |rows'|);
    } else if !event.Ignored? {
      var query := ByProviderSubscription(event.subscriptionId, ANY_STATUS);
      assert forall j :: 0 <= j < |rows| ==> Matches(rows'[j], query) == Matches(rows[j], query);
      FindOneIsFirst(rows', query, at);
    }
  }

  /**
   An event whose marker is purged right after it was processed changes nothing when it is delivered again:
   its invoice stops it, or its row is already where it would put it.
   */
  lemma RedeliveredAtOnceChangesNothing(db: Tables, d: Delivery, again: Delivery, cfg: Config)
    requires Commits(db, d, cfg) && again.event == d.event
    requires OneLivePerCompany(db.subscriptions) && Numbering.GapFree(db.sequences, Rows(db.invoices))
    ensures var purged := Happened(Step(db, d, cfg), PurgeMarkers({d.event.id}), cfg);
            var db' := Step(purged, again, cfg);
            db'.subscriptions == purged.subscriptions && db'.invoices == purged.invoices
  {
    hide Numbering.GapFree, Step, Commits, Written, InvoiceRefused, EffectOf, OneLivePerCompany;
    var event, db1 := d.event, Step(db, d, cfg);
    var marked, purged := db.(markers := db.markers + {event.id}), db1.(markers := db1.markers - {event.id});
    StepShape(db, d, cfg);
    StepShape(purged, again, cfg);
    if Bills(event) {
      ShapeBills(marked, event, db1.subscriptions, d.env, db1);
      ShapeKeepsGapFree(marked, event, db1.subscriptions, d.env, db1);
      assert BilledIds(purged.invoices)[|db.invoices|] == event.id;
      BilledNeverAppliesAgain(purged, again, cfg);
    } else {
      WrittenTwice(db.subscriptions, event, cfg, d.env.now, again.env.now);
    }
  }

  /**
   It does apply again once something else came between: a failed charge, the renewal that made up for
   it, and the failure notice once more without its marker leave a row past due that is paid for.
   */
  lemma PurgedFailureNoticeDemotesAgain(db: Tables, failure: Delivery, renewal: Delivery, again: Delivery,
          cfg: Config, i: nat)
    requires failure.event.WentPastDue? && again.event == failure.event && again.env.auditOk
    requires renewal.event.Renewed? && renewal.event.subscriptionId == failure.event.subscriptionId
    requires failure.event.id != renewal.event.id
    requires PaidBy(db.subscriptions, i, failure.event.subscriptionId)
    requires Commits(db, failure, cfg) && Commits(Step(db, failure, cfg), renewal, cfg)
    ensures var end := db.subscriptions[i].endsAt.value;
            var hs := [Deliver(failure), Deliver(renewal), PurgeMarkers({failure.event.id}), Deliver(again)];
            var rows' := AfterAll(db, hs, cfg).subscriptions;
            && i < |rows'| && rows'[i].status.PastDue? && rows'[i].pastDueSince == Some(again.env.now)
            && rows'[i].endsAt == Some(AddDays(end, BILLING_PERIOD_DAYS))
  {
    hide Step, Commits;
    var s, db1 := failure.event.subscriptionId, Step(db, failure, cfg);
    var db2 := Step(db1, renewal, cfg);
    var purged := db2.(markers := db2.markers - {failure.event.id});
    StepExtendsThePeriod(db, failure, cfg, i, s);
    StepExtendsThePeriod(db1, renewal, cfg, i, s);
    RenewalCounts(failure, renewal, s);
    RenewedIsActive(db1, renewal, cfg, i, s);
    FailureDemotes(purged, again, cfg, i, s);
    FourHappenings(db, failure, renewal, again, cfg);
  }

  lemma RenewalCounts(failure: Delivery, renewal: Delivery, s: ProviderSubscriptionId)
    requires failure.event.WentPastDue? && renewal.event.Renewed? && renewal.event.subscriptionId == s
    ensures Renewals([failure], s) == 0 && Renewals([renewal], s) == 1
  {
    assert [failure][1..] == [] && [renewal][1..] == [];
  }

  lemma RenewedIsActive(db: Tables, d: Delivery, cfg: Config, i: nat, s: ProviderSubscriptionId)
    requires PaidBy(db.subscriptions, i, s) && Commits(db, d, cfg) && d.event.Renewed? && d.event.subscriptionId == s
    ensures i < |Step(db, d, cfg).subscriptions| && Step(db, d, cfg).subscriptions[i].status.Active?
  {
    hide Step, Commits;
    StepShape(db, d, cfg);
    assert RowFor(db.subscriptions, d.event) == i;
  }

  lemma FailureDemotes(db: Tables, d: Delivery, cfg: Config, i: nat, s: ProviderSubscriptionId)
    requires PaidBy(db.subscriptions, i, s) && db.subscriptions[i].status.Active?
    requires d.event.WentPastDue? && d.event.subscriptionId == s && d.env.auditOk && d.event.id !in db.markers
    ensures Step(db, d, cfg).subscriptions
            == db.subscriptions[i := db.subscriptions[i].(status := PastDue, pastDueSince := Some(d.env.now))]
  {
    FindOneIsFirst(db.subscriptions, ByProviderSubscription(s, ANY_STATUS), i);
  }

  lemma FourHappenings(db: Tables, failure: Delivery, renewal: Delivery, again: Delivery, cfg: Config)
    ensures var hs := [Deliver(failure), Deliver(renewal), PurgeMarkers({failure.event.id}), Deliver(again)];
            var db2 := Step(Step(db, failure, cfg), renewal, cfg);
            AfterAll(db, hs, cfg) == Step(db2.(markers := db2.markers - {failure.event.id}), again, cfg)
  {
    hide Step;
    var db1 := Step(db, failure, cfg);
    var db2 := Step(db1, renewal, cfg);
    HappensFirst(db, Deliver(failure), [Deliver(renewal), PurgeMarkers({failure.event.id}), Deliver(again)], cfg);
    HappensFirst(db1, Deliver(renewal), [PurgeMarkers({failure.event.id}), Deliver(again)], cfg);
    HappensFirst(db2, PurgeMarkers({failure.event.id}), [Deliver(again)], cfg);
    HappensFirst(db2.(markers := db2.markers - {failure.event.id}), Deliver(again), [], cfg);
  }

  lemma HappensFirst(db: Tables, h: Happening, rest: seq<Happening>, cfg: Config)
    ensures AfterAll(db, [h] + rest, cfg) == AfterAll(Happened(db, h, cfg), rest, cfg)
  {
    assert ([h] + rest)[1..] == rest;
  }
}
