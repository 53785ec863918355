/** Runs in which charge, invoice, plan, quota and status part: each is reached from the empty tables. */
module ReachedRuns {
  import opened Common
  import opened BillingTypes
  import opened PaymentWebhook
  import opened SubscriptionCheckout
  import opened SubscriptionAdmin
  import opened RowRequests
  import opened ServiceRuns
  import LedgerRuns
  import ChargedRuns
  import SubscriptionRuns
  import Numbering = InvoiceNumbering
  import Tax

  ghost predicate Reached(w: World, cfg: Config) {
    exists run, steps :: Run(run, steps, cfg) && run[|steps|] == w
  }

  lemma OneMoreStep(w: World, step: Step, w': World, cfg: Config)
    requires Reached(w, cfg) && Next(w, step, w', cfg)
    ensures Reached(w', cfg)
  {
    hide Next;
    var run, steps :| Run(run, steps, cfg) && run[|steps|] == w;
    var longer, taken := run + [w'], steps + [step];
    assert longer[|taken|] == w';
    assert Run(longer, taken, cfg);
  }

  // ---- Steps as functions ----

  function Begun(w: World, r: RequestId, op: Operation): World {
    w.(requests := w.requests[r := Began(w.db.subscriptions, op)])
  }

  function AfterTelling(w: World, r: RequestId, cfg: Config): World
    requires r in w.requests && TellsProvider(w.requests[r].op)
    requires w.requests[r].read.Some? && w.requests[r].read.value.externalId.Some?
  {
    w.(account := ToldAccount(w.account, w.requests[r], cfg), requests := w.requests[r := w.requests[r].(told := true)])
  }

  function AfterSaving(w: World, r: RequestId, cfg: Config): World
    requires r in w.requests && WellPlaced(w.requests[r], w.db.subscriptions)
  {
    w.(db := Saved(w.db, w.requests[r], cfg), requests := w.requests - {r})
  }

  function AfterNotice(w: World, event: Event): World {
    w.(emitted := w.emitted[event.id := Emission(event, 0)])
  }

  lemma EndedAgain(requests: map<RequestId, Request>, r: RequestId, q: Request)
    requires r !in requests
    ensures requests[r := q] - {r} == requests
  {
  }

  /** A request that nothing comes between, from its read to its save. */
  lemma WholeRequest(w: World, r: RequestId, op: Operation, q: Request, cfg: Config)
    requires Reached(w, cfg) && r !in w.requests && !TellsProvider(op) && !op.Process?
    requires Proceeds(w.db.subscriptions, w.db.companies, op, cfg)
    requires q == Began(w.db.subscriptions, op) && WellPlaced(q, w.db.subscriptions)
    ensures Reached(w.(db := Saved(w.db, q, cfg)), cfg)
  {
    hide Proceeds, Picks, Saved, Reached;
    var begun := Begun(w, r, op);
    OneMoreStep(w, Begin(r, op), begun, cfg);
    OneMoreStep(begun, Save(r), AfterSaving(begun, r, cfg), cfg);
    EndedAgain(w.requests, r, q);
  }

  /** The same for a request that tells the provider. */
  lemma WholeToldRequest(w: World, r: RequestId, op: Operation, q: Request, cfg: Config)
    requires Reached(w, cfg) && r !in w.requests && TellsProvider(op)
    requires Proceeds(w.db.subscriptions, w.db.companies, op, cfg)
    requires q == Began(w.db.subscriptions, op) && WellPlaced(q, w.db.subscriptions)
    requires q.read.Some? && q.read.value.externalId.Some?
    ensures Reached(w.(db := Saved(w.db, q, cfg), account := ToldAccount(w.account, q, cfg)), cfg)
  {
    hide Proceeds, Picks, Saved, Reached, ToldAccount;
    var begun := Begun(w, r, op);
    OneMoreStep(w, Begin(r, op), begun, cfg);
    var told := AfterTelling(begun, r, cfg);
    OneMoreStep(begun, Tell(r), told, cfg);
    ToldSavesTheSame(w.db, q, cfg);
    EndedAgain(w.requests, r, q.(told := true));
    OneMoreStep(told, Save(r), w.(db := Saved(w.db, q, cfg), account := told.account), cfg);
  }

  lemma ToldSavesTheSame(db: Tables, q: Request, cfg: Config)
    requires WellPlaced(q, db.subscriptions)
    ensures Saved(db, q.(told := true), cfg) == Saved(db, q, cfg)
  {
  }

  /** What a save that the index lets through leaves. */
  lemma SavedRow(db: Tables, q: Request, cfg: Config)
    requires !q.op.Process? && q.read.Some? && |db.subscriptions| == 1 && q.at == 0
    ensures Saved(db, q, cfg) == db.(subscriptions := [Writes(db.subscriptions, q, cfg)])
  {
  }

  predicate NoneProcessed(requests: map<RequestId, Request>) {
    forall r :: r in requests ==> !requests[r].op.Process?
  }

  /** A delivery that nothing comes between. */
  lemma WholeDelivery(w: World, r: RequestId, event: Event, env: Env, cfg: Config)
    requires Reached(w, cfg) && r !in w.requests && NoneProcessed(w.requests)
    requires event.id in w.emitted && w.emitted[event.id].event == event && event.id !in w.db.markers
    requires Delivered(w.db, event, cfg, env).1.Processed?
    ensures Reached(w.(db := Delivered(w.db, event, cfg, env).0), cfg)
  {
    hide Delivered, Reached, Proceeds, Began, Saved, GoesThrough;
    var op := Process(event, env);
    DeliveryAlone(w.db, event, cfg, env);
    var begun := Begun(w, r, op);
    OneMoreStep(w, Begin(r, op), begun, cfg);
    BeganWith(w.db.subscriptions, op);
    OneMoreStep(begun, Save(r), AfterSaving(begun, r, cfg), cfg);
    EndedAgain(w.requests, r, begun.requests[r]);
  }

  lemma BeganWith(rows: seq<Subscription>, op: Operation)
    ensures Began(rows, op).op == op && !Began(rows, op).told
  {
  }

  lemma WholeNotice(w: World, r: RequestId, event: Event, env: Env, cfg: Config)
    requires Reached(w, cfg) && event.id !in w.emitted && !event.Activated? && !event.Renewed?
    requires r !in w.requests && NoneProcessed(w.requests) && event.id !in w.db.markers
    requires Delivered(w.db, event, cfg, env).1.Processed?
    ensures Reached(AfterNotice(w, event).(db := Delivered(w.db, event, cfg, env).0), cfg)
  {
    hide Delivered, Reached;
    OneMoreStep(w, NotifyOther(event), AfterNotice(w, event), cfg);
    WholeDelivery(AfterNotice(w, event), r, event, env, cfg);
  }

  // ---- A company that subscribed ----

  const CFG: Config :=
    Config(map[Starter := 15, Growth := 60, Scale := 200], map[Starter := 990, Growth := 2900, Scale := 6900])
  const CALM: Env := Env(0, 2026, true, true)
  const REACHABLE: Outside := Outside(true, true)
  const ROW: Subscription := Subscription(0, Starter, Active, Some(7), 0, Some(30 * DAY_MS), 15, 0, None, false)

  function Start(): World {
    EMPTY.(db := EMPTY.db.(companies := {0}))
  }

  function Opened(): World {
    Start().(account := Account([Session(0, Starter, 118800)], map[], {}))
  }

  function Paid(): World {
    Opened().(account := Opened().account.(unitAmounts := map[7 := 118800]), completed := {0},
              emitted := map[1 := Emission(Activated(1, 7, 0, Starter), 118800)])
  }

  function Subscribed(): World {
    Paid().(db := Tables(
              {1}, [ROW], [Invoice(0, 0, Numbering.Row(2026, 1), Tax.VatBreakdown(99000, 19800, 118800), 0, 1)],
              map[2026 := 1], {0}, map[]))
  }

  lemma StartIsReached()
    ensures Reached(Start(), CFG)
  {
    var run, steps: seq<Step> := [Start()], [];
    assert Run(run, steps, CFG) && run[|steps|] == Start();
  }

  lemma PaidIsReached()
    ensures Reached(Paid(), CFG)
  {
    StartIsReached();
    hide Reached;
    OneMoreStep(Start(), OpenCheckout(0, Starter, REACHABLE), Opened(), CFG);
    assert map[][1 := Emission(Activated(1, 7, 0, Starter), 118800)] == Paid().emitted;
    OneMoreStep(Opened(), CompleteSession(0, 7, 1), Paid(), CFG);
  }

  lemma FirstActivation()
    ensures Delivered(Paid().db, Activated(1, 7, 0, Starter), CFG, CALM) == (Subscribed().db, Processed)
  {
    var marked := Paid().db.(markers := {1});
    var effect := EffectOf([], Activated(1, 7, 0, Starter), CFG, 0);
    assert effect.Ok? && effect.value.write == Some((0, ROW));
    assert SaveRow(marked, 0, ROW).Ok?;
    var saved := SaveRow(marked, 0, ROW).value;
    assert saved.subscriptions == [ROW];
    assert AmountsDue(Starter, None, CFG) == Ok(Tax.VatBreakdown(99000, 19800, 118800));
    assert map[][2026 := 1] == Subscribed().db.sequences;
    assert [] + Subscribed().db.invoices == Subscribed().db.invoices;
    assert Emitted(saved, 0, 1, None, CFG, CALM) == Ok(Subscribed().db);
    assert Paid().db.markers + {1} == {1};
  }

  lemma SubscribedIsReached()
    ensures Reached(Subscribed(), CFG)
  {
    PaidIsReached();
    FirstActivation();
    hide Reached, Delivered;
    WholeDelivery(Paid(), 0, Activated(1, 7, 0, Starter), CALM, CFG);
    assert Paid().(db := Subscribed().db) == Subscribed();
  }

  // ---- Two plan changes that overlap ----

  const TO_GROWTH: Operation := ChangePlan(0, Growth)
  const TO_SCALE: Operation := ChangePlan(0, Scale)

  function BothTold(): World {
    Subscribed().(account := Subscribed().account.(unitAmounts := map[7 := 828000]),
                  requests := map[0 := Request(TO_GROWTH, 0, Some(ROW), true),
                                  1 := Request(TO_SCALE, 0, Some(ROW), true)])
  }

  lemma BothToldIsReached()
    ensures Reached(BothTold(), CFG)
  {
    SubscribedIsReached();
    hide Reached;
    var w0 := Subscribed();
    var growth, scale := Request(TO_GROWTH, 0, Some(ROW), false), Request(TO_SCALE, 0, Some(ROW), false);
    assert Began([ROW], TO_GROWTH) == growth && Began([ROW], TO_SCALE) == scale;
    var w1 := w0.(requests := map[0 := growth]);
    OneMoreStep(w0, Begin(0, TO_GROWTH), w1, CFG);
    var w2 := w0.(requests := map[0 := growth, 1 := scale]);
    OneMoreStep(w1, Begin(1, TO_SCALE), w2, CFG);
    BothAreTold(w2);
  }

  lemma BothAreTold(w: World)
    requires w == Subscribed().(requests := map[0 := Request(TO_GROWTH, 0, Some(ROW), false),
                                                1 := Request(TO_SCALE, 0, Some(ROW), false)])
    requires Reached(w, CFG)
    ensures Reached(BothTold(), CFG)
  {
    hide Reached;
    var once := AfterTelling(w, 0, CFG);
    OneMoreStep(w, Tell(0), once, CFG);
    assert once.account.unitAmounts == map[7 := 348000];
    OneMoreStep(once, Tell(1), BothTold(), CFG);
  }

  /** The provider is told Growth, then Scale; saved are Scale, then Growth. */
  lemma OverlappingPlanChanges() returns (w: World)
    ensures Reached(w, CFG) && w.requests == map[]
    ensures w.db.subscriptions == [ROW.(plan := Growth, contactQuota := 60)]
    ensures w.account.unitAmounts == map[7 := 828000] && !ChargedRuns.CostsAs(Growth, 7, w.account, CFG)
  {
    BothToldIsReached();
    hide Reached;
    var scaled := AfterSaving(BothTold(), 1, CFG);
    OneMoreStep(BothTold(), Save(1), scaled, CFG);
    assert scaled.db.subscriptions == [ROW.(plan := Scale, contactQuota := 200)];
    w := AfterSaving(scaled, 0, CFG);
    OneMoreStep(scaled, Save(0), w, CFG);
    assert w.requests == map[];
  }

  // ---- What the staff can do ----

  /** A plan assigned by the staff is not told to the provider, nor need its quota be the plan's. */
  lemma AssignedPlanIsNotCharged() returns (w: World)
    ensures Reached(w, CFG) && w.requests == map[]
    ensures |w.db.subscriptions| == 1 && w.db.subscriptions[0].plan == Growth
        && w.db.subscriptions[0].externalId == Some(7)
    ensures !ChargedRuns.CostsAs(Growth, 7, w.account, CFG)
    ensures w.db.subscriptions[0].contactQuota == 500 && !LedgerRuns.QuotaMatchesPlan(w.db.subscriptions[0], CFG)
  {
    SubscribedIsReached();
    hide Reached;
    var op := AssignPlan(0, Growth, Some(500), 0);
    var q := Request(op, 0, Some(ROW), false);
    WholeRequest(Subscribed(), 0, op, q, CFG);
    w := Subscribed().(db := Saved(Subscribed().db, q, CFG));
  }

  /** A cancelled row is cancelled again, and ends anew. */
  lemma CancelledRowIsRewritten() returns (before: World, after: World)
    ensures Reached(before, CFG) && Reached(after, CFG)
    ensures before.db.subscriptions == [Ended(ROW, 5)] && after.db.subscriptions == [Ended(ROW, 6)]
  {
    SubscribedIsReached();
    hide Reached;
    var q := Request(CancelNow(0, 5), 0, Some(ROW), false);
    WholeRequest(Subscribed(), 0, q.op, q, CFG);
    SavedRow(Subscribed().db, q, CFG);
    before := Subscribed().(db := Saved(Subscribed().db, q, CFG));
    assert before.db.subscriptions == [Ended(ROW, 5)];
    var again := Request(CancelNow(0, 6), 0, Some(Ended(ROW, 5)), false);
    WholeRequest(before, 0, again.op, again, CFG);
    SavedRow(before.db, again, CFG);
    after := before.(db := Saved(before.db, again, CFG));
  }

  const LATE: Subscription := ROW.(status := PastDue, pastDueSince := Some(0))

  lemma FailureIsNoted(db: Tables, row: Subscription, late: Subscription)
    requires db == Subscribed().db.(subscriptions := [row]) && row.externalId == Some(7) && row.status.Active?
    requires late == row.(status := PastDue, pastDueSince := Some(0))
    ensures Delivered(db, WentPastDue(3, 7), CFG, CALM)
            == (db.(markers := {1, 3}, subscriptions := [late]), Processed)
  {
    var effect := EffectOf([row], WentPastDue(3, 7), CFG, 0);
    assert effect.Ok? && effect.value.write == Some((0, late));
    assert {1} + {3} == {1, 3};
    assert [row][0 := late] == [late];
  }

  function Failed(): World {
    AfterNotice(Subscribed(), WentPastDue(3, 7)).(db := Subscribed().db.(markers := {1, 3}, subscriptions := [LATE]))
  }

  lemma FirstFailure()
    ensures Reached(Failed(), CFG)
  {
    SubscribedIsReached();
    hide Reached;
    FailureIsNoted(Subscribed().db, ROW, LATE);
    WholeNotice(Subscribed(), 0, WentPastDue(3, 7), CALM, CFG);
  }

  /** A row cancelled by the staff while past due keeps its date. */
  lemma CancelledRowIsPastDue() returns (w: World)
    ensures Reached(w, CFG) && w.db.subscriptions == [Ended(LATE, 5)]
    ensures !SubscriptionRuns.NoneCancelledPastDue(w)
  {
    FirstFailure();
    hide Reached;
    var q := Request(CancelNow(0, 5), 0, Some(LATE), false);
    WholeRequest(Failed(), 0, q.op, q, CFG);
    SavedRow(Failed().db, q, CFG);
    w := Failed().(db := Saved(Failed().db, q, CFG));
    assert w.db.subscriptions[0] == Ended(LATE, 5);
  }

  // ---- Saves that come late ----

  function Told(): World {
    Subscribed().(account := Subscribed().account.(ending := {7}),
                  requests := map[0 := Request(CancelAtPeriodEnd(0), 0, Some(ROW), true)])
  }

  lemma CancellationIsTold()
    ensures Reached(Told(), CFG)
  {
    SubscribedIsReached();
    hide Reached;
    var op := CancelAtPeriodEnd(0);
    assert Began([ROW], op) == Request(op, 0, Some(ROW), false);
    var begun := Begun(Subscribed(), 0, op);
    OneMoreStep(Subscribed(), Begin(0, op), begun, CFG);
    assert AfterTelling(begun, 0, CFG).requests == Told().requests;
    OneMoreStep(begun, Tell(0), Told(), CFG);
  }

  lemma CancellationIsProcessed(db: Tables)
    requires db == Subscribed().db
    ensures var (db', outcome) := Delivered(db, WasCancelled(3, 7), CFG, CALM);
            outcome.Processed? && db'.subscriptions == [ROW.(status := Cancelled)]
  {
    var effect := EffectOf([ROW], WasCancelled(3, 7), CFG, 0);
    assert effect.Ok? && effect.value.write == Some((0, ROW.(status := Cancelled)));
  }

  /**
   The provider's deletion is processed between the provider call and the save of a cancellation:
   the row is active again.
   */
  lemma LateSaveRevivesRow() returns (cancelled: World, w: World)
    ensures Reached(cancelled, CFG) && cancelled.db.subscriptions == [ROW.(status := Cancelled)]
    ensures Reached(w, CFG) && w.db.subscriptions == [ROW.(cancelAtPeriodEnd := true)]
  {
    var event := WasCancelled(3, 7);
    CancellationIsTold();
    hide Reached;
    CancellationIsProcessed(Told().db);
    WholeNotice(Told(), 1, event, CALM, CFG);
    cancelled := AfterNotice(Told(), event).(db := Delivered(Told().db, event, CFG, CALM).0);
    w := AfterSaving(cancelled, 0, CFG);
    SavedRow(cancelled.db, cancelled.requests[0], CFG);
    OneMoreStep(cancelled, Save(0), w, CFG);
  }

  const TRIAL: Subscription := Subscription(0, Starter, Trial, None, 0, Some(14 * DAY_MS), 15, 0, None, false)

  const REDEEM: Operation := RedeemTrial(0, Growth, 9)

  function Redeeming(): World {
    Start().(db := Start().db.(subscriptions := [TRIAL]), requests := map[0 := Request(REDEEM, 0, Some(TRIAL), false)])
  }

  lemma RedeemingIsReached()
    ensures Reached(Redeeming(), CFG)
  {
    StartIsReached();
    hide Reached;
    var trial := WithRows(Start(), [TRIAL]);
    assert [] + [TRIAL] == [TRIAL];
    OneMoreStep(Start(), StartTrial(TRIAL), trial, CFG);
    assert Began([TRIAL], REDEEM) == Request(REDEEM, 0, Some(TRIAL), false);
    OneMoreStep(trial, Begin(0, REDEEM), Redeeming(), CFG);
  }

  /** A trial code is redeemed around an activation: what was paid for is a trial again, unknown to the provider. */
  lemma LateRedemptionUndoesActivation() returns (w: World)
    ensures Reached(w, CFG)
    ensures w.db.subscriptions == [TRIAL.(plan := Growth, contactQuota := 60, endsAt := Some(9))]
    ensures 1 in w.db.markers && 1 in w.emitted && w.emitted[1] == Emission(Activated(1, 7, 0, Starter), 118800)
  {
    RedeemingIsReached();
    hide Reached, Delivered;
    var offered := Redeeming().(account := Opened().account);
    OneMoreStep(Redeeming(), OpenCheckout(0, Starter, REACHABLE), offered, CFG);
    var paid := offered.(account := Paid().account, completed := {0}, emitted := Paid().emitted);
    assert map[][1 := Emission(Activated(1, 7, 0, Starter), 118800)] == Paid().emitted;
    OneMoreStep(offered, CompleteSession(0, 7, 1), paid, CFG);
    TrialIsActivated(paid.db);
    WholeDelivery(paid, 1, Activated(1, 7, 0, Starter), CALM, CFG);
    var active := paid.(db := Subscribed().db);
    w := AfterSaving(active, 0, CFG);
    SavedRow(active.db, active.requests[0], CFG);
    OneMoreStep(active, Save(0), w, CFG);
  }

  lemma TrialIsActivated(db: Tables)
    requires db == Start().db.(subscriptions := [TRIAL])
    ensures Delivered(db, Activated(1, 7, 0, Starter), CFG, CALM) == (Subscribed().db, Processed)
  {
    var marked := db.(markers := {1});
    var effect := EffectOf([TRIAL], Activated(1, 7, 0, Starter), CFG, 0);
    assert effect.Ok? && effect.value.write == Some((0, ROW));
    assert SaveRow(marked, 0, ROW).Ok?;
    var saved := SaveRow(marked, 0, ROW).value;
    assert saved.subscriptions == [ROW];
    assert AmountsDue(Starter, None, CFG) == Ok(Tax.VatBreakdown(99000, 19800, 118800));
    assert map[][2026 := 1] == Subscribed().db.sequences;
    assert [] + Subscribed().db.invoices == Subscribed().db.invoices;
    assert Emitted(saved, 0, 1, None, CFG, CALM) == Ok(Subscribed().db);
    assert db.markers + {1} == {1};
  }

  // ---- A second invoice ----

  /** Nothing but an invoice for the same event would stop the second number of the year. */
  lemma SecondInvoice(db: Tables, at: nat, eventId: EventId, plan: Plan, amounts: Tax.VatBreakdown)
    requires db.invoices == Subscribed().db.invoices && db.sequences == Subscribed().db.sequences
    requires at < |db.subscriptions| && db.subscriptions[at].plan == plan && eventId != 1
    requires AmountsDue(plan, None, CFG) == Ok(amounts)
    ensures Emitted(db, at, eventId, None, CFG, CALM)
            == Ok(db.(sequences := map[2026 := 2],
                      invoices := db.invoices
                          + [Invoice(at, db.subscriptions[at].companyId, Numbering.Row(2026, 2), amounts, 0, eventId)]))
  {
    hide Numbering.InvoiceNumber, AmountsDue;
    if Numbering.InvoiceNumber(2026, 1) == Numbering.InvoiceNumber(2026, 2) {
      Numbering.InvoiceNumberIsInjective(2026, 1, 2026, 2);
    }
    assert !InvoiceRefused(db.invoices, Numbering.Row(2026, 2), eventId);
    assert map[2026 := 1][2026 := 2] == map[2026 := 2];
  }

  const GROWN: Subscription := ROW.(plan := Growth, contactQuota := 60)

  lemma RenewalBills(db: Tables, row: Subscription)
    requires db == Subscribed().db.(subscriptions := [GROWN]) && row == GROWN.(endsAt := Some(60 * DAY_MS))
    ensures var (db', outcome) := Delivered(db, Renewed(2, 7), CFG, CALM);
            && outcome.Processed? && db'.subscriptions == [row]
            && |db'.invoices| == 2 && db'.invoices[1].amounts.amountTTC == 348000
  {
    var marked := db.(markers := {1, 2});
    assert db.markers + {2} == {1, 2};
    var effect := EffectOf([GROWN], Renewed(2, 7), CFG, 0);
    assert effect.Ok? && effect.value.write == Some((0, row)) && effect.value.bills == Some(0);
    assert SaveRow(marked, 0, row).Ok?;
    var saved := SaveRow(marked, 0, row).value;
    assert saved.subscriptions == [row];
    assert AmountsDue(Growth, None, CFG) == Ok(Tax.VatBreakdown(290000, 58000, 348000));
    SecondInvoice(saved, 0, 2, Growth, Tax.VatBreakdown(290000, 58000, 348000));
  }

  /** With the default prices: 1188 MAD are collected for the renewal, its invoice states 3480 MAD. */
  lemma RenewalInvoiceCanMissTheCharge() returns (w: World, env: Env)
    ensures Reached(w, CFG) && 2 in w.emitted && w.emitted[2] == Emission(Renewed(2, 7), 118800)
    ensures var (db', outcome) := Delivered(w.db, w.emitted[2].event, CFG, env);
            outcome.Processed? && |db'.invoices| == 2 && db'.invoices[1].amounts.amountTTC == 348000
  {
    SubscribedIsReached();
    hide Reached;
    var charged := Subscribed().(emitted := Subscribed().emitted[2 := Emission(Renewed(2, 7), 118800)]);
    OneMoreStep(Subscribed(), ChargeRenewal(7, 2), charged, CFG);
    var q := Request(TO_GROWTH, 0, Some(ROW), false);
    WholeToldRequest(charged, 0, TO_GROWTH, q, CFG);
    SavedRow(charged.db, q, CFG);
    w := charged.(db := Saved(charged.db, q, CFG), account := ToldAccount(charged.account, q, CFG));
    assert w.db.subscriptions == [GROWN];
    env := CALM;
    hide Delivered;
    RenewalBills(w.db, GROWN.(endsAt := Some(60 * DAY_MS)));
  }

  // ---- Deliveries that come late ----

  const RENEWAL: Request := Request(Process(Renewed(2, 7), CALM), 0, Some(ROW), false)
  const RENEWED: Subscription := ROW.(endsAt := Some(60 * DAY_MS))

  /** The renewal is charged, and its delivery has read the row. */
  function Renewing(): World {
    Subscribed().(emitted := Subscribed().emitted[2 := Emission(Renewed(2, 7), 118800)], requests := map[1 := RENEWAL])
  }

  lemma RenewingIsReached()
    ensures Reached(Renewing(), CFG)
  {
    SubscribedIsReached();
    hide Reached;
    var charged := Renewing().(requests := map[]);
    OneMoreStep(Subscribed(), ChargeRenewal(7, 2), charged, CFG);
    RowsSought([ROW], Renewed(2, 7));
    assert Began([ROW], RENEWAL.op) == RENEWAL;
    assert map[][1 := RENEWAL] == map[1 := RENEWAL];
    OneMoreStep(charged, Begin(1, RENEWAL.op), Renewing(), CFG);
  }

  /** Whatever was written to the row since, the delivery saves the row it read, one period longer. */
  lemma RenewalSaves(db: Tables)
    requires |db.subscriptions| == 1
    requires db == Subscribed().db.(subscriptions := db.subscriptions)
    ensures GoesThrough(db, RENEWAL, CFG) && Saved(db, RENEWAL, CFG).subscriptions == [RENEWED]
    ensures Saved(db, RENEWAL, CFG).markers == {1, 2} && |Saved(db, RENEWAL, CFG).invoices| == 2
    ensures Saved(db, RENEWAL, CFG).invoices[1].stripeEventId == 2
  {
    hide InvoiceRefused;
    var marked := db.(markers := {1, 2});
    assert db.markers + {2} == {1, 2};
    var effect := EffectAt(0, Some(ROW), Renewed(2, 7), CFG, 0);
    assert effect.Ok? && effect.value.write == Some((0, RENEWED)) && effect.value.bills == Some(0);
    assert SaveRow(marked, 0, RENEWED).Ok?;
    var saved := SaveRow(marked, 0, RENEWED).value;
    assert saved.subscriptions == [RENEWED];
    assert AmountsDue(Starter, None, CFG) == Ok(Tax.VatBreakdown(99000, 19800, 118800));
    SecondInvoice(saved, 0, 2, Starter, Tax.VatBreakdown(99000, 19800, 118800));
  }

  /** Cancelled by the staff while a renewal is processed, the row is active again once that commits. */
  lemma LateRenewalRevivesRow() returns (cancelled: World, w: World)
    ensures Reached(cancelled, CFG) && cancelled.db.subscriptions == [Ended(ROW, 5)]
    ensures Reached(w, CFG) && w.db.subscriptions == [RENEWED] && RENEWED.status.Active?
  {
    RenewingIsReached();
    hide Reached;
    var q := Request(CancelNow(0, 5), 0, Some(ROW), false);
    WholeRequest(Renewing(), 0, q.op, q, CFG);
    SavedRow(Renewing().db, q, CFG);
    cancelled := Renewing().(db := Saved(Renewing().db, q, CFG));
    RenewalSaves(cancelled.db);
    hide Saved;
    w := AfterSaving(cancelled, 1, CFG);
    OneMoreStep(cancelled, Save(1), w, CFG);
  }

  /** A plan changed while a renewal is processed is the old one again, and the new one is what is collected. */
  lemma LateRenewalRestoresPlan() returns (w: World)
    ensures Reached(w, CFG) && w.requests == map[] && w.db.subscriptions == [RENEWED] && RENEWED.plan == Starter
    ensures w.account.unitAmounts == map[7 := 348000] && !ChargedRuns.CostsAs(Starter, 7, w.account, CFG)
  {
    RenewingIsReached();
    hide Reached;
    var q := Request(TO_GROWTH, 0, Some(ROW), false);
    WholeToldRequest(Renewing(), 0, TO_GROWTH, q, CFG);
    SavedRow(Renewing().db, q, CFG);
    var account := ToldAccount(Renewing().account, q, CFG);
    var changed := Renewing().(db := Saved(Renewing().db, q, CFG), account := account);
    RenewalSaves(changed.db);
    hide Saved;
    w := AfterSaving(changed, 1, CFG);
    OneMoreStep(changed, Save(1), w, CFG);
    assert map[1 := RENEWAL] - {1} == map[];
    assert map[7 := 118800][7 := 348000] == map[7 := 348000];
  }

  /**
   The period that a renewal paid for is lost to a plan change that read the row before: committed
   and invoiced, on an active row, which still ends with its first period.
   */
  lemma PaidPeriodIsLost() returns (w: World)
    ensures Reached(w, CFG) && w.requests == map[] && w.db.markers == {1, 2}
    ensures |w.db.invoices| == 2 && w.db.invoices[1].stripeEventId == 2
    ensures w.db.subscriptions == [GROWN] && GROWN.status.Active? && GROWN.endsAt == Some(30 * DAY_MS)
  {
    RenewingIsReached();
    hide Reached;
    var begun := Renewing().(requests := map[0 := Request(TO_GROWTH, 0, Some(ROW), false), 1 := RENEWAL]);
    assert Began([ROW], TO_GROWTH) == Request(TO_GROWTH, 0, Some(ROW), false);
    OneMoreStep(Renewing(), Begin(0, TO_GROWTH), begun, CFG);
    RenewalSaves(begun.db);
    hide Saved;
    var renewed := AfterSaving(begun, 1, CFG);
    OneMoreStep(begun, Save(1), renewed, CFG);
    w := ChangedSince(renewed);
  }

  lemma ChangedSince(renewed: World) returns (w: World)
    requires Reached(renewed, CFG) && renewed.db.subscriptions == [RENEWED]
    requires renewed.requests == map[0 := Request(TO_GROWTH, 0, Some(ROW), false), 1 := RENEWAL] - {1}
    ensures Reached(w, CFG) && w.requests == map[] && w.db == renewed.db.(subscriptions := [GROWN])
  {
    hide Reached;
    var told := AfterTelling(renewed, 0, CFG);
    OneMoreStep(renewed, Tell(0), told, CFG);
    w := AfterSaving(told, 0, CFG);
    SavedRow(told.db, told.requests[0], CFG);
    hide Saved;
    OneMoreStep(told, Save(0), w, CFG);
    assert w.requests == map[];
  }

  // ---- A flag that outlives its subscription ----

  const LEAVING: Subscription := ROW.(cancelAtPeriodEnd := true)
  const LEAVING_LATE: Subscription := LEAVING.(status := PastDue, pastDueSince := Some(0))
  const RETURNED: Subscription := LEAVING_LATE.(status := Active, externalId := Some(8))

  function Leaving(): World {
    Subscribed().(db := Subscribed().db.(subscriptions := [LEAVING]),
                  account := Subscribed().account.(ending := {7}))
  }

  function LeavingLate(): World {
    AfterNotice(Leaving(), WentPastDue(3, 7))
    .(db := Subscribed().db.(markers := {1, 3}, subscriptions := [LEAVING_LATE]))
  }

  lemma LeavingIsReached()
    ensures Reached(Leaving(), CFG)
  {
    SubscribedIsReached();
    hide Reached;
    var op := CancelAtPeriodEnd(0);
    var q := Request(op, 0, Some(ROW), false);
    WholeToldRequest(Subscribed(), 0, op, q, CFG);
    SavedRow(Subscribed().db, q, CFG);
    assert {} + {7} == {7};
  }

  lemma ReturningBills(db: Tables)
    requires db == Subscribed().db.(markers := {1, 3}, subscriptions := [LEAVING_LATE])
    ensures var (db', outcome) := Delivered(db, Activated(4, 8, 0, Starter), CFG, CALM);
            outcome.Processed? && db'.subscriptions == [RETURNED]
  {
    var event, marked := Activated(4, 8, 0, Starter), db.(markers := {1, 3, 4});
    assert db.markers + {4} == {1, 3, 4};
    var effect := EffectOf([LEAVING_LATE], event, CFG, 0);
    assert effect.Ok? && effect.value.write == Some((0, RETURNED)) && effect.value.bills == Some(0);
    assert SaveRow(marked, 0, RETURNED).Ok?;
    var saved := SaveRow(marked, 0, RETURNED).value;
    assert saved.subscriptions == [RETURNED];
    assert AmountsDue(Starter, None, CFG) == Ok(Tax.VatBreakdown(99000, 19800, 118800));
    SecondInvoice(saved, 0, 4, Starter, Tax.VatBreakdown(99000, 19800, 118800));
  }

  lemma LeavingLateIsReached()
    ensures Reached(LeavingLate(), CFG)
  {
    LeavingIsReached();
    hide Reached;
    FailureIsNoted(Leaving().db, LEAVING, LEAVING_LATE);
    WholeNotice(Leaving(), 0, WentPastDue(3, 7), CALM, CFG);
  }

  function OfferedAnew(): World {
    var account := LeavingLate().account;
    LeavingLate().(account := account.(sessions := account.sessions + [Session(0, Starter, 118800)]))
  }

  function PaidAnew(): World {
    var w := OfferedAnew();
    w.(account := w.account.(unitAmounts := w.account.unitAmounts[8 := 118800]), completed := w.completed + {1},
       emitted := w.emitted[4 := Emission(Activated(4, 8, 0, Starter), 118800)])
  }

  lemma PaidAnewIsReached()
    ensures Reached(PaidAnew(), CFG)
  {
    LeavingLateIsReached();
    hide Reached;
    OneMoreStep(LeavingLate(), OpenCheckout(0, Starter, REACHABLE), OfferedAnew(), CFG);
    OneMoreStep(OfferedAnew(), CompleteSession(1, 8, 4), PaidAnew(), CFG);
  }

  /** Cancelled, past due, then paid for anew: the new subscription is flagged, and the provider knows nothing of it. */
  lemma FlagOutlivesItsSubscription() returns (w: World)
    ensures Reached(w, CFG) && w.db.subscriptions == [RETURNED] && w.account.ending == {7}
    ensures !SubscriptionRuns.FlagsAreTold(w)
    ensures forall outside :: PeriodEndCancellation([RETURNED], w.account, 0, outside)
              == Change([RETURNED], w.account, Ok(0))
  {
    var event := Activated(4, 8, 0, Starter);
    PaidAnewIsReached();
    hide Reached, Delivered;
    ReturningBills(PaidAnew().db);
    WholeDelivery(PaidAnew(), 0, event, CALM, CFG);
    w := PaidAnew().(db := Delivered(PaidAnew().db, event, CFG, CALM).0);
    assert w.db.subscriptions[0] == RETURNED && HasId(RETURNED, 8);
    assert FindLatest([RETURNED], ByCompany(0, BILLED)) == 0;
  }
}
