/** What the provider collects, what the rows say, and what the invoices state, over all runs. */
module ChargedRuns {
  import opened Common
  import opened BillingTypes
  import opened PaymentWebhook
  import opened SubscriptionCheckout
  import opened RowRequests
  import opened ServiceRuns
  import LedgerRuns
  import Effects = NotificationEffects

  // ---- Charge and plan ----

  /** The provider collects for subscription s what the plan costs here, VAT included. */
  predicate CostsAs(plan: Plan, s: ProviderSubscriptionId, account: Account, cfg: Config) {
    s in account.unitAmounts && ChargeFor(plan, cfg) == Ok(account.unitAmounts[s])
  }

  /** A plan change the provider was told of is still to be saved. */
  ghost predicate UnderWay(requests: map<RequestId, Request>, s: ProviderSubscriptionId) {
    exists r :: r in requests && requests[r].told && requests[r].op.ChangePlan? && ReadId(requests[r], s)
  }

  ghost predicate RowAgrees(row: Subscription, account: Account, requests: map<RequestId, Request>, cfg: Config) {
    forall s :: HasId(row, s) ==> CostsAs(row.plan, s, account, cfg) || UnderWay(requests, s)
  }

  /** Every row is charged what its plan costs, unless its plan is being changed right now. */
  ghost predicate Agreement(w: World, cfg: Config) {
    forall k :: 0 <= k < |w.db.subscriptions| ==> RowAgrees(w.db.subscriptions[k], w.account, w.requests, cfg)
  }

  /** The operations that set the plan of a row that keeps its subscription. */
  predicate SetsPlan(op: Operation) {
    op.ChangePlan? || op.RedeemTrial? || op.AssignPlan?
  }

  /** The plan that a request saves: the one asked for, or the one it read. */
  function PlanSaved(q: Request): Plan
    requires q.read.Some?
  {
    if SetsPlan(q.op) then q.op.plan else q.read.value.plan
  }

  /** Subscription s is collected for at another price than the plan's, and no plan change of it is still to come. */
  ghost predicate CostsOtherwise(plan: Plan, s: ProviderSubscriptionId, w: World, r: RequestId, cfg: Config) {
    !CostsAs(plan, s, w.account, cfg) && !UnderWay(w.requests - {r}, s)
  }

  /**
   The steps that part charge and plan. A request, or a delivery other than an activation, saves a
   plan for the subscription it read; or a plan change that the provider knows of ends without
   saving, on a row of that subscription. In both cases that plan costs something else than is
   collected, and no other plan change is still to come.
   */
  ghost predicate Parts(w: World, step: Step, cfg: Config) {
    && (step.Save? || step.Drop?) && step.r in w.requests
    && var rows, q := w.db.subscriptions, w.requests[step.r];
    && q.read.Some? && q.at < |rows|
    && if step.Save? && GoesThrough(w.db, q, cfg) && WritesBack(q.read.value, q.op) then
         NewId(q).None? && exists s :: ReadId(q, s) && CostsOtherwise(PlanSaved(q), s, w, step.r, cfg)
       else
         q.op.ChangePlan? && q.told
         && exists s :: ReadId(q, s) && HasId(rows[q.at], s) && CostsOtherwise(rows[q.at].plan, s, w, step.r, cfg)
  }

  /** What a request that writes back leaves agrees unless it parts charge and plan. */
  lemma WrittenAgreesIff(w: World, r: RequestId, cfg: Config)
    requires Inv(w, cfg) && r in w.requests && w.requests[r].read.Some?
    requires w.requests[r].at < |w.db.subscriptions| && GoesThrough(w.db, w.requests[r], cfg)
    requires WritesBack(w.requests[r].read.value, w.requests[r].op)
    ensures RowAgrees(LeftBy(w, Save(r), cfg), w.account, w.requests - {r}, cfg) <==> !Parts(w, Save(r), cfg)
  {
    hide Owned, Known, Priced, CostsAs, QuotaFor, GoesThrough, UnderWay, Unheard;
    var q := w.requests[r];
    RequestsAreSound(w, r, cfg);
    if NewId(q).Some? {
      assert EmissionOk(w, q.op.event.id, cfg);
      AttachedAgrees(w, r, cfg);
    } else {
      WrittenPlan(w.db.subscriptions, q, w.account.ending, cfg);
      assert forall s :: HasId(LeftBy(w, Save(r), cfg), s) == ReadId(q, s);
    }
  }

  lemma WrittenPlan(rows: seq<Subscription>, q: Request, ending: set<ProviderSubscriptionId>, cfg: Config)
    requires Sound(q, rows, ending, cfg) && q.read.Some? && WritesBack(q.read.value, q.op) && NewId(q).None?
    ensures Writes(rows, q, cfg).plan == PlanSaved(q) && Writes(rows, q, cfg).externalId == q.read.value.externalId
  {
    hide ResolveContactQuota, ChargeFor;
  }

  /** An activation attaches a subscription that is collected for at the price of the plan it states. */
  lemma AttachedAgrees(w: World, r: RequestId, cfg: Config)
    requires Inv(w, cfg) && r in w.requests && w.requests[r].read.Some? && NewId(w.requests[r]).Some?
    requires w.requests[r].at < |w.db.subscriptions|
    ensures RowAgrees(Writes(w.db.subscriptions, w.requests[r], cfg), w.account, w.requests - {r}, cfg)
  {
    hide Owned, Known, Priced, ChargeFor, UnderWay, Unheard;
    var q := w.requests[r];
    RequestsAreSound(w, r, cfg);
    assert EmissionOk(w, q.op.event.id, cfg);
  }

  /** A row that a request leaves as it is agrees unless its plan change is lost. */
  lemma UntouchedAgreesIff(w: World, r: RequestId, row: Subscription, cfg: Config)
    requires r in w.requests && w.requests[r].read.Some? && RowAgrees(row, w.account, w.requests, cfg)
    ensures RowAgrees(row, w.account, w.requests - {r}, cfg)
            <==> !(&& w.requests[r].op.ChangePlan? && w.requests[r].told
                   && exists s :: ReadId(w.requests[r], s) && HasId(row, s) && CostsOtherwise(row.plan, s, w, r, cfg))
  {
    hide CostsAs;
    var q := w.requests[r];
    forall s | UnderWay(w.requests, s) && !(q.op.ChangePlan? && q.told && ReadId(q, s))
      ensures UnderWay(w.requests - {r}, s)
    {
      var r' :| r' in w.requests && w.requests[r'].told && w.requests[r'].op.ChangePlan? && ReadId(w.requests[r'], s);
      assert r' in w.requests - {r};
    }
  }

  lemma LeftAgreesIff(w: World, step: Step, w': World, cfg: Config)
    requires Inv(w, cfg) && Next(w, step, w', cfg) && (step.Save? || step.Drop?) && Agreement(w, cfg)
    requires w.requests[step.r].read.Some?
    ensures WellPlaced(w.requests[step.r], w.db.subscriptions)
    ensures RowAgrees(LeftBy(w, step, cfg), w.account, w.requests - {step.r}, cfg) <==> !Parts(w, step, cfg)
  {
    hide Inv, CostsAs, HasId, ReadId, RowAgrees, Saved, GoesThrough, WritesBack, CostsOtherwise;
    var rows, q := w.db.subscriptions, w.requests[step.r];
    RequestsAreSound(w, step.r, cfg);
    if step.Save? && GoesThrough(w.db, q, cfg) && WritesBack(q.read.value, q.op) {
      WrittenAgreesIff(w, step.r, cfg);
    } else {
      assert RowAgrees(rows[q.at], w.account, w.requests, cfg);
      var row := LeftBy(w, step, cfg);
      assert row.plan == rows[q.at].plan && row.externalId == rows[q.at].externalId;
      SameNameAgrees(row, rows[q.at], w.account, w.requests, cfg);
      SameNameAgrees(row, rows[q.at], w.account, w.requests - {step.r}, cfg);
      UntouchedAgreesIff(w, step.r, rows[q.at], cfg);
    }
  }

  lemma SameNameAgrees(row: Subscription, row': Subscription, account: Account,
          requests: map<RequestId, Request>, cfg: Config)
    requires row.plan == row'.plan && row.externalId == row'.externalId
    ensures RowAgrees(row, account, requests, cfg) <==> RowAgrees(row', account, requests, cfg)
  {
    hide CostsAs, UnderWay;
    assert forall s :: HasId(row, s) == HasId(row', s);
  }

  lemma EndingPartsIff(w: World, step: Step, w': World, cfg: Config)
    requires Inv(w, cfg) && Next(w, step, w', cfg) && (step.Save? || step.Drop?) && Agreement(w, cfg)
    ensures Agreement(w', cfg) <==> !Parts(w, step, cfg)
  {
    hide Inv, CostsAs, Writes, HasId, RowAgrees, LeftBy, Saved, GoesThrough, Inserted, CostsOtherwise, WritesBack;
    var rows, rows', q := w.db.subscriptions, w'.db.subscriptions, w.requests[step.r];
    RequestsAreSound(w, step.r, cfg);
    RowsLeft(w, step, w', cfg);
    forall k | 0 <= k < |rows| && !(q.read.Some? && k == q.at)
      ensures RowAgrees(rows'[k], w'.account, w'.requests, cfg)
    {
      OtherRowsStillAgree(w, step.r, k, cfg);
    }
    if q.read.Some? {
      LeftAgreesIff(w, step, w', cfg);
      assert rows'[q.at] == LeftBy(w, step, cfg);
    } else if |rows'| > |rows| {
      InsertedAgrees(w, step.r, cfg);
    }
  }

  lemma InsertedAgrees(w: World, r: RequestId, cfg: Config)
    requires Inv(w, cfg) && r in w.requests && Inserts(w.requests[r].op)
    ensures RowAgrees(Inserted(w.requests[r].op, cfg), w.account, w.requests - {r}, cfg)
  {
    hide Owned, Known, Priced, ChargeFor, UnderWay, Unheard, AllSound, QuotaFor;
    if w.requests[r].op.Process? {
      assert EmissionOk(w, w.requests[r].op.event.id, cfg);
    }
  }

  /** The end of a request changes nothing for rows it is not about. */
  lemma OtherRowsStillAgree(w: World, r: RequestId, k: nat, cfg: Config)
    requires Inv(w, cfg) && Agreement(w, cfg) && r in w.requests && k < |w.db.subscriptions|
    requires !(w.requests[r].read.Some? && k == w.requests[r].at)
    ensures RowAgrees(w.db.subscriptions[k], w.account, w.requests - {r}, cfg)
  {
    hide EmittedInv, Priced, AllSound, CostsAs, HasId;
    var row := w.db.subscriptions[k];
    assert RowAgrees(row, w.account, w.requests, cfg);
    forall s | HasId(row, s) && UnderWay(w.requests, s)
      ensures UnderWay(w.requests - {r}, s)
    {
      var r' :| r' in w.requests && w.requests[r'].told && w.requests[r'].op.ChangePlan? && ReadId(w.requests[r'], s);
      assert r' != r by { assert k == w.requests[r'].at; }
      assert r' in w.requests - {r};
    }
  }

  lemma TellingPartsNothing(w: World, r: RequestId, w': World, cfg: Config)
    requires Inv(w, cfg) && Next(w, Tell(r), w', cfg) && Agreement(w, cfg)
    ensures Agreement(w', cfg)
  {
    hide EmittedInv, Priced, Owned, AllSound, ChargeFor;
    var q := w.requests[r];
    forall k | 0 <= k < |w.db.subscriptions|
      ensures RowAgrees(w'.db.subscriptions[k], w'.account, w'.requests, cfg)
    {
      var row := w.db.subscriptions[k];
      assert RowAgrees(row, w.account, w.requests, cfg);
      forall s | HasId(row, s)
        ensures CostsAs(row.plan, s, w'.account, cfg) || UnderWay(w'.requests, s)
      {
        if UnderWay(w.requests, s) {
          var r' :| r' in w.requests && w.requests[r'].told && w.requests[r'].op.ChangePlan?
              && ReadId(w.requests[r'], s);
          assert w'.requests[r'] == w.requests[r'] || r' == r;
        } else if q.op.ChangePlan? && ReadId(q, s) {
          assert w'.requests[r].told && ReadId(w'.requests[r], s);
        }
      }
    }
  }

  lemma OtherStepsPartNothing(w: World, step: Step, w': World, cfg: Config)
    requires Inv(w, cfg) && Next(w, step, w', cfg) && Agreement(w, cfg)
    requires !step.Save? && !step.Drop? && !step.Tell?
    ensures Agreement(w', cfg)
  {
    hide EmittedInv, Owned, AllSound, Priced, FindOne, Proceeds, Began, ChargeFor, Saved;
    var rows, rows' := w.db.subscriptions, w'.db.subscriptions;
    forall k | 0 <= k < |rows'|
      ensures RowAgrees(rows'[k], w'.account, w'.requests, cfg)
    {
      if k < |rows| {
        assert RowAgrees(rows[k], w.account, w.requests, cfg);
        forall s | HasId(rows[k], s) && UnderWay(w.requests, s)
          ensures UnderWay(w'.requests, s)
        {
          var r :| r in w.requests && w.requests[r].told && w.requests[r].op.ChangePlan? && ReadId(w.requests[r], s);
          assert w'.requests[r] == w.requests[r];
        }
      }
    }
  }

  /** Charge and plan part at exactly those steps. */
  lemma StepPartsIff(w: World, step: Step, w': World, cfg: Config)
    requires Inv(w, cfg) && Next(w, step, w', cfg) && Agreement(w, cfg)
    ensures Agreement(w', cfg) <==> !Parts(w, step, cfg)
  {
    hide Inv, Next, Agreement;
    if step.Save? || step.Drop? {
      EndingPartsIff(w, step, w', cfg);
    } else if step.Tell? {
      TellingPartsNothing(w, step.r, w', cfg);
    } else {
      OtherStepsPartNothing(w, step, w', cfg);
    }
  }

  /**
   At every moment of a run the provider collects for each row what its plan costs, but for plan
   changes under way, exactly when no request and no delivery of the run parted the two.
   */
  lemma ProviderChargesThePlanIff(run: seq<World>, steps: seq<Step>, cfg: Config)
    requires Run(run, steps, cfg)
    ensures (forall i :: 0 <= i < |run| ==> Agreement(run[i], cfg))
        <==> (forall i :: 0 <= i < |steps| ==> !Parts(run[i], steps[i], cfg))
  {
    hide Next, Inv, Parts;
    forall i | 0 <= i < |steps| && Agreement(run[i], cfg)
      ensures Agreement(run[i + 1], cfg) <==> !Parts(run[i], steps[i], cfg)
    {
      RunKeepsInv(run, steps, cfg, i);
      StepPartsIff(run[i], steps[i], run[i + 1], cfg);
    }
    KeptThroughoutIff(run, steps, (w: World) => Agreement(w, cfg), (w: World, step: Step) => Parts(w, step, cfg));
  }

  /**
   A save of a row that nobody wrote since parts charge and plan exactly when it sets a plan that
   costs something else than is collected for the row, and no other plan change is to come.
   */
  lemma FreshSavePartsIff(w: World, r: RequestId, cfg: Config)
    requires Inv(w, cfg) && Agreement(w, cfg) && r in w.requests && w.requests[r].read.Some?
    requires w.requests[r].at < |w.db.subscriptions|
    requires w.requests[r].read.value == w.db.subscriptions[w.requests[r].at]
    requires GoesThrough(w.db, w.requests[r], cfg)
    ensures Parts(w, Save(r), cfg)
            <==> var q := w.requests[r];
                 && SetsPlan(q.op)
                 && exists s :: ReadId(q, s) && CostsOtherwise(q.op.plan, s, w, r, cfg)
  {
    hide EmittedInv, Owned, Priced, Known, CostsAs, QuotaFor, GoesThrough;
    var q := w.requests[r];
    RequestsAreSound(w, r, cfg);
    assert RowAgrees(w.db.subscriptions[q.at], w.account, w.requests, cfg);
    if !q.op.ChangePlan? {
      NotAPlanChange(w.requests, r);
    }
  }

  lemma NotAPlanChange(requests: map<RequestId, Request>, r: RequestId)
    requires r in requests && !requests[r].op.ChangePlan?
    ensures forall s :: UnderWay(requests, s) <==> UnderWay(requests - {r}, s)
  {
    forall s | UnderWay(requests, s)
      ensures UnderWay(requests - {r}, s)
    {
      var r' :| r' in requests && requests[r'].told && requests[r'].op.ChangePlan? && ReadId(requests[r'], s);
      assert r' in requests - {r};
    }
  }

  /** A request that fails parts them exactly when it is a plan change the provider was told of, alone, at another
      price. */
  lemma LossPartsIff(w: World, r: RequestId, w': World, cfg: Config)
    requires Inv(w, cfg) && Next(w, Drop(r), w', cfg) && Agreement(w, cfg) && w.requests[r].read.Some?
    ensures w.requests[r].at < |w.db.subscriptions|
    ensures Agreement(w', cfg)
            <==> var q, row := w.requests[r], w.db.subscriptions[w.requests[r].at];
                 !(&& q.op.ChangePlan? && q.told
                   && exists s :: ReadId(q, s) && HasId(row, s) && CostsOtherwise(row.plan, s, w, r, cfg))
  {
    hide Inv, Agreement, CostsOtherwise, Saved;
    RequestsAreSound(w, r, cfg);
    EndingPartsIff(w, Drop(r), w', cfg);
  }

  // ---- Between the provider's answer and the save ----

  /** Step n tells the provider of another plan for subscription s. */
  ghost predicate Tells(w: World, step: Step, s: ProviderSubscriptionId) {
    step.Tell? && step.r in w.requests && w.requests[step.r].op.ChangePlan? && ReadId(w.requests[step.r], s)
  }

  /** The plan that the provider was told last for s, of the steps from m, which told it, to n. */
  ghost function LastTold(run: seq<World>, steps: seq<Step>, m: nat, n: nat, s: ProviderSubscriptionId): Plan
    requires m < n <= |steps| < |run| && Tells(run[m], steps[m], s)
    decreases n
  {
    if Tells(run[n - 1], steps[n - 1], s)
        then run[n - 1].requests[steps[n - 1].r].op.plan else LastTold(run, steps, m, n - 1, s)
  }

  lemma AmountsChangeByTelling(w: World, step: Step, w': World, cfg: Config, s: ProviderSubscriptionId)
    requires Inv(w, cfg) && Next(w, step, w', cfg) && s in w.account.unitAmounts
    ensures s in w'.account.unitAmounts
    ensures if Tells(w, step, s) then ChargeFor(w.requests[step.r].op.plan, cfg) == Ok(w'.account.unitAmounts[s])
            else w'.account.unitAmounts[s] == w.account.unitAmounts[s]
  {
    hide EmittedInv, Owned, Known, Priced, FindOne, Saved, Proceeds, ChargeFor;
    if step.Tell? {
      RequestsAreSound(w, step.r, cfg);
    }
  }

  lemma {:induction false} CollectedIsLastTold(run: seq<World>, steps: seq<Step>, cfg: Config, m: nat,
          n: nat, s: ProviderSubscriptionId)
    requires Run(run, steps, cfg) && m < n < |run| && Tells(run[m], steps[m], s)
    ensures s in run[n].account.unitAmounts
    ensures ChargeFor(LastTold(run, steps, m, n, s), cfg) == Ok(run[n].account.unitAmounts[s])
    decreases n
  {
    hide Next, Inv, ChargeFor;
    RunKeepsInv(run, steps, cfg, n - 1);
    if m < n - 1 {
      CollectedIsLastTold(run, steps, cfg, m, n - 1, s);
    } else {
      ToldAreKnown(run[m], steps[m], cfg, s);
    }
    AmountsChangeByTelling(run[n - 1], steps[n - 1], run[n], cfg, s);
  }

  lemma ToldAreKnown(w: World, step: Step, cfg: Config, s: ProviderSubscriptionId)
    requires Inv(w, cfg) && Tells(w, step, s)
    ensures s in w.account.unitAmounts
  {
  }

  /**
   Overlapping plan changes. A change told at step m and saved at step n leaves its row charged
   for the plan it now states exactly when the provider was told last, in between, of a plan at
   the same price; so always when no other change of that subscription was told in between.
   */
  lemma SavedPlanIsChargedIff(run: seq<World>, steps: seq<Step>, cfg: Config, m: nat, n: nat, s: ProviderSubscriptionId)
    requires Run(run, steps, cfg) && m < n < |steps| && Tells(run[m], steps[m], s)
    requires steps[n] == Save(steps[m].r) && steps[n].r in run[n].requests
    requires run[n].requests[steps[n].r].op == run[m].requests[steps[m].r].op && ReadId(run[n].requests[steps[n].r], s)
    requires WellPlaced(run[n].requests[steps[n].r], run[n].db.subscriptions)
    requires GoesThrough(run[n].db, run[n].requests[steps[n].r], cfg)
    ensures var at, plan := run[n].requests[steps[n].r].at, run[m].requests[steps[m].r].op.plan;
            && at < |run[n + 1].db.subscriptions|
            && var row := run[n + 1].db.subscriptions[at];
            && row.plan == plan && HasId(row, s)
            && (CostsAs(plan, s, run[n + 1].account, cfg)
                <==> ChargeFor(LastTold(run, steps, m, n, s), cfg) == ChargeFor(plan, cfg))
    ensures (forall i :: m < i < n ==> !Tells(run[i], steps[i], s))
            ==> LastTold(run, steps, m, n, s) == run[m].requests[steps[m].r].op.plan
  {
    hide Inv, ChargeFor, Saved, GoesThrough;
    RunKeepsInv(run, steps, cfg, n);
    CollectedIsLastTold(run, steps, cfg, m, n, s);
    assert Next(run[n], steps[n], run[n + 1], cfg);
    RowsLeft(run[n], steps[n], run[n + 1], cfg);
    if forall i :: m < i < n ==> !Tells(run[i], steps[i], s) {
      NoOtherTold(run, steps, m, n, s);
    }
  }

  lemma {:induction false} NoOtherTold(run: seq<World>, steps: seq<Step>, m: nat, n: nat, s: ProviderSubscriptionId)
    requires m < n <= |steps| < |run| && Tells(run[m], steps[m], s)
    requires forall i :: m < i < n ==> !Tells(run[i], steps[i], s)
    ensures LastTold(run, steps, m, n, s) == run[m].requests[steps[m].r].op.plan
    decreases n
  {
    if m < n - 1 {
      NoOtherTold(run, steps, m, n - 1, s);
    }
  }

  // ---- Invoice and charge ----

  /** The plan that an activation or renewal is invoiced for: a renewal's is the one its delivery read. */
  function BilledPlan(q: Request): Plan
    requires q.op.Process? && (q.op.event.Activated? || q.read.Some?)
  {
    if q.op.event.Activated? then q.op.event.plan else q.read.value.plan
  }

  /** The amounts on the invoice of a committed activation or renewal. */
  lemma BillShowsThePlan(db: Tables, q: Request, ending: set<ProviderSubscriptionId>, cfg: Config)
    requires q.op.Process? && (q.op.event.Activated? || q.op.event.Renewed?)
    requires Sound(q, db.subscriptions, ending, cfg) && GoesThrough(db, q, cfg)
    ensures q.op.event.Renewed? ==> q.read.Some?
    ensures var db' := Saved(db, q, cfg);
            && db'.invoices != []
            && var bill := db'.invoices[|db'.invoices| - 1];
            && bill.stripeEventId == q.op.event.id && bill.subscription < |db'.subscriptions|
            && HasId(db'.subscriptions[bill.subscription], q.op.event.subscriptionId)
            && db'.subscriptions[bill.subscription].plan == BilledPlan(q)
            && ChargeFor(BilledPlan(q), cfg) == Ok(bill.amounts.amountTTC)
  {
    hide ViolatesActiveIndex, InvoiceRefused;
  }

  /**
   In every run whatsoever the invoice of an activation states what the provider collected. The
   invoice of a renewal states the price of the plan the row had when its delivery read it; so it
   states what was collected exactly when that plan costs what was collected at the renewal.
   */
  lemma InvoiceStatesTheCharge(run: seq<World>, steps: seq<Step>, cfg: Config, i: nat)
    requires Run(run, steps, cfg) && i < |steps| && steps[i].Save? && steps[i].r in run[i].requests
    requires var q := run[i].requests[steps[i].r];
             && q.op.Process? && (q.op.event.Activated? || q.op.event.Renewed?)
             && WellPlaced(q, run[i].db.subscriptions) && GoesThrough(run[i].db, q, cfg)
    ensures var q, invoices := run[i].requests[steps[i].r], run[i + 1].db.invoices;
            && (q.op.event.Renewed? ==> q.read.Some?) && q.op.event.id in run[i].emitted && invoices != []
            && var emission, bill := run[i].emitted[q.op.event.id], invoices[|invoices| - 1];
            && emission.event == q.op.event && bill.stripeEventId == q.op.event.id
            && (q.op.event.Activated? ==> bill.amounts.amountTTC == emission.charged)
            && (bill.amounts.amountTTC == emission.charged <==> ChargeFor(BilledPlan(q), cfg) == Ok(emission.charged))
  {
    hide Inv, Saved, GoesThrough, ChargeFor, Sound;
    var w, q := run[i], run[i].requests[steps[i].r];
    RunKeepsInv(run, steps, cfg, i);
    RequestsAreSound(w, steps[i].r, cfg);
    EventsAreSent(w, steps[i].r, cfg);
    BillShowsThePlan(w.db, q, w.account.ending, cfg);
    EmissionsAreStated(w, q.op.event.id, cfg);
    assert Next(w, steps[i], run[i + 1], cfg);
  }

  /**
   In every run, and whatever was written since the delivery read its row, the invoice of a committed
   plan change states the amount that the provider took, five sixths of it as the price before
   tax, and is of the row that had the subscription, and its company. That of an activation or
   renewal states the plan's price and a fifth of it as tax.
   */
  lemma InvoiceStatesItsAmounts(run: seq<World>, steps: seq<Step>, cfg: Config, i: nat)
    requires Run(run, steps, cfg) && i < |steps| && steps[i].Save? && steps[i].r in run[i].requests
    requires var q := run[i].requests[steps[i].r];
             && q.op.Process? && Bills(q.op.event)
             && WellPlaced(q, run[i].db.subscriptions) && GoesThrough(run[i].db, q, cfg)
    ensures var q, db, db' := run[i].requests[steps[i].r], run[i].db, run[i + 1].db;
            && Effects.AddsInvoice(db, db', q.op.event.id, Place(db.subscriptions, q), q.op.env)
            && var bill := db'.invoices[|db.invoices|];
            if q.op.event.PlanChanged? then
              && Effects.StatesAmount(bill, q.op.event.amountTTC) && db'.subscriptions == db.subscriptions
              && q.read.Some? && q.read.value.externalId == Some(q.op.event.subscriptionId)
              && bill.companyId == q.read.value.companyId
            else
              && (q.op.event.Activated? || q.read.Some?)
              && Effects.StatesPrice(bill, BilledPlan(q), cfg)
  {
    hide Inv, AppliedTo, Suits, QuotaFor, Placed, Writes, Effects.StatesAmount, Effects.StatesPrice;
    var w, q := run[i], run[i].requests[steps[i].r];
    StepOf(run, steps, cfg, i);
    hide Run;
    RequestsAreSound(w, steps[i].r, cfg);
    var event, marked := q.op.event, w.db.(markers := w.db.markers + {q.op.event.id});
    Effects.HandlerBills(marked, Place(w.db.subscriptions, q), q.read, event, cfg, q.op.env);
    SavedTables(w.db, q, w.account.ending, cfg);
    BilledRow(w.db.subscriptions, q, w.account.ending, cfg);
  }

  /** The row that is billed, once it is in its place. */
  lemma BilledRow(rows: seq<Subscription>, q: Request, ending: set<ProviderSubscriptionId>, cfg: Config)
    requires Sound(q, rows, ending, cfg) && q.op.Process? && Bills(q.op.event)
    ensures q.op.event.Activated? || (q.read.Some? && q.read.value.externalId == Some(q.op.event.subscriptionId))
    ensures var rows', at := Placed(rows, q, cfg), Place(rows, q);
            && at < |rows'|
            && (if q.op.event.PlanChanged? then rows' == rows && rows[at].companyId == q.read.value.companyId
                else rows'[at].plan == BilledPlan(q))
  {
    hide ResolveContactQuota;
  }

  /**
   A plan change that the provider accepts and that is then lost leaves charge and plan in agreement
   iff both plans cost the same.
   */
  lemma HalfDonePlanChange(w: World, r: RequestId, told: World, lost: World, cfg: Config)
    requires Inv(w, cfg) && Next(w, Tell(r), told, cfg) && Next(told, Drop(r), lost, cfg)
        && w.requests[r].op.ChangePlan?
    requires WellPlaced(w.requests[r], w.db.subscriptions)
    requires w.db.subscriptions[w.requests[r].at].externalId == w.requests[r].read.value.externalId
    ensures lost.db == w.db
    ensures var row := w.db.subscriptions[w.requests[r].at];
            CostsAs(row.plan, row.externalId.value, lost.account, cfg)
            <==> ChargeFor(row.plan, cfg) == ChargeFor(w.requests[r].op.plan, cfg)
  {
    hide EmittedInv, Owned, Priced, ChargeFor, Proceeds;
    RequestsAreSound(w, r, cfg);
  }
}
