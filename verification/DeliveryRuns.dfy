/** Deliveries that overlap each other and the services' requests: what the ledger still guarantees. */
module DeliveryRuns {
  import opened Common
  import opened BillingTypes
  import opened PaymentWebhook
  import opened SubscriptionCheckout
  import opened RowRequests
  import opened ServiceRuns
  import LedgerRuns

  /** The step commits the transaction of event `id`. */
  ghost predicate Commits(w: World, step: Step, id: EventId, cfg: Config) {
    && step.Save? && step.r in w.requests
    && var q := w.requests[step.r];
    && q.op.Process? && q.op.event.id == id && WellPlaced(q, w.db.subscriptions) && GoesThrough(w.db, q, cfg)
  }

  /** The event whose invoice a step issues. */
  ghost function Billed(w: World, step: Step, cfg: Config): seq<EventId> {
    if step.Save? && step.r in w.requests && w.requests[step.r].op.Process? && Bills(w.requests[step.r].op.event)
       && Commits(w, step, w.requests[step.r].op.event.id, cfg)
    then [w.requests[step.r].op.event.id] else []
  }

  ghost function AllBilled(run: seq<World>, steps: seq<Step>, n: nat, cfg: Config): seq<EventId>
    requires n <= |steps| < |run|
  {
    if n == 0 then [] else AllBilled(run, steps, n - 1, cfg) + Billed(run[n - 1], steps[n - 1], cfg)
  }

  /** Numbers without a gap, and one invoice for an event, whose marker is there. */
  ghost predicate LedgerSound(db: Tables) {
    LedgerRuns.LedgerInv(db) && NoDup(LedgerRuns.BilledIds(db.invoices))
  }

  /** What a step does to the tables of the ledger. */
  ghost predicate LedgerMoves(w: World, step: Step, w': World, cfg: Config) {
    && (forall id :: id in w'.db.markers <==> id in w.db.markers || Commits(w, step, id, cfg))
    && LedgerRuns.BilledIds(w'.db.invoices) == LedgerRuns.BilledIds(w.db.invoices) + Billed(w, step, cfg)
    && (LedgerSound(w.db) ==> LedgerSound(w'.db))
  }

  lemma SaveMovesLedger(w: World, r: RequestId, w': World, cfg: Config)
    requires Inv(w, cfg) && Next(w, Save(r), w', cfg) && w.requests[r].op.Process?
    ensures LedgerMoves(w, Save(r), w', cfg)
  {
    hide Inv, Handled, Placed, SoughtBy, LedgerRuns.LedgerInv, Bills, LedgerRuns.NextRow;
    var db, q := w.db, w.requests[r];
    RequestsAreSound(w, r, cfg);
    if GoesThrough(db, q, cfg) {
      var event, marked := q.op.event, db.(markers := db.markers + {q.op.event.id});
      HandlingSaves(db, q, cfg);
      var rows' := Placed(db.subscriptions, q, cfg);
      LedgerRuns.ShapeBills(marked, event, rows', q.op.env, w'.db);
      if LedgerSound(db) {
        MarkingKeepsLedgerInv(db, event.id);
        LedgerRuns.ShapeKeepsLedgerInv(marked, event, rows', q.op.env, w'.db);
        EventsAreSent(w, r, cfg);
        UnmarkedIsUnbilled(db, event.id);
      }
    }
  }

  lemma MarkingKeepsLedgerInv(db: Tables, id: EventId)
    requires LedgerRuns.LedgerInv(db)
    ensures LedgerRuns.LedgerInv(db.(markers := db.markers + {id}))
  {
    assert LedgerRuns.Rows(db.(markers := db.markers + {id}).invoices) == LedgerRuns.Rows(db.invoices);
  }

  lemma UnmarkedIsUnbilled(db: Tables, id: EventId)
    requires LedgerRuns.LedgerInv(db) && id !in db.markers
    ensures forall i :: 0 <= i < |db.invoices| ==> LedgerRuns.BilledIds(db.invoices)[i] != id
  {
  }

  predicate IsDelivery(w: World, step: Step) {
    step.Save? && step.r in w.requests && w.requests[step.r].op.Process?
  }

  lemma OthersLeaveLedger(w: World, step: Step, w': World, cfg: Config)
    requires Next(w, step, w', cfg) && !IsDelivery(w, step)
    ensures w'.db.markers == w.db.markers && w'.db.invoices == w.db.invoices && w'.db.sequences == w.db.sequences
  {
    hide Handled, Placed, Accepted, Proceeds, Began, WithSession, ToldAccount, ViolatesActiveIndex, Deliverable;
  }

  lemma OthersCommitNothing(w: World, step: Step, cfg: Config)
    requires !IsDelivery(w, step)
    ensures Billed(w, step, cfg) == [] && forall id :: !Commits(w, step, id, cfg)
  {
    hide GoesThrough;
  }

  lemma StepMovesLedger(w: World, step: Step, w': World, cfg: Config)
    requires Inv(w, cfg) && Next(w, step, w', cfg)
    ensures LedgerMoves(w, step, w', cfg)
  {
    if IsDelivery(w, step) {
      hide Next, Inv, LedgerMoves;
      SaveMovesLedger(w, step.r, w', cfg);
    } else {
      hide Inv, Next, LedgerSound, Billed, Commits;
      OthersLeaveLedger(w, step, w', cfg);
      OthersCommitNothing(w, step, cfg);
      SameLedger(w.db, w'.db);
    }
  }

  lemma SameLedger(db: Tables, db': Tables)
    requires db'.markers == db.markers && db'.invoices == db.invoices && db'.sequences == db.sequences
    ensures LedgerSound(db) ==> LedgerSound(db')
  {
  }

  lemma MarkersStay(w: World, step: Step, w': World, cfg: Config, id: EventId)
    requires Inv(w, cfg) && Next(w, step, w', cfg) && id in w.db.markers
    ensures id in w'.db.markers
  {
    hide Next, Inv, Commits, Billed, LedgerSound;
    StepMovesLedger(w, step, w', cfg);
  }

  /**
   At every moment of every run the numbering has no gap, and the invoices are, in order, one for
   each activation, renewal and plan change committed so far, and of different events.
   */
  lemma LedgerStaysSound(run: seq<World>, steps: seq<Step>, cfg: Config, n: nat)
    requires Run(run, steps, cfg) && n < |run|
    ensures LedgerSound(run[n].db)
    ensures LedgerRuns.BilledIds(run[n].db.invoices) == AllBilled(run, steps, n, cfg)
  {
    assert |run| == |steps| + 1;
    StartsSound(run[0].db, run, steps, cfg);
    hide Run, Next, Inv, LedgerSound, Billed, Commits;
    for m := 0 to n
      invariant LedgerSound(run[m].db)
      invariant LedgerRuns.BilledIds(run[m].db.invoices) == AllBilled(run, steps, m, cfg)
    {
      StepOf(run, steps, cfg, m);
      StepMovesLedger(run[m], steps[m], run[m + 1], cfg);
    }
  }

  lemma StartsSound(db: Tables, run: seq<World>, steps: seq<Step>, cfg: Config)
    requires Run(run, steps, cfg) && db == run[0].db
    ensures LedgerSound(db) && LedgerRuns.BilledIds(db.invoices) == AllBilled(run, steps, 0, cfg)
  {
    hide Next;
  }

  lemma MarkedForGood(run: seq<World>, steps: seq<Step>, cfg: Config, i: nat, j: nat, id: EventId)
    requires Run(run, steps, cfg) && i <= j < |run| && id in run[i].db.markers
    ensures id in run[j].db.markers
  {
    assert |run| == |steps| + 1;
    hide Run, Next, Inv;
    for n := i to j
      invariant id in run[n].db.markers
    {
      StepOf(run, steps, cfg, n);
      MarkersStay(run[n], steps[n], run[n + 1], cfg, id);
    }
  }

  /** However deliveries of an event overlap, fail and are repeated, its transaction is committed at most once. */
  lemma CommittedOnce(run: seq<World>, steps: seq<Step>, cfg: Config, i: nat, j: nat, id: EventId)
    requires Run(run, steps, cfg) && i < j < |steps| && Commits(run[i], steps[i], id, cfg)
    ensures !Commits(run[j], steps[j], id, cfg)
  {
    hide Next, Inv, GoesThrough, LedgerSound, Billed;
    RunKeepsInv(run, steps, cfg, i);
    RunKeepsInv(run, steps, cfg, j);
    assert Next(run[i], steps[i], run[i + 1], cfg);
    StepMovesLedger(run[i], steps[i], run[i + 1], cfg);
    MarkedForGood(run, steps, cfg, i + 1, j, id);
    if Commits(run[j], steps[j], id, cfg) {
      EventsAreSent(run[j], steps[j].r, cfg);
    }
  }

  /** Nor does the transaction ever fail on an index of the invoice table, whatever it overlaps. */
  lemma InvoiceIsNeverRefused(run: seq<World>, steps: seq<Step>, cfg: Config, n: nat, r: RequestId)
    requires Run(run, steps, cfg) && n < |run| && r in run[n].requests && run[n].requests[r].op.Process?
    ensures WellPlaced(run[n].requests[r], run[n].db.subscriptions)
    ensures Handled(run[n].db, run[n].requests[r], cfg) != Err(InvoiceConflict)
  {
    hide Next, Inv, LedgerRuns.LedgerInv, AppliedTo, InvoiceRefused, LedgerRuns.Shaped, LedgerRuns.NextRow;
    var db, q := run[n].db, run[n].requests[r];
    RunKeepsInv(run, steps, cfg, n);
    RequestsAreSound(run[n], r, cfg);
    EventsAreSent(run[n], r, cfg);
    LedgerStaysSound(run, steps, cfg, n);
    var marked := db.(markers := db.markers + {q.op.event.id});
    LedgerRuns.SameInvoicesRefused(db, marked, q.op.event.id, q.op.env);
    LedgerRuns.NextRowIsFree(db, q.op.event.id, q.op.env);
    LedgerRuns.AppliedToShape(marked, Place(db.subscriptions, q), q.read, q.op.event, cfg, q.op.env);
  }
}
