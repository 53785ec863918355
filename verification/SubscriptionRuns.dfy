/** Subscription rows under every service that writes them and the webhook, their reads and saves interleaved. */
module SubscriptionRuns {
  import opened Common
  import opened BillingTypes
  import opened PaymentWebhook
  import opened SubscriptionCheckout
  import opened SubscriptionAdmin
  import opened RowRequests
  import opened ServiceRuns
  import LedgerRuns

  // ---- One row, one step ----

  /**
   A row moves along the lifecycle, is final once cancelled, is not past due then, and keeps its past-
   due date and quota.
   */
  ghost predicate RowMoves(row: Subscription, row': Subscription, cfg: Config) {
    && row'.companyId == row.companyId
    && (row'.status == row.status || row'.status in Transitions(row.status))
    && (row.status.Cancelled? ==> row' == row)
    && (row'.status.Cancelled? && !row.status.Cancelled? ==> row'.pastDueSince.None?)
    && (row.status.PastDue? && row'.status.PastDue? ==> row'.pastDueSince == row.pastDueSince)
    && (LedgerRuns.QuotaMatchesPlan(row, cfg) ==> LedgerRuns.QuotaMatchesPlan(row', cfg))
  }

  /** Rows are written by saves, and trials are added to them. */
  lemma OnlySavesWriteRows(w: World, step: Step, w': World, cfg: Config)
    requires Next(w, step, w', cfg) && !step.Save?
    ensures w'.db.subscriptions == w.db.subscriptions + if step.StartTrial? then [step.row] else []
    ensures step.StartTrial? ==> step.row.status.Trial?
  {
    hide Saved, WithSession, ToldAccount, Proceeds, Began;
  }

  /** What the staff can do to a row that nothing else does. */
  predicate Exceptional(row: Subscription, op: Operation, cfg: Config) {
    match op
    case CancelNow(_, now) =>
      if row.status.Cancelled? then row.endsAt != Some(now) || row.cancelAtPeriodEnd
      else row.status.Expired? || row.pastDueSince.Some?
    case AssignPlan(_, plan, _, _) =>
      LedgerRuns.QuotaMatchesPlan(row, cfg) && QuotaFor(op, cfg) != ResolveContactQuota(plan, cfg)
    case _ => false
  }

  /** A request or event whose row nobody wrote in between moves it so, with exactly these exceptions. */
  lemma FreshSaveMovesRowIff(row: Subscription, op: Operation, cfg: Config)
    requires Suits(row, op, cfg) && QuotaFor(op, cfg).Ok?
    ensures RowMoves(row, Intended(row, op, cfg), cfg) <==> !Exceptional(row, op, cfg)
  {
    hide ChargeFor;
  }

  // ---- Cancelled rows ----

  /**
   The steps that rewrite the cancelled row k: a contact consumed from it after all; a staff
   cancellation that writes anything else; an event processed from what the row was before, unless
   it cancels it alike; any other request, which read it before it was cancelled, unless the
   unique index refuses to have the row back.
   */
  ghost predicate Rewrites(w: World, step: Step, k: nat, cfg: Config)
    requires k < |w.db.subscriptions|
  {
    && step.Save? && step.r in w.requests
    && var rows, q := w.db.subscriptions, w.requests[step.r];
    && q.read.Some? && q.at == k
    && match q.op
       case ConsumeContact(_) => rows[k].contactsUsed < rows[k].contactQuota
       case CancelNow(_, now) => Ended(q.read.value, now) != rows[k]
       case Process(event, _) =>
         && GoesThrough(w.db, q, cfg) && WritesBack(q.read.value, q.op)
         && (event.WasCancelled? ==> q.read.value.(status := Cancelled, pastDueSince := None) != rows[k])
       case _ => Accepted(rows, q, cfg)
  }

  lemma SaveRewritesIff(w: World, r: RequestId, w': World, k: nat, cfg: Config)
    requires Inv(w, cfg) && Next(w, Save(r), w', cfg)
    requires k < |w.db.subscriptions| && w.db.subscriptions[k].status.Cancelled?
    ensures k < |w'.db.subscriptions|
    ensures w'.db.subscriptions[k] != w.db.subscriptions[k] <==> Rewrites(w, Save(r), k, cfg)
  {
    hide Inv, Saved, QuotaFor, ChargeFor, Handled, ResolveContactQuota;
    RequestsAreSound(w, r, cfg);
    RowsLeft(w, Save(r), w', cfg);
  }

  lemma CancelledRowChangesIff(w: World, step: Step, w': World, k: nat, cfg: Config)
    requires Inv(w, cfg) && Next(w, step, w', cfg)
    requires k < |w.db.subscriptions| && w.db.subscriptions[k].status.Cancelled?
    ensures k < |w'.db.subscriptions|
    ensures w'.db.subscriptions[k] != w.db.subscriptions[k] <==> Rewrites(w, step, k, cfg)
  {
    hide Inv, Next, Rewrites;
    if step.Save? {
      SaveRewritesIff(w, step.r, w', k, cfg);
    } else {
      OnlySavesWriteRows(w, step, w', cfg);
      OnlySavesRewrite(w, step, k, cfg);
    }
  }

  lemma OnlySavesRewrite(w: World, step: Step, k: nat, cfg: Config)
    requires k < |w.db.subscriptions| && !step.Save?
    ensures !Rewrites(w, step, k, cfg)
  {
  }

  /**
   When it had read the row as it still is, only a staff cancellation at another time, or of a flagged
   row, rewrites it.
   */
  lemma FreshRewriteIff(w: World, r: RequestId, k: nat, cfg: Config)
    requires Inv(w, cfg) && r in w.requests && k < |w.db.subscriptions|
    requires w.requests[r].at == k && w.requests[r].read == Some(w.db.subscriptions[k])
    requires w.db.subscriptions[k].status.Cancelled?
    ensures var row := w.db.subscriptions[k];
            Rewrites(w, Save(r), k, cfg)
            <==> w.requests[r].op.CancelNow? && (row.endsAt != Some(w.requests[r].op.now) || row.cancelAtPeriodEnd)
  {
    hide Inv, QuotaFor, ChargeFor, Accepted, GoesThrough, Rewritten;
    RequestsAreSound(w, r, cfg);
  }

  /** From any moment on, a cancelled row stays as it is exactly as long as no such step comes. */
  lemma CancelledIsFinalIff(run: seq<World>, steps: seq<Step>, cfg: Config, i: nat, j: nat, k: nat)
    requires Run(run, steps, cfg) && i <= j < |run|
    requires k < |run[i].db.subscriptions| && run[i].db.subscriptions[k].status.Cancelled?
    ensures (forall m :: i <= m <= j ==> HoldsRow(run[m], k, run[i].db.subscriptions[k]))
            <==> (forall m :: i <= m < j ==> !RewritesRow(run[m], steps[m], k, cfg))
  {
    hide Next, Inv, Rewrites;
    var row := run[i].db.subscriptions[k];
    var kept := (m: nat) => m < |run| && HoldsRow(run[m], k, row);
    var breaks := (m: nat) => m < |steps| && RewritesRow(run[m], steps[m], k, cfg);
    forall m | i <= m < j && kept(m)
      ensures kept(m + 1) <==> !breaks(m)
    {
      RunKeepsInv(run, steps, cfg, m);
      assert Next(run[m], steps[m], run[m + 1], cfg);
      CancelledRowChangesIff(run[m], steps[m], run[m + 1], k, cfg);
    }
    KeptBetweenIff(i, j, kept, breaks);
    assert forall m :: i <= m <= j ==> kept(m) == HoldsRow(run[m], k, row);
    assert forall m :: i <= m < j ==> breaks(m) == RewritesRow(run[m], steps[m], k, cfg);
  }

  predicate HoldsRow(w: World, k: nat, row: Subscription) {
    k < |w.db.subscriptions| && w.db.subscriptions[k] == row
  }

  ghost predicate RewritesRow(w: World, step: Step, k: nat, cfg: Config) {
    k < |w.db.subscriptions| && Rewrites(w, step, k, cfg)
  }

  // ---- Cancelled and past due ----

  ghost predicate NoneCancelledPastDue(w: World) {
    forall k :: 0 <= k < |w.db.subscriptions| && w.db.subscriptions[k].status.Cancelled?
        ==> w.db.subscriptions[k].pastDueSince.None?
  }

  /** A staff cancellation of a row that it read with a past-due date. */
  predicate LeavesDate(w: World, step: Step) {
    && step.Save? && step.r in w.requests
    && w.requests[step.r].op.CancelNow? && w.requests[step.r].read.Some?
        && w.requests[step.r].read.value.pastDueSince.Some?
  }

  lemma SaveLeavesDateIff(w: World, r: RequestId, w': World, cfg: Config)
    requires Inv(w, cfg) && Next(w, Save(r), w', cfg) && NoneCancelledPastDue(w)
    ensures NoneCancelledPastDue(w') <==> !LeavesDate(w, Save(r))
  {
    hide Inv, Saved, QuotaFor, ChargeFor, Handled, ResolveContactQuota;
    var rows, rows', q := w.db.subscriptions, w'.db.subscriptions, w.requests[r];
    RequestsAreSound(w, r, cfg);
    RowsLeft(w, Save(r), w', cfg);
    if LeavesDate(w, Save(r)) {
      assert rows'[q.at] == Ended(q.read.value, q.op.now);
    }
  }

  /** Over all runs: no cancelled row is past due exactly as long as no staff cancellation left a date. */
  lemma CancelledIsNotPastDueIff(run: seq<World>, steps: seq<Step>, cfg: Config)
    requires Run(run, steps, cfg)
    ensures (forall i :: 0 <= i < |run| ==> NoneCancelledPastDue(run[i]))
        <==> (forall i :: 0 <= i < |steps| ==> !LeavesDate(run[i], steps[i]))
  {
    hide Next, Inv, LeavesDate;
    forall i | 0 <= i < |steps| && NoneCancelledPastDue(run[i])
      ensures NoneCancelledPastDue(run[i + 1]) <==> !LeavesDate(run[i], steps[i])
    {
      RunKeepsInv(run, steps, cfg, i);
      StepLeavesDateIff(run[i], steps[i], run[i + 1], cfg);
    }
    KeptThroughoutIff(run, steps, (w: World) => NoneCancelledPastDue(w), (w: World, step: Step) => LeavesDate(w, step));
  }

  lemma StepLeavesDateIff(w: World, step: Step, w': World, cfg: Config)
    requires Inv(w, cfg) && Next(w, step, w', cfg) && NoneCancelledPastDue(w)
    ensures NoneCancelledPastDue(w') <==> !LeavesDate(w, step)
  {
    hide Inv, Next;
    if step.Save? {
      SaveLeavesDateIff(w, step.r, w', cfg);
    } else {
      OnlySavesWriteRows(w, step, w', cfg);
    }
  }

  // ---- Quota and plan ----

  ghost predicate QuotasMatch(w: World, cfg: Config) {
    && (forall k :: 0 <= k < |w.db.subscriptions| ==> LedgerRuns.QuotaMatchesPlan(w.db.subscriptions[k], cfg))
    && (forall r :: r in w.requests && w.requests[r].read.Some?
          ==> LedgerRuns.QuotaMatchesPlan(w.requests[r].read.value, cfg))
  }

  /** A trial provisioned, or a plan assigned by the staff, with another quota than the plan's. */
  ghost predicate PartsQuota(w: World, step: Step, cfg: Config) {
    || (step.StartTrial? && !LedgerRuns.QuotaMatchesPlan(step.row, cfg))
    || (&& step.Save? && step.r in w.requests && w.requests[step.r].op.AssignPlan?
        && WellPlaced(w.requests[step.r], w.db.subscriptions) && GoesThrough(w.db, w.requests[step.r], cfg)
        && QuotaFor(w.requests[step.r].op, cfg) != ResolveContactQuota(w.requests[step.r].op.plan, cfg))
  }

  /** Does what the request makes of a row whose quota matches match too? */
  lemma IntendedQuota(row: Subscription, op: Operation, cfg: Config)
    requires LedgerRuns.QuotaMatchesPlan(row, cfg) && QuotaFor(op, cfg).Ok?
    ensures LedgerRuns.QuotaMatchesPlan(Intended(row, op, cfg), cfg)
            <==> !(op.AssignPlan? && QuotaFor(op, cfg) != ResolveContactQuota(op.plan, cfg))
  {
    hide ResolveContactQuota;
  }

  lemma SavePartsQuotaIff(w: World, r: RequestId, w': World, cfg: Config)
    requires Inv(w, cfg) && Next(w, Save(r), w', cfg) && QuotasMatch(w, cfg)
    ensures QuotasMatch(w', cfg) <==> !PartsQuota(w, Save(r), cfg)
  {
    hide Inv, Saved, QuotaFor, Intended, Inserted, Suits, Handled, Accepted, WritesBack, LedgerRuns.QuotaMatchesPlan;
    var rows, rows', q := w.db.subscriptions, w'.db.subscriptions, w.requests[r];
    RequestsAreSound(w, r, cfg);
    RowsLeft(w, Save(r), w', cfg);
    if q.read.Some? {
      IntendedQuota(q.read.value, q.op, cfg);
      IntendedQuota(rows[q.at], q.op, cfg);
      AssignmentsWriteBack(q);
      assert rows'[q.at] == LeftBy(w, Save(r), cfg);
    } else if Inserts(q.op) {
      InsertedQuota(q.op, cfg);
    }
  }

  lemma AssignmentsWriteBack(q: Request)
    ensures q.op.AssignPlan? && q.read.Some? ==> WritesBack(q.read.value, q.op)
  {
  }

  lemma InsertedQuota(op: Operation, cfg: Config)
    requires Inserts(op) && QuotaFor(op, cfg).Ok?
    ensures LedgerRuns.QuotaMatchesPlan(Inserted(op, cfg), cfg)
            <==> !(op.AssignPlan? && QuotaFor(op, cfg) != ResolveContactQuota(op.plan, cfg))
  {
    hide ResolveContactQuota;
  }

  lemma StepPartsQuotaIff(w: World, step: Step, w': World, cfg: Config)
    requires Inv(w, cfg) && Next(w, step, w', cfg) && QuotasMatch(w, cfg)
    ensures QuotasMatch(w', cfg) <==> !PartsQuota(w, step, cfg)
  {
    hide Inv, LedgerRuns.QuotaMatchesPlan;
    if step.Save? {
      SavePartsQuotaIff(w, step.r, w', cfg);
    } else {
      hide Saved, Proceeds, WithSession, Picks, ToldAccount;
      assert step.StartTrial? ==> w'.db.subscriptions[|w.db.subscriptions|] == step.row;
    }
  }

  /** Over all runs: every row has its plan's quota exactly as long as no such step comes. */
  lemma QuotasFollowPlansIff(run: seq<World>, steps: seq<Step>, cfg: Config)
    requires Run(run, steps, cfg)
    ensures (forall i :: 0 <= i < |run| ==> QuotasMatch(run[i], cfg))
        <==> (forall i :: 0 <= i < |steps| ==> !PartsQuota(run[i], steps[i], cfg))
  {
    hide Next, Inv, PartsQuota;
    forall i | 0 <= i < |steps| && QuotasMatch(run[i], cfg)
      ensures QuotasMatch(run[i + 1], cfg) <==> !PartsQuota(run[i], steps[i], cfg)
    {
      RunKeepsInv(run, steps, cfg, i);
      StepPartsQuotaIff(run[i], steps[i], run[i + 1], cfg);
    }
    KeptThroughoutIff(run, steps, (w: World) => QuotasMatch(w, cfg),
        (w: World, step: Step) => PartsQuota(w, step, cfg));
  }

  // ---- The pending cancellation ----

  ghost predicate FlagIsTold(row: Subscription, account: Account) {
    row.cancelAtPeriodEnd ==> forall s :: HasId(row, s) ==> s in account.ending
  }

  /** A row says that it ends with its period only if the provider will end it. */
  ghost predicate FlagsAreTold(w: World) {
    && (forall k :: 0 <= k < |w.db.subscriptions| ==> FlagIsTold(w.db.subscriptions[k], w.account))
    && (forall r :: r in w.requests && w.requests[r].read.Some? ==> FlagIsTold(w.requests[r].read.value, w.account))
  }

  /** An activation takes over a trial or past-due row that it read as one to end with its period. */
  ghost predicate KeepsFlag(w: World, step: Step, cfg: Config) {
    && step.Save? && step.r in w.requests
    && var q := w.requests[step.r];
    && q.op.Process? && q.op.event.Activated? && q.read.Some? && q.read.value.cancelAtPeriodEnd
    && WellPlaced(q, w.db.subscriptions) && GoesThrough(w.db, q, cfg)
  }

  /** What a save makes of a row that told the truth about its end. */
  lemma SavedFlag(row: Subscription, op: Operation, account: Account, cfg: Config)
    requires FlagIsTold(row, account) && Suits(row, op, cfg) && QuotaFor(op, cfg).Ok?
    requires op.CancelAtPeriodEnd? ==> row.externalId.value in account.ending
    requires op.Process? && op.event.Activated? ==> op.event.subscriptionId !in account.ending
    ensures FlagIsTold(Intended(row, op, cfg), account)
            <==> !(op.Process? && op.event.Activated? && row.cancelAtPeriodEnd)
  {
    hide ChargeFor, ResolveContactQuota;
    if op.Process? && op.event.Activated? {
      assert HasId(Intended(row, op, cfg), op.event.subscriptionId);
    } else {
      assert Intended(row, op, cfg).externalId == row.externalId;
      assert forall s :: HasId(Intended(row, op, cfg), s) == HasId(row, s);
    }
  }

  lemma SaveKeepsFlagIff(w: World, r: RequestId, w': World, cfg: Config)
    requires Inv(w, cfg) && Next(w, Save(r), w', cfg) && FlagsAreTold(w)
    ensures FlagsAreTold(w') <==> !KeepsFlag(w, Save(r), cfg)
  {
    hide Inv, Saved, QuotaFor, ChargeFor, GoesThrough, Intended, Suits, FlagIsTold;
    var rows, rows', q := w.db.subscriptions, w'.db.subscriptions, w.requests[r];
    RequestsAreSound(w, r, cfg);
    RowsLeft(w, Save(r), w', cfg);
    ProcessedIsNews(w, r, cfg);
    if q.read.Some? {
      assert FlagIsTold(q.read.value, w.account) && FlagIsTold(rows[q.at], w.account);
      SavedFlag(q.read.value, q.op, w.account, cfg);
      if q.op.ConsumeContact? {
        CountedKeepsFlag(rows[q.at], q.op, w.account, cfg);
      }
      assert rows'[q.at] == LeftBy(w, Save(r), cfg);
    } else if |rows'| > |rows| {
      InsertedIsUnflagged(q.op, w.account, cfg);
    }
  }

  lemma CountedKeepsFlag(row: Subscription, op: Operation, account: Account, cfg: Config)
    requires op.ConsumeContact? && FlagIsTold(row, account)
    ensures FlagIsTold(Intended(row, op, cfg), account)
  {
    assert forall s :: HasId(Intended(row, op, cfg), s) == HasId(row, s);
  }

  lemma InsertedIsUnflagged(op: Operation, account: Account, cfg: Config)
    requires Inserts(op)
    ensures FlagIsTold(Inserted(op, cfg), account)
  {
  }

  lemma OtherStepsKeepFlags(w: World, step: Step, w': World, cfg: Config)
    requires Inv(w, cfg) && Next(w, step, w', cfg) && FlagsAreTold(w) && !step.Save?
    ensures FlagsAreTold(w')
  {
    hide Inv, Saved, Proceeds, FindOne, Picks, ChargeFor, HasId;
    assert w.account.ending <= w'.account.ending;
    assert step.StartTrial? ==> !step.row.cancelAtPeriodEnd;
  }

  lemma StepKeepsFlagIff(w: World, step: Step, w': World, cfg: Config)
    requires Inv(w, cfg) && Next(w, step, w', cfg) && FlagsAreTold(w)
    ensures FlagsAreTold(w') <==> !KeepsFlag(w, step, cfg)
  {
    hide Inv, Next, FlagsAreTold, GoesThrough;
    if step.Save? {
      SaveKeepsFlagIff(w, step.r, w', cfg);
    } else {
      OtherStepsKeepFlags(w, step, w', cfg);
    }
  }

  /** Over all runs: every flag is known to the provider exactly as long as no activation takes a flagged row over. */
  lemma FlagsAreToldIff(run: seq<World>, steps: seq<Step>, cfg: Config)
    requires Run(run, steps, cfg)
    ensures (forall i :: 0 <= i < |run| ==> FlagsAreTold(run[i]))
        <==> (forall i :: 0 <= i < |steps| ==> !KeepsFlag(run[i], steps[i], cfg))
  {
    hide Next, Inv, KeepsFlag, FlagIsTold;
    forall i | 0 <= i < |steps| && FlagsAreTold(run[i])
      ensures FlagsAreTold(run[i + 1]) <==> !KeepsFlag(run[i], steps[i], cfg)
    {
      RunKeepsInv(run, steps, cfg, i);
      StepKeepsFlagIff(run[i], steps[i], run[i + 1], cfg);
    }
    KeptThroughoutIff(run, steps, (w: World) => FlagsAreTold(w), (w: World, step: Step) => KeepsFlag(w, step, cfg));
  }

  // ---- One live row per company ----

  lemma StoringKeepsOneLive(rows: seq<Subscription>, at: nat, row: Subscription)
    requires OneLivePerCompany(rows) && at <= |rows| && !ViolatesActiveIndex(rows, at, row)
    ensures OneLivePerCompany(if at < |rows| then rows[at := row] else rows + [row])
  {
  }

  lemma PlacingKeepsOneLive(rows: seq<Subscription>, q: Request, cfg: Config)
    requires OneLivePerCompany(rows) && WellPlaced(q, rows)
    requires PlacesRow(q) && !(q.read.Some? && q.op.Process? && !WritesBack(q.read.value, q.op))
             ==> Accepted(rows, q, cfg)
    ensures OneLivePerCompany(Placed(rows, q, cfg))
  {
    hide OneLivePerCompany, ViolatesActiveIndex, Intended, Inserted, WritesBack;
    if PlacesRow(q) {
      if q.read.Some? && q.op.Process? && !WritesBack(q.read.value, q.op) {
        assert rows[q.at := rows[q.at]] == rows;
      } else {
        StoringKeepsOneLive(rows, Place(rows, q), Writes(rows, q, cfg));
      }
    }
  }

  lemma StepKeepsOneLive(w: World, step: Step, w': World, cfg: Config)
    requires Inv(w, cfg) && Next(w, step, w', cfg) && OneLivePerCompany(w.db.subscriptions)
    ensures OneLivePerCompany(w'.db.subscriptions)
  {
    hide Inv, OneLivePerCompany, ViolatesActiveIndex, Proceeds, WithSession, ToldAccount, Saved, GoesThrough, Placed,
      Accepted, WritesBack;
    var rows := w.db.subscriptions;
    if step.Save? {
      RequestsAreSound(w, step.r, cfg);
      SavedTables(w.db, w.requests[step.r], w.account.ending, cfg);
      if GoesThrough(w.db, w.requests[step.r], cfg) {
        PlacingKeepsOneLive(rows, w.requests[step.r], cfg);
      }
    } else if step.StartTrial? {
      StoringKeepsOneLive(rows, |rows|, step.row);
    }
  }

  /** Stale or not, no save ever gives a company a second trial or active row. */
  lemma {:induction false} OneLiveEverywhere(run: seq<World>, steps: seq<Step>, cfg: Config, i: nat)
    requires Run(run, steps, cfg) && i < |run|
    ensures OneLivePerCompany(run[i].db.subscriptions)
  {
    if i > 0 {
      hide Next, Inv;
      OneLiveEverywhere(run, steps, cfg, i - 1);
      RunKeepsInv(run, steps, cfg, i - 1);
      StepKeepsOneLive(run[i - 1], steps[i - 1], run[i], cfg);
    }
  }

  // ---- Paid periods ----

  /** Row `at` is paid for by subscription s and ends at `end`. */
  predicate EndsAt(w: World, at: nat, s: ProviderSubscriptionId, end: Instant) {
    at < |w.db.subscriptions| && HasId(w.db.subscriptions[at], s) && w.db.subscriptions[at].endsAt == Some(end)
  }

  /** The step commits a renewal of subscription s. */
  ghost predicate Renews(w: World, step: Step, s: ProviderSubscriptionId, cfg: Config) {
    && step.Save? && step.r in w.requests
    && var q := w.requests[step.r];
    && q.op.Process? && q.op.event.Renewed? && q.op.event.subscriptionId == s
    && WellPlaced(q, w.db.subscriptions) && GoesThrough(w.db, q, cfg)
  }

  ghost function RenewalsIn(run: seq<World>, steps: seq<Step>, i: nat, n: nat, s: ProviderSubscriptionId, cfg: Config)
    : nat
    requires i <= n <= |steps| < |run|
  {
    if i == n then 0
    else RenewalsIn(run, steps, i, n - 1, s, cfg) + if Renews(run[n - 1], steps[n - 1], s, cfg) then 1 else 0
  }

  /** The end that a save takes its row to have: it saves that end, or extends it. */
  function TakenForEnd(q: Request): Option<Instant>
    requires q.read.Some?
  {
    match q.op
    case CancelNow(_, now) => Some(now)
    case RedeemTrial(_, _, endsAt) => Some(endsAt)
    case AssignPlan(_, _, _, _) => None
    case Process(event, env) =>
      if event.Renewed? && q.read.value.endsAt.None? then Some(env.now) else q.read.value.endsAt
    case _ => q.read.value.endsAt
  }

  /**
   The saves that take row `at` off the periods paid for: an activation, and what was read when
   the row had another subscription, or takes it to have another end than it has.
   */
  ghost predicate Derails(w: World, step: Step, at: nat, cfg: Config) {
    && step.Save? && step.r in w.requests
    && var rows, q := w.db.subscriptions, w.requests[step.r];
    && q.read.Some? && q.at == at < |rows| && GoesThrough(w.db, q, cfg) && WritesBack(q.read.value, q.op)
    && (|| NewId(q).Some?
        || q.read.value.externalId != rows[at].externalId
        || TakenForEnd(q) != rows[at].endsAt)
  }

  /** The end that a save writes back. */
  lemma SavedEnd(row: Subscription, q: Request, cfg: Config)
    requires q.read == Some(row) && Suits(row, q.op, cfg) && QuotaFor(q.op, cfg).Ok? && WritesBack(row, q.op)
    ensures var row' := Intended(row, q.op, cfg);
            && row'.externalId == (if NewId(q).Some? then NewId(q) else row.externalId)
            && (q.op.Process? && q.op.event.Renewed? ==> TakenForEnd(q).Some?)
            && (NewId(q).None? ==>
                  row'.endsAt == if q.op.Process? && q.op.event.Renewed?
                                 then Some(AddDays(TakenForEnd(q).value, BILLING_PERIOD_DAYS)) else TakenForEnd(q))
  {
    hide ResolveContactQuota, ChargeFor;
  }

  lemma SaveDerailsIff(w: World, r: RequestId, w': World, cfg: Config, at: nat, s: ProviderSubscriptionId, end: Instant)
    requires Inv(w, cfg) && Next(w, Save(r), w', cfg) && EndsAt(w, at, s, end)
    ensures EndsAt(w', at, s, AddDays(end, if Renews(w, Save(r), s, cfg) then BILLING_PERIOD_DAYS else 0))
            <==> !Derails(w, Save(r), at, cfg)
  {
    hide Inv, Saved, QuotaFor, GoesThrough, Intended, Suits, WritesBack, TakenForEnd;
    var rows, rows', q := w.db.subscriptions, w'.db.subscriptions, w.requests[r];
    RequestsAreSound(w, r, cfg);
    RowsLeft(w, Save(r), w', cfg);
    RenewalIsOfItsRow(w, r, at, s, cfg);
    if q.read.Some? && q.at == at && GoesThrough(w.db, q, cfg) {
      ProcessedIsNews(w, r, cfg);
      if WritesBack(q.read.value, q.op) {
        SavedEnd(q.read.value, q, cfg);
        RenewalIsOfItsSubscription(q, cfg);
      } else {
        UnwrittenEnd(rows, q, cfg);
      }
    }
  }

  lemma UnwrittenEnd(rows: seq<Subscription>, q: Request, cfg: Config)
    requires WellPlaced(q, rows) && q.read.Some? && !WritesBack(q.read.value, q.op)
    ensures var row' := Writes(rows, q, cfg);
            row'.externalId == rows[q.at].externalId && row'.endsAt == rows[q.at].endsAt
    ensures !(q.op.Process? && q.op.event.Renewed?)
  {
  }

  lemma RenewalIsOfItsSubscription(q: Request, cfg: Config)
    requires q.read.Some? && Suits(q.read.value, q.op, cfg)
    ensures q.op.Process? && q.op.event.Renewed? ==> q.read.value.externalId == Some(q.op.event.subscriptionId)
  {
  }

  /** A renewal of a subscription is about the row that has it. */
  lemma RenewalIsOfItsRow(w: World, r: RequestId, at: nat, s: ProviderSubscriptionId, cfg: Config)
    requires Inv(w, cfg) && r in w.requests && at < |w.db.subscriptions| && HasId(w.db.subscriptions[at], s)
    ensures Renews(w, Save(r), s, cfg)
            ==> && w.requests[r].read.Some? && w.requests[r].at == at
                && WritesBack(w.requests[r].read.value, w.requests[r].op)
  {
    hide Known, EmittedInv, Priced, InFlight, GoesThrough;
    RequestsAreSound(w, r, cfg);
    var q := w.requests[r];
    assert Renews(w, Save(r), s, cfg) ==> ReadId(q, s);
  }

  lemma StepDerailsIff(w: World, step: Step, w': World, cfg: Config, at: nat, s: ProviderSubscriptionId, end: Instant)
    requires Inv(w, cfg) && Next(w, step, w', cfg) && EndsAt(w, at, s, end)
    ensures EndsAt(w', at, s, AddDays(end, if Renews(w, step, s, cfg) then BILLING_PERIOD_DAYS else 0))
            <==> !Derails(w, step, at, cfg)
  {
    hide Inv, Next, GoesThrough;
    if step.Save? {
      SaveDerailsIff(w, step.r, w', cfg, at, s, end);
    } else {
      OnlySavesWriteRows(w, step, w', cfg);
    }
  }

  /** The row that a processed activation takes or inserts has its subscription, for one period from then. */
  lemma ActivationStartsThePeriod(w: World, r: RequestId, w': World, cfg: Config)
    requires Inv(w, cfg) && Next(w, Save(r), w', cfg)
    requires w.requests[r].op.Process? && w.requests[r].op.event.Activated?
    requires GoesThrough(w.db, w.requests[r], cfg)
    ensures var q := w.requests[r];
            EndsAt(w', Place(w.db.subscriptions, q), q.op.event.subscriptionId,
                   AddDays(q.op.env.now, BILLING_PERIOD_DAYS))
  {
    hide Inv, Saved, GoesThrough, ResolveContactQuota;
    RequestsAreSound(w, r, cfg);
    RowsLeft(w, Save(r), w', cfg);
  }

  /** At moment n row `at` ends one period after t, and one more for each renewal committed since moment i. */
  ghost predicate OnSchedule(run: seq<World>, steps: seq<Step>, i: nat, n: nat, at: nat, s: ProviderSubscriptionId,
          t: Instant, cfg: Config)
    requires i <= n <= |steps| < |run|
  {
    EndsAt(run[n], at, s, PeriodEnd(t, RenewalsIn(run, steps, i, n, s, cfg)))
  }

  function PeriodEnd(t: Instant, renewals: nat): Instant {
    AddDays(t, BILLING_PERIOD_DAYS * (renewals + 1))
  }

  /**
   A row activated at t by subscription s at step i ends, as long as k renewals of s have been
   committed since, at t + 30 (k + 1) days at every moment up to j, exactly when no step until
   then takes it off the periods paid for.
   */
  lemma PaidPeriodsAddUpIff(run: seq<World>, steps: seq<Step>, cfg: Config, i: nat, j: nat)
    requires Run(run, steps, cfg) && i < j < |run| && steps[i].Save? && steps[i].r in run[i].requests
    requires var q := run[i].requests[steps[i].r];
             && q.op.Process? && q.op.event.Activated?
             && WellPlaced(q, run[i].db.subscriptions) && GoesThrough(run[i].db, q, cfg)
    ensures var q := run[i].requests[steps[i].r];
            var at, s, t := Place(run[i].db.subscriptions, q), q.op.event.subscriptionId, q.op.env.now;
            (forall n :: i < n <= j ==> OnSchedule(run, steps, i, n, at, s, t, cfg))
            <==> (forall n :: i < n < j ==> !Derails(run[n], steps[n], at, cfg))
  {
    hide Next, Inv, Derails, EndsAt, GoesThrough, RenewalsIn;
    var q := run[i].requests[steps[i].r];
    var at, s, t := Place(run[i].db.subscriptions, q), q.op.event.subscriptionId, q.op.env.now;
    assert Next(run[i], steps[i], run[i + 1], cfg);
    RunKeepsInv(run, steps, cfg, i);
    ActivationStartsThePeriod(run[i], steps[i].r, run[i + 1], cfg);
    ActivationIsNoRenewal(run, steps, i, s, cfg);
    PeriodsAddUpFrom(run, steps, cfg, i, i + 1, j, at, s, t);
  }

  lemma ActivationIsNoRenewal(run: seq<World>, steps: seq<Step>, i: nat, s: ProviderSubscriptionId, cfg: Config)
    requires i < |steps| < |run| && steps[i].Save? && steps[i].r in run[i].requests
    requires run[i].requests[steps[i].r].op.Process? && run[i].requests[steps[i].r].op.event.Activated?
    ensures RenewalsIn(run, steps, i, i + 1, s, cfg) == 0
  {
    hide GoesThrough;
    assert !Renews(run[i], steps[i], s, cfg);
  }

  lemma PeriodsAddUpFrom(run: seq<World>, steps: seq<Step>, cfg: Config, i: nat, m: nat, j: nat, at: nat,
          s: ProviderSubscriptionId, t: Instant)
    requires Run(run, steps, cfg) && i <= m <= j < |run| && OnSchedule(run, steps, i, m, at, s, t, cfg)
    ensures (forall n :: m <= n <= j ==> OnSchedule(run, steps, i, n, at, s, t, cfg))
            <==> (forall n :: m <= n < j ==> !Derails(run[n], steps[n], at, cfg))
  {
    hide Next, Inv, Derails, OnSchedule;
    var kept := (n: nat) => i <= n <= |steps| && OnSchedule(run, steps, i, n, at, s, t, cfg);
    var breaks := (n: nat) => n < |steps| && Derails(run[n], steps[n], at, cfg);
    forall n | m <= n < j && kept(n)
      ensures kept(n + 1) <==> !breaks(n)
    {
      RunKeepsInv(run, steps, cfg, n);
      ScheduleMoves(run, steps, cfg, i, n, at, s, t);
    }
    KeptBetweenIff(m, j, kept, breaks);
    assert forall n :: m <= n <= j ==> kept(n) == OnSchedule(run, steps, i, n, at, s, t, cfg);
    assert forall n :: m <= n < j ==> breaks(n) == Derails(run[n], steps[n], at, cfg);
  }

  lemma ScheduleMoves(run: seq<World>, steps: seq<Step>, cfg: Config, i: nat, n: nat, at: nat,
          s: ProviderSubscriptionId, t: Instant)
    requires Run(run, steps, cfg) && i <= n < |steps| && Inv(run[n], cfg) && OnSchedule(run, steps, i, n, at, s, t, cfg)
    ensures OnSchedule(run, steps, i, n + 1, at, s, t, cfg) <==> !Derails(run[n], steps[n], at, cfg)
  {
    hide Next, Inv, Derails, EndsAt, Renews;
    assert Next(run[n], steps[n], run[n + 1], cfg);
    StepDerailsIff(run[n], steps[n], run[n + 1], cfg, at, s, PeriodEnd(t, RenewalsIn(run, steps, i, n, s, cfg)));
  }

  /** Saving the row as it still is takes it off only by cancelling, redeeming, assigning or activating. */
  lemma FreshSaveDerailsIff(w: World, r: RequestId, cfg: Config, at: nat, s: ProviderSubscriptionId, end: Instant)
    requires Inv(w, cfg) && r in w.requests && EndsAt(w, at, s, end)
    requires w.requests[r].at == at && w.requests[r].read == Some(w.db.subscriptions[at])
    requires GoesThrough(w.db, w.requests[r], cfg)
    ensures Derails(w, Save(r), at, cfg)
            <==> match w.requests[r].op
                 case CancelNow(_, now) => now != end
                 case RedeemTrial(_, _, endsAt) => endsAt != end
                 case AssignPlan(_, _, _, _) => true
                 case Process(event, _) => event.Activated?
                 case _ => false
  {
    hide Inv, GoesThrough;
  }
}
