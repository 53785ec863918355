/**
 Trial-code redemption as interleaved transactions (src/modules/billing/trial-code-redemption.service.ts),
 and the revocation of a code between them (src/modules/billing/trial-code-admin.service.ts).
 */
module TrialRedemption {
  import opened Common
  import opened BillingTypes

  datatype TrialCode = TrialCode(
    plan: Plan, trialDurationDays: int, maxUses: nat, usedCount: nat, active: bool, expiresAt: Option<Instant>)

  /** The company's TRIAL subscription row, as far as a redemption touches it. */
  datatype TrialRow = TrialRow(plan: Plan, contactQuota: nat, endsAt: Option<Instant>)

  datatype Redemption = Redemption(code: string, companyId: CompanyId)

  datatype Tables = Tables(
    codes: map<string, TrialCode>, redemptions: seq<Redemption>, trials: map<CompanyId, TrialRow>)

  datatype RedeemError =
    | TrialCodeNotEligible
    | InvalidTrialCode
    | TrialCodeAlreadyRedeemed
    | QuotaError(error: BillingError)

  predicate IsCurrentlyRedeemable(code: TrialCode, now: Instant) {
    && code.active
    && !(code.expiresAt.Some? && code.expiresAt.value <= now)
    && code.usedCount < code.maxUses
  }

  predicate HasRedeemed(redemptions: seq<Redemption>, companyId: CompanyId) {
    exists i :: 0 <= i < |redemptions| && redemptions[i].companyId == companyId
  }

  // ---- One redemption on its own ----

  /** The transaction's effect on the tables when nothing else runs. */
  function Redeemed(db: Tables, companyId: CompanyId, code: string, now: Instant, cfg: Config)
    : Result<Tables, RedeemError>
  {
    if companyId !in db.trials then Err(TrialCodeNotEligible)
    else if code !in db.codes || !IsCurrentlyRedeemable(db.codes[code], now) then Err(InvalidTrialCode)
    else if HasRedeemed(db.redemptions, companyId) then Err(TrialCodeAlreadyRedeemed)
    else
      var c := db.codes[code];
      if ResolveContactQuota(c.plan, cfg).Err? then Err(QuotaError(ResolveContactQuota(c.plan, cfg).error))
      else
        Ok(Tables(db.codes[code := c.(usedCount := c.usedCount + 1)],
                  db.redemptions + [Redemption(code, companyId)],
                  db.trials[companyId := UpgradedTrial(c, now, cfg)]))
  }

  function UpgradedTrial(c: TrialCode, now: Instant, cfg: Config): TrialRow
    requires ResolveContactQuota(c.plan, cfg).Ok?
  {
    TrialRow(c.plan, ResolveContactQuota(c.plan, cfg).value, Some(AddDays(now, c.trialDurationDays)))
  }

  /** The trial that a code is worth: its plan, that plan's quota, and its days from the moment of redemption. */
  predicate IsGrant(trial: TrialRow, c: TrialCode, now: Instant, cfg: Config) {
    && trial.plan == c.plan && !c.plan.Enterprise? && c.plan in cfg.quotas
    && trial.contactQuota == cfg.quotas[c.plan]
    && trial.endsAt == Some(now + c.trialDurationDays * 86_400_000)
  }

  class TrialCodeRedemptionService {
    var codes: map<string, TrialCode>
    var redemptions: seq<Redemption>
    var trials: map<CompanyId, TrialRow>

    function Contents(): Tables
      reads this
    {
      Tables(codes, redemptions, trials)
    }

    /** The statements of the transaction; on an error the tables are left as far as it got. */
    method RedeemInTransaction(companyId: CompanyId, code: string, now: Instant, cfg: Config)
      returns (r: Result<TrialRow, RedeemError>)
      modifies this
      ensures Redeemed(old(Contents()), companyId, code, now, cfg).Err?
              ==> r == Err(Redeemed(old(Contents()), companyId, code, now, cfg).error)
      ensures Redeemed(old(Contents()), companyId, code, now, cfg).Ok?
              ==> Contents() == Redeemed(old(Contents()), companyId, code, now, cfg).value
                  && companyId in trials && r == Ok(trials[companyId])
    {
      if companyId !in trials {
        return Err(TrialCodeNotEligible);
      }
      var subscription := trials[companyId];
      if code !in codes || !IsCurrentlyRedeemable(codes[code], now) {
        return Err(InvalidTrialCode);
      }
      var trialCode := codes[code];
      if HasRedeemed(redemptions, companyId) {
        return Err(TrialCodeAlreadyRedeemed);
      }
      redemptions := redemptions + [Redemption(code, companyId)];
      if !(codes[code].usedCount < codes[code].maxUses && codes[code].active) {
        return Err(InvalidTrialCode);
      }
      codes := codes[code := codes[code].(usedCount := codes[code].usedCount + 1)];
      var quota := ResolveContactQuota(trialCode.plan, cfg);
      if quota.Err? {
        return Err(QuotaError(quota.error));
      }
      subscription := subscription.(plan := trialCode.plan, contactQuota := quota.value,
                                    endsAt := Some(AddDays(now, trialCode.trialDurationDays)));
      trials := trials[companyId := subscription];
      r := Ok(subscription);
    }

    /** `dataSource.transaction`: an error rolls back what was written, so a failed redemption consumes nothing. */
    method Redeem(companyId: CompanyId, code: string, now: Instant, cfg: Config)
      returns (r: Result<TrialRow, RedeemError>)
      modifies this
      ensures r.Ok? <==> Redeemed(old(Contents()), companyId, code, now, cfg).Ok?
      ensures r.Err? ==> Contents() == old(Contents())
                         && r.error == Redeemed(old(Contents()), companyId, code, now, cfg).error
      ensures r.Ok? ==> Contents() == Redeemed(old(Contents()), companyId, code, now, cfg).value
                        && companyId in trials && r.value == trials[companyId]
      ensures r.Ok? ==> code in old(codes) && IsGrant(r.value, old(codes)[code], now, cfg)
    {
      var saved := Contents();
      r := RedeemInTransaction(companyId, code, now, cfg);
      if r.Err? {
        codes, redemptions, trials := saved.codes, saved.redemptions, saved.trials;
      }
    }
  }

  // ---- What a redemption grants, and what is refused ----

  /** Whoever has no trial is not eligible. */
  lemma RedemptionSucceedsIff(db: Tables, companyId: CompanyId, code: string, now: Instant, cfg: Config)
    ensures var r := Redeemed(db, companyId, code, now, cfg);
            var onTrial := companyId in db.trials;
            var usable := && code in db.codes && db.codes[code].active
                          && (db.codes[code].expiresAt.Some? ==> db.codes[code].expiresAt.value > now)
                          && db.codes[code].usedCount < db.codes[code].maxUses;
            var redeemed := exists i :: 0 <= i < |db.redemptions| && db.redemptions[i].companyId == companyId;
            && (r == Err(TrialCodeNotEligible) <==> !onTrial)
            && (r == Err(InvalidTrialCode) <==> onTrial && !usable)
            && (r == Err(TrialCodeAlreadyRedeemed) <==> onTrial && usable && redeemed)
            && (r.Ok? <==> && onTrial && usable && !redeemed
                           && !db.codes[code].plan.Enterprise? && db.codes[code].plan in cfg.quotas)
  {
  }

  lemma RedemptionGrants(db: Tables, companyId: CompanyId, code: string, now: Instant, cfg: Config)
    requires Redeemed(db, companyId, code, now, cfg).Ok?
    ensures code in db.codes && companyId in db.trials
    ensures var db' := Redeemed(db, companyId, code, now, cfg).value;
            && companyId in db'.trials && IsGrant(db'.trials[companyId], db.codes[code], now, cfg)
            && db'.trials - {companyId} == db.trials - {companyId}
            && db'.redemptions == db.redemptions + [Redemption(code, companyId)]
            && db'.codes == db.codes[code := db.codes[code].(usedCount := db.codes[code].usedCount + 1)]
  {
  }

  // ---- Interleaved redemptions ----

  /** How far a transaction got. It keeps the rows it read, however stale they become, and the count it wrote. */
  datatype Phase =
    | Started
    | Eligible(trial: TrialRow)
    | CodeRead(trial: TrialRow, snapshot: TrialCode)
    | RowInserted(trial: TrialRow, snapshot: TrialCode)
    | Claimed(trial: TrialRow, snapshot: TrialCode, usedCount: nat)
    | Saved(trial: TrialRow, snapshot: TrialCode, usedCount: nat)

  datatype Tx = Tx(companyId: CompanyId, code: string, now: Instant, phase: Phase)

  type TxId = nat

  /**
   A revocation under way: the row it read and, once `save` has compared that with the row it finds,
   whether the count is among the columns to be written back.
   */
  datatype Revocation = Revocation(text: string, snapshot: TrialCode, writesCount: Option<bool>)

  type RevocationId = nat

  datatype Db = Db(tables: Tables, open: map<TxId, Tx>, revocations: map<RevocationId, Revocation>)

  datatype Statement =
    | FindTrial
    | FindCode
    | InsertRedemption
    | ClaimUse
    | SaveSubscription
    | Commit
    | Abort

  datatype Step =
    | Begin(companyId: CompanyId, code: string, now: Instant)
    | Do(statement: Statement)
    | CreateCode(text: string, created: TrialCode)
    | ReadForRevocation(v: RevocationId, text: string)
    | CompareForRevocation(v: RevocationId)
    | WriteRevocation(v: RevocationId)
    | DropRevocation(v: RevocationId)
    | OtherServiceWritesTrial(company: CompanyId, row: Option<TrialRow>)

  predicate HasInserted(tx: Tx) {
    tx.phase.RowInserted? || HasClaimed(tx)
  }

  predicate HasClaimed(tx: Tx) {
    tx.phase.Claimed? || tx.phase.Saved?
  }

  predicate InsertPendingElsewhere(db: Db, t: TxId, companyId: CompanyId) {
    exists u :: u in db.open && u != t && db.open[u].companyId == companyId && HasInserted(db.open[u])
  }

  predicate ClaimPendingElsewhere(db: Db, t: TxId, code: string) {
    exists u :: u in db.open && u != t && db.open[u].code == code && HasClaimed(db.open[u])
  }

  predicate ClaimPending(db: Db, code: string) {
    exists u :: u in db.open && db.open[u].code == code && HasClaimed(db.open[u])
  }

  /** A redemption has saved the company's row and holds its lock. */
  predicate TrialPending(db: Db, companyId: CompanyId) {
    exists u :: u in db.open && db.open[u].companyId == companyId && db.open[u].phase.Saved?
  }

  function Revoked(db: Db, rev: Revocation): TrialCode
    requires rev.text in db.tables.codes
  {
    var code := db.tables.codes[rev.text];
    code.(active := false, usedCount := if rev.writesCount == Some(true)
        then rev.snapshot.usedCount else code.usedCount)
  }

  function At(db: Db, t: TxId, tx: Tx): Db {
    db.(open := db.open[t := tx])
  }

  /** A statement is enabled when it need not wait for a lock and does not make the transaction throw. */
  ghost predicate Next(db: Db, t: TxId, step: Step, db': Db, cfg: Config) {
    match step
    case Begin(companyId, code, now) =>
      t !in db.open && db' == At(db, t, Tx(companyId, code, now, Started))
    case CreateCode(text, created) =>
      && text !in db.tables.codes && created.usedCount == 0
      && db' == db.(tables := db.tables.(codes := db.tables.codes[text := created]))
    case ReadForRevocation(v, text) =>
      && v !in db.revocations && text in db.tables.codes && db.tables.codes[text].active
      && db' == db.(revocations := db.revocations[v := Revocation(text, db.tables.codes[text], None)])
    case CompareForRevocation(v) =>
      && v in db.revocations && db.revocations[v].writesCount.None? && db.revocations[v].text in db.tables.codes
      && var rev := db.revocations[v];
      && db' == db.(revocations := db.revocations[
           v := rev.(writesCount := Some(db.tables.codes[rev.text].usedCount != rev.snapshot.usedCount))])
    case WriteRevocation(v) =>
      && v in db.revocations && db.revocations[v].writesCount.Some? && db.revocations[v].text in db.tables.codes
      && !ClaimPending(db, db.revocations[v].text)
      && db' == db.(tables := db.tables.(codes := db.tables.codes[db.revocations[v].text := Revoked(db,
          db.revocations[v])]),
                    revocations := db.revocations - {v})
    case DropRevocation(v) =>
      v in db.revocations && db' == db.(revocations := db.revocations - {v})
    case OtherServiceWritesTrial(company, row) =>
      && !TrialPending(db, company)
      && db' == db.(tables := db.tables.(trials := if row.Some? then db.tables.trials[company := row.value]
                                                else db.tables.trials - {company}))
    case Do(statement) =>
      t in db.open && Executes(db, t, db.open[t], statement, db', cfg)
  }

  ghost predicate Executes(db: Db, t: TxId, tx: Tx, statement: Statement, db': Db, cfg: Config) {
    var tables := db.tables;
    match statement
    case FindTrial =>
      && tx.phase.Started?
      && tx.companyId in tables.trials
      && db' == At(db, t, tx.(phase := Eligible(tables.trials[tx.companyId])))
    case FindCode =>
      && tx.phase.Eligible?
      && tx.code in tables.codes && IsCurrentlyRedeemable(tables.codes[tx.code], tx.now)
      && db' == At(db, t, tx.(phase := CodeRead(tx.phase.trial, tables.codes[tx.code])))
    case InsertRedemption =>
      && tx.phase.CodeRead?
      && !InsertPendingElsewhere(db, t, tx.companyId)
      && !HasRedeemed(tables.redemptions, tx.companyId)
      && db' == At(db, t, tx.(phase := RowInserted(tx.phase.trial, tx.phase.snapshot)))
    case ClaimUse =>
      && tx.phase.RowInserted?
      && !ClaimPendingElsewhere(db, t, tx.code)
      && tx.code in tables.codes
      && tables.codes[tx.code].usedCount < tables.codes[tx.code].maxUses && tables.codes[tx.code].active
      && db' == At(db, t, tx.(phase := Claimed(tx.phase.trial, tx.phase.snapshot, tables.codes[tx.code].usedCount + 1)))
    case SaveSubscription =>
      && tx.phase.Claimed?
      && ResolveContactQuota(tx.phase.snapshot.plan, cfg).Ok?
      && db' == At(db, t,
          tx.(phase := Saved(UpgradedTrial(tx.phase.snapshot, tx.now, cfg), tx.phase.snapshot, tx.phase.usedCount)))
    case Commit =>
      && tx.phase.Saved?
      && tx.code in tables.codes
      && db' == db.(tables := Tables(tables.codes[tx.code := tables.codes[tx.code].(usedCount := tx.phase.usedCount)],
                                     tables.redemptions + [Redemption(tx.code, tx.companyId)],
                                     tables.trials[tx.companyId := tx.phase.trial]),
                    open := db.open - {t})
    case Abort =>
      db' == db.(open := db.open - {t})
  }

  function Uses(redemptions: seq<Redemption>, code: string): nat {
    if redemptions == [] then 0
    else Uses(redemptions[..|redemptions| - 1], code) + if redemptions[|redemptions| - 1].code == code then 1 else 0
  }

  /** Every use of a code is one committed redemption, a company redeems once, Enterprise codes never. */
  ghost predicate Conserved(tables: Tables) {
    && (forall code :: code in tables.codes ==>
          tables.codes[code].usedCount == Uses(tables.redemptions, code) <= tables.codes[code].maxUses)
    && (forall i, j :: 0 <= i < j < |tables.redemptions|
          ==> tables.redemptions[i].companyId != tables.redemptions[j].companyId)
    && (forall i :: 0 <= i < |tables.redemptions| ==>
          && tables.redemptions[i].code in tables.codes
          && !tables.codes[tables.redemptions[i].code].plan.Enterprise?)
  }

  ghost predicate TxInv(db: Db, t: TxId)
    requires t in db.open
  {
    var tx := db.open[t];
    && (HasInserted(tx) || tx.phase.CodeRead? ==>
          tx.code in db.tables.codes && tx.phase.snapshot.plan == db.tables.codes[tx.code].plan)
    && (HasInserted(tx) ==> !HasRedeemed(db.tables.redemptions, tx.companyId)
                            && !InsertPendingElsewhere(db, t, tx.companyId))
    && (HasClaimed(tx) ==>
          && !ClaimPendingElsewhere(db, t, tx.code)
          && tx.phase.usedCount == db.tables.codes[tx.code].usedCount + 1 <= db.tables.codes[tx.code].maxUses)
    && (tx.phase.Saved? ==> !tx.phase.snapshot.plan.Enterprise?)
  }

  /** Counts only grow, so what a revocation read is at most what is there, and less once it is to be written. */
  ghost predicate RevocationInv(db: Db, v: RevocationId)
    requires v in db.revocations
  {
    var rev := db.revocations[v];
    && rev.text in db.tables.codes
    && rev.snapshot.usedCount <= db.tables.codes[rev.text].usedCount
    && (rev.writesCount == Some(true) ==> rev.snapshot.usedCount < db.tables.codes[rev.text].usedCount)
  }

  ghost predicate Inv(db: Db) {
    && Conserved(db.tables)
    && (forall t :: t in db.open ==> TxInv(db, t))
    && (forall v :: v in db.revocations ==> RevocationInv(db, v))
  }

  lemma CommitConserves(db: Db, t: TxId, db': Db, cfg: Config)
    requires Inv(db) && Next(db, t, Do(Commit), db', cfg)
    ensures Conserved(db'.tables)
  {
    assert TxInv(db, t);
    var tx := db.open[t];
    assert db'.tables.redemptions[..|db.tables.redemptions|] == db.tables.redemptions;
    forall i, j | 0 <= i < j < |db'.tables.redemptions|
      ensures db'.tables.redemptions[i].companyId != db'.tables.redemptions[j].companyId
    {
      assert i < |db.tables.redemptions| ==> db.tables.redemptions[i].companyId != tx.companyId;
    }
  }

  lemma {:induction false} NewCodeHasNoUses(redemptions: seq<Redemption>, code: string)
    requires forall i :: 0 <= i < |redemptions| ==> redemptions[i].code != code
    ensures Uses(redemptions, code) == 0
  {
    if redemptions != [] {
      NewCodeHasNoUses(redemptions[..|redemptions| - 1], code);
    }
  }

  /** What another open transaction relies on survives a statement of transaction t. */
  lemma OthersAreNotDisturbed(db: Db, t: TxId, statement: Statement, db': Db, cfg: Config, u: TxId)
    requires Inv(db) && Next(db, t, Do(statement), db', cfg) && u in db'.open && u != t
    ensures TxInv(db', u)
  {
    hide Conserved, RevocationInv, IsCurrentlyRedeemable, UpgradedTrial;
    var tx, other := db.open[t], db.open[u];
    assert TxInv(db, u) && TxInv(db, t);
    assert HasInserted(tx) && other.companyId == tx.companyId ==> !HasInserted(other);
    assert HasClaimed(tx) && other.code == tx.code ==> !HasClaimed(other);
    if statement == Commit {
      assert db'.tables.redemptions[..|db.tables.redemptions|] == db.tables.redemptions;
      assert HasRedeemed(db'.tables.redemptions, other.companyId)
             ==> HasRedeemed(db.tables.redemptions, other.companyId) || other.companyId == tx.companyId;
    } else {
      assert db'.tables == db.tables;
    }
  }

  lemma OwnProgressIsSound(db: Db, t: TxId, statement: Statement, db': Db, cfg: Config)
    requires Inv(db) && Next(db, t, Do(statement), db', cfg) && t in db'.open
    ensures TxInv(db', t)
  {
    assert TxInv(db, t);
    assert forall u :: u in db.open && u != t ==> u in db'.open && db'.open[u] == db.open[u];
  }

  lemma NextKeepsTxInv(db: Db, t: TxId, step: Step, db': Db, cfg: Config, u: TxId)
    requires Inv(db) && Next(db, t, step, db', cfg) && u in db'.open && !WritesStaleCount(db, step)
    ensures TxInv(db', u)
  {
    hide RevocationInv, IsCurrentlyRedeemable, UpgradedTrial;
    if step.Do? {
      if u == t {
        OwnProgressIsSound(db, t, step.statement, db', cfg);
      } else {
        OthersAreNotDisturbed(db, t, step.statement, db', cfg, u);
      }
    } else {
      hide Conserved, Executes;
      assert u in db.open ==> TxInv(db, u);
    }
  }

  lemma NextKeepsRevocationInv(db: Db, t: TxId, step: Step, db': Db, cfg: Config, v: RevocationId)
    requires Inv(db) && Next(db, t, step, db', cfg) && v in db'.revocations && !WritesStaleCount(db, step)
    ensures RevocationInv(db', v)
  {
    hide Conserved;
    assert v in db.revocations ==> RevocationInv(db, v);
    if step.Do? {
      assert TxInv(db, t);
    }
  }

  /** The step that loses a use: a revocation is written that read the count before it last grew. */
  predicate WritesStaleCount(db: Db, step: Step) {
    step.WriteRevocation? && step.v in db.revocations && db.revocations[step.v].writesCount == Some(true)
  }

  lemma NextConserves(db: Db, t: TxId, step: Step, db': Db, cfg: Config)
    requires Inv(db) && Next(db, t, step, db', cfg) && !WritesStaleCount(db, step)
    ensures Conserved(db'.tables)
  {
    hide TxInv, RevocationInv, IsCurrentlyRedeemable, UpgradedTrial;
    if step == Do(Commit) {
      CommitConserves(db, t, db', cfg);
    } else if step.CreateCode? {
      NewCodeHasNoUses(db.tables.redemptions, step.text);
    }
  }

  lemma StaleCountLosesUses(db: Db, t: TxId, step: Step, db': Db, cfg: Config)
    requires Inv(db) && Next(db, t, step, db', cfg) && WritesStaleCount(db, step)
    ensures !Conserved(db'.tables)
  {
    assert RevocationInv(db, step.v);
    var text := db.revocations[step.v].text;
    assert db'.tables.codes[text].usedCount < db.tables.codes[text].usedCount == Uses(db.tables.redemptions, text);
  }

  lemma NextKeepsInv(db: Db, t: TxId, step: Step, db': Db, cfg: Config)
    requires Inv(db) && Next(db, t, step, db', cfg) && !WritesStaleCount(db, step)
    ensures Inv(db')
  {
    hide Next, Inv, TxInv, RevocationInv;
    NextConserves(db, t, step, db', cfg);
    forall u | u in db'.open
      ensures TxInv(db', u)
    {
      NextKeepsTxInv(db, t, step, db', cfg, u);
    }
    forall v | v in db'.revocations
      ensures RevocationInv(db', v)
    {
      NextKeepsRevocationInv(db, t, step, db', cfg, v);
    }
    PartsMakeInv(db');
  }

  lemma PartsMakeInv(db: Db)
    requires Conserved(db.tables) && (forall t :: t in db.open ==> TxInv(db, t))
    requires forall v :: v in db.revocations ==> RevocationInv(db, v)
    ensures Inv(db)
  {
  }

  ghost predicate Run(run: seq<Db>, steps: seq<(TxId, Step)>, cfg: Config) {
    && |run| == |steps| + 1
    && run[0].tables.codes == map[] && run[0].tables.redemptions == [] && run[0].open == map[]
        && run[0].revocations == map[]
    && forall i :: 0 <= i < |steps| ==> Next(run[i], steps[i].0, steps[i].1, run[i + 1], cfg)
  }

  lemma {:induction false} RunKeepsInv(run: seq<Db>, steps: seq<(TxId, Step)>, cfg: Config, i: nat)
    requires Run(run, steps, cfg) && i < |run|
    requires forall j :: 0 <= j < i ==> !WritesStaleCount(run[j], steps[j].1)
    ensures Inv(run[i])
  {
    hide Next;
    if i > 0 {
      RunKeepsInv(run, steps, cfg, i - 1);
      NextKeepsInv(run[i - 1], steps[i - 1].0, steps[i - 1].1, run[i], cfg);
    }
  }

  /**
   Over every interleaving, with stale reads, lock waits, revocations in parts and aborts at any
   statement: uses are conserved throughout exactly when no revocation writes a stale count.
   */
  lemma RedemptionsAreConservedIff(run: seq<Db>, steps: seq<(TxId, Step)>, cfg: Config)
    requires Run(run, steps, cfg)
    ensures (forall i :: 0 <= i < |run| ==> Conserved(run[i].tables))
            <==> (forall i :: 0 <= i < |steps| ==> !WritesStaleCount(run[i], steps[i].1))
  {
    hide Next, Inv, Conserved, WritesStaleCount;
    if forall i :: 0 <= i < |run| ==> Conserved(run[i].tables) {
      for n := 0 to |steps|
        invariant forall i :: 0 <= i < n ==> !WritesStaleCount(run[i], steps[i].1)
      {
        RunKeepsInv(run, steps, cfg, n);
        assert Next(run[n], steps[n].0, steps[n].1, run[n + 1], cfg) && Conserved(run[n + 1].tables);
        if WritesStaleCount(run[n], steps[n].1) {
          StaleCountLosesUses(run[n], steps[n].0, steps[n].1, run[n + 1], cfg);
        }
      }
    }
    if forall i :: 0 <= i < |steps| ==> !WritesStaleCount(run[i], steps[i].1) {
      forall i | 0 <= i < |run|
        ensures Conserved(run[i].tables)
      {
        RunKeepsInv(run, steps, cfg, i);
        InvConserves(run[i]);
      }
    }
  }

  lemma InvConserves(db: Db)
    requires Inv(db)
    ensures Conserved(db.tables)
  {
  }

  // ---- When a revocation is stale ----

  /** Step j commits a redemption of this code. */
  predicate CommitsUse(db: Db, t: TxId, step: Step, text: string) {
    step == Do(Commit) && t in db.open && db.open[t].code == text
  }

  lemma CountMovesIff(db: Db, t: TxId, step: Step, db': Db, cfg: Config, text: string)
    requires Inv(db) && Next(db, t, step, db', cfg) && !WritesStaleCount(db, step) && text in db.tables.codes
    ensures text in db'.tables.codes
    ensures db'.tables.codes[text].usedCount == db.tables.codes[text].usedCount + if CommitsUse(db, t, step, text)
        then 1 else 0
  {
    hide Conserved;
    if step == Do(Commit) {
      assert TxInv(db, t);
    }
  }

  ghost predicate CommittedBetween(run: seq<Db>, steps: seq<(TxId, Step)>, i: nat, m: nat, text: string)
    requires i <= m <= |steps| < |run|
  {
    exists j :: i <= j < m && CommitsUse(run[j], steps[j].0, steps[j].1, text)
  }

  lemma CommittedByThen(run: seq<Db>, steps: seq<(TxId, Step)>, i: nat, m: nat, text: string)
    requires i < m <= |steps| < |run|
    ensures CommittedBetween(run, steps, i, m, text)
            <==> CommittedBetween(run, steps, i, m - 1, text)
                 || CommitsUse(run[m - 1], steps[m - 1].0, steps[m - 1].1, text)
  {
    hide CommitsUse;
  }

  lemma RunStep(run: seq<Db>, steps: seq<(TxId, Step)>, cfg: Config, j: nat)
    requires Run(run, steps, cfg) && j < |steps|
    ensures Next(run[j], steps[j].0, steps[j].1, run[j + 1], cfg)
  {
    hide Next;
  }

  lemma CountGrowsIff(run: seq<Db>, steps: seq<(TxId, Step)>, cfg: Config, i: nat, m: nat, text: string)
    requires Run(run, steps, cfg) && i <= m < |run| && text in run[i].tables.codes
    requires forall j :: 0 <= j < m ==> !WritesStaleCount(run[j], steps[j].1)
    ensures text in run[m].tables.codes && run[i].tables.codes[text].usedCount <= run[m].tables.codes[text].usedCount
    ensures run[m].tables.codes[text].usedCount > run[i].tables.codes[text].usedCount
            <==> CommittedBetween(run, steps, i, m, text)
  {
    assert |run| == |steps| + 1 && !CommittedBetween(run, steps, i, i, text);
    hide Run, Next, Inv, WritesStaleCount, CommitsUse, CommittedBetween;
    for n := i to m
      invariant text in run[n].tables.codes
      invariant run[i].tables.codes[text].usedCount <= run[n].tables.codes[text].usedCount
      invariant run[n].tables.codes[text].usedCount > run[i].tables.codes[text].usedCount
                <==> CommittedBetween(run, steps, i, n, text)
    {
      RunStep(run, steps, cfg, n);
      RunKeepsInv(run, steps, cfg, n);
      CountMovesIff(run[n], steps[n].0, steps[n].1, run[n + 1], cfg, text);
      CommittedByThen(run, steps, i, n + 1, text);
    }
  }

  /**
   A revocation will write a stale count exactly when a redemption of its code was committed between
   its read and its comparison.
   */
  lemma RevocationIsStaleIff(run: seq<Db>, steps: seq<(TxId, Step)>, cfg: Config, i: nat, m: nat,
          v: RevocationId, text: string)
    requires Run(run, steps, cfg) && i < m < |steps|
    requires forall j :: 0 <= j < m ==> !WritesStaleCount(run[j], steps[j].1)
    requires steps[i].1 == ReadForRevocation(v, text) && text in run[i].tables.codes
        && steps[m].1 == CompareForRevocation(v)
    requires v in run[m].revocations && run[m].revocations[v] == Revocation(text, run[i].tables.codes[text], None)
    ensures v in run[m + 1].revocations
    ensures run[m + 1].revocations[v].writesCount
            == Some(CommittedBetween(run, steps, i, m, text))
  {
    hide WritesStaleCount, CommittedBetween, Executes;
    CountGrowsIff(run, steps, cfg, i, m, text);
    RunStep(run, steps, cfg, m);
  }

  // ---- What is granted in a run, and what a revocation ends ----

  predicate HasRead(tx: Tx) {
    !tx.phase.Started? && !tx.phase.Eligible?
  }

  /** What a code is worth never changes, so what was read of it and what was saved stay right. */
  ghost predicate GrantsRight(db: Db, t: TxId, cfg: Config)
    requires t in db.open
  {
    var tx := db.open[t];
    && (HasRead(tx) ==>
          && tx.code in db.tables.codes
          && tx.phase.snapshot.plan == db.tables.codes[tx.code].plan
          && tx.phase.snapshot.trialDurationDays == db.tables.codes[tx.code].trialDurationDays)
    && (tx.phase.Saved? ==> IsGrant(tx.phase.trial, db.tables.codes[tx.code], tx.now, cfg))
  }

  ghost predicate AllGrantRight(db: Db, cfg: Config) {
    forall t :: t in db.open ==> GrantsRight(db, t, cfg)
  }

  predicate SameWorth(codes: map<string, TrialCode>, codes': map<string, TrialCode>) {
    forall text :: text in codes ==>
      && text in codes' && codes'[text].plan == codes[text].plan
      && codes'[text].trialDurationDays == codes[text].trialDurationDays
  }

  lemma CodesKeepTheirWorth(db: Db, t: TxId, step: Step, db': Db, cfg: Config)
    requires Next(db, t, step, db', cfg)
    ensures SameWorth(db.tables.codes, db'.tables.codes)
  {
  }

  lemma OwnGrantIsRight(db: Db, t: TxId, step: Step, db': Db, cfg: Config)
    requires Next(db, t, step, db', cfg) && t in db'.open && (t in db.open ==> GrantsRight(db, t, cfg))
    ensures GrantsRight(db', t, cfg)
  {
    CodesKeepTheirWorth(db, t, step, db', cfg);
  }

  lemma NextKeepsGrants(db: Db, t: TxId, step: Step, db': Db, cfg: Config)
    requires Next(db, t, step, db', cfg) && AllGrantRight(db, cfg)
    ensures AllGrantRight(db', cfg)
  {
    hide GrantsRight, SameWorth;
    CodesKeepTheirWorth(db, t, step, db', cfg);
    forall u | u in db'.open
      ensures GrantsRight(db', u, cfg)
    {
      if u == t {
        OwnGrantIsRight(db, t, step, db', cfg);
      } else {
        assert db'.open[u] == db.open[u];
        SameWorthSameGrant(db, db', u, cfg);
      }
    }
  }

  lemma SameWorthSameGrant(db: Db, db': Db, u: TxId, cfg: Config)
    requires u in db.open && u in db'.open && db'.open[u] == db.open[u] && GrantsRight(db, u, cfg)
    requires SameWorth(db.tables.codes, db'.tables.codes)
    ensures GrantsRight(db', u, cfg)
  {
  }

  lemma RunKeepsGrants(run: seq<Db>, steps: seq<(TxId, Step)>, cfg: Config, i: nat)
    requires Run(run, steps, cfg) && i < |run|
    ensures AllGrantRight(run[i], cfg)
  {
    assert |run| == |steps| + 1 && AllGrantRight(run[0], cfg) by { hide Next; }
    hide Run, Next, AllGrantRight;
    for n := 0 to i
      invariant AllGrantRight(run[n], cfg)
    {
      RunStep(run, steps, cfg, n);
      NextKeepsGrants(run[n], steps[n].0, steps[n].1, run[n + 1], cfg);
    }
  }

  /** However redemptions interleave, and whatever they read, each that commits grants what its code is worth. */
  lemma CommittedRedemptionGrants(run: seq<Db>, steps: seq<(TxId, Step)>, cfg: Config, m: nat, t: TxId)
    requires Run(run, steps, cfg) && m < |steps| && steps[m] == (t, Do(Commit)) && t in run[m].open
    ensures var tx, tables' := run[m].open[t], run[m + 1].tables;
            && tables'.redemptions == run[m].tables.redemptions + [Redemption(tx.code, tx.companyId)]
            && tx.companyId in tables'.trials && tx.code in tables'.codes
            && IsGrant(tables'.trials[tx.companyId], tables'.codes[tx.code], tx.now, cfg)
  {
    RunStep(run, steps, cfg, m);
    RunKeepsGrants(run, steps, cfg, m);
    assert GrantsRight(run[m], t, cfg);
  }

  ghost predicate Ended(db: Db, text: string) {
    text in db.tables.codes && !db.tables.codes[text].active && !ClaimPending(db, text)
  }

  lemma EndedStaysEnded(db: Db, t: TxId, step: Step, db': Db, cfg: Config, text: string)
    requires Next(db, t, step, db', cfg) && Ended(db, text)
    ensures Ended(db', text)
  {
    hide IsCurrentlyRedeemable, UpgradedTrial, Uses;
  }

  lemma EndedIsNotUsed(db: Db, t: TxId, step: Step, db': Db, cfg: Config, text: string)
    requires Next(db, t, step, db', cfg) && Ended(db, text)
    ensures Uses(db'.tables.redemptions, text) == Uses(db.tables.redemptions, text)
  {
    if step == Do(Commit) {
      assert HasClaimed(db.open[t]) && db.open[t].code != text;
      OtherUse(db.tables.redemptions, Redemption(db.open[t].code, db.open[t].companyId), text);
    } else {
      hide Executes, Uses;
      RedemptionsStay(db, t, step, db', cfg);
    }
  }

  lemma OtherUse(redemptions: seq<Redemption>, r: Redemption, text: string)
    requires r.code != text
    ensures Uses(redemptions + [r], text) == Uses(redemptions, text)
  {
    assert (redemptions + [r])[..|redemptions|] == redemptions;
  }

  lemma RedemptionsStay(db: Db, t: TxId, step: Step, db': Db, cfg: Config)
    requires Next(db, t, step, db', cfg) && step != Do(Commit)
    ensures db'.tables.redemptions == db.tables.redemptions
  {
  }

  /** Once a revocation is written, its code is never redeemed again. */
  lemma RevokedForGood(run: seq<Db>, steps: seq<(TxId, Step)>, cfg: Config, i: nat, m: nat, v: RevocationId)
    requires Run(run, steps, cfg) && i < m < |run| && steps[i].1 == WriteRevocation(v) && v in run[i].revocations
    ensures var text := run[i].revocations[v].text;
            && text in run[m].tables.codes && !run[m].tables.codes[text].active
            && Uses(run[m].tables.redemptions, text) == Uses(run[i].tables.redemptions, text)
  {
    var text := run[i].revocations[v].text;
    RunStep(run, steps, cfg, i);
    assert |run| == |steps| + 1 && Ended(run[i + 1], text);
    hide Run, Next, Ended, Uses;
    for n := i + 1 to m
      invariant Ended(run[n], text) && Uses(run[n].tables.redemptions, text) == Uses(run[i].tables.redemptions, text)
    {
      RunStep(run, steps, cfg, n);
      EndedStaysEnded(run[n], steps[n].0, steps[n].1, run[n + 1], cfg, text);
      EndedIsNotUsed(run[n], steps[n].0, steps[n].1, run[n + 1], cfg, text);
    }
    EndedMeans(run[m], text);
  }

  lemma EndedMeans(db: Db, text: string)
    requires Ended(db, text)
    ensures text in db.tables.codes && !db.tables.codes[text].active
  {
  }

  // ---- When a redemption overwrites what it did not see ----

  function Lookup(trials: map<CompanyId, TrialRow>, companyId: CompanyId): Option<TrialRow> {
    if companyId in trials then Some(trials[companyId]) else None
  }

  predicate WritesTrial(step: Step, companyId: CompanyId) {
    step.OtherServiceWritesTrial? && step.company == companyId
  }

  /** What other services left of the company's trial after the steps from i to m. */
  function LeftTrial(steps: seq<(TxId, Step)>, i: nat, m: nat, companyId: CompanyId, trial: Option<TrialRow>)
    : Option<TrialRow>
    requires i <= m <= |steps|
    decreases m
  {
    if m == i then trial
    else if WritesTrial(steps[m - 1].1, companyId) then steps[m - 1].1.row
    else LeftTrial(steps, i, m - 1, companyId, trial)
  }

  lemma {:induction false} RedeemedStays(run: seq<Db>, steps: seq<(TxId, Step)>, cfg: Config, j: nat,
          m: nat, companyId: CompanyId)
    requires Run(run, steps, cfg) && j <= m < |run| && HasRedeemed(run[j].tables.redemptions, companyId)
    ensures HasRedeemed(run[m].tables.redemptions, companyId)
    decreases m
  {
    if j < m {
      RedeemedStays(run, steps, cfg, j, m - 1, companyId);
      var i :| 0 <= i < |run[m - 1].tables.redemptions| && run[m - 1].tables.redemptions[i].companyId == companyId;
      assert Next(run[m - 1], steps[m - 1].0, steps[m - 1].1, run[m], cfg);
      assert run[m].tables.redemptions[i].companyId == companyId;
    }
  }

  lemma TrialMoves(db: Db, t: TxId, step: Step, db': Db, cfg: Config, companyId: CompanyId)
    requires Next(db, t, step, db', cfg) && !HasRedeemed(db'.tables.redemptions, companyId)
    ensures Lookup(db'.tables.trials, companyId)
            == if WritesTrial(step, companyId) then step.row else Lookup(db.tables.trials, companyId)
  {
    if step == Do(Commit) {
      var n := |db.tables.redemptions|;
      assert db'.tables.redemptions[n].companyId == db.open[t].companyId;
    }
  }

  lemma {:induction false} TrialIsLeft(run: seq<Db>, steps: seq<(TxId, Step)>, cfg: Config, i: nat,
          m: nat, companyId: CompanyId)
    requires Run(run, steps, cfg) && i <= m < |run| && !HasRedeemed(run[m].tables.redemptions, companyId)
    ensures Lookup(run[m].tables.trials, companyId)
            == LeftTrial(steps, i, m, companyId, Lookup(run[i].tables.trials, companyId))
    decreases m
  {
    if i < m {
      hide HasRedeemed, Next;
      if HasRedeemed(run[m - 1].tables.redemptions, companyId) {
        RedeemedStays(run, steps, cfg, m - 1, m, companyId);
      }
      TrialIsLeft(run, steps, cfg, i, m - 1, companyId);
      TrialMoves(run[m - 1], steps[m - 1].0, steps[m - 1].1, run[m], cfg, companyId);
    }
  }

  /** Between steps j and m transaction t executes nothing. */
  predicate Idle(steps: seq<(TxId, Step)>, j: nat, m: nat, t: TxId) {
    forall x :: j < x < m && x < |steps| ==> !(steps[x].0 == t && steps[x].1.Do?)
  }

  /** From its save on, a transaction that does nothing else holds its row. */
  lemma {:induction false} SavedIsHeld(run: seq<Db>, steps: seq<(TxId, Step)>, cfg: Config, j: nat, n: nat,
          m: nat, t: TxId)
    requires Run(run, steps, cfg) && j < n <= m < |run| && Idle(steps, j, m, t)
    requires steps[j] == (t, Do(SaveSubscription)) && t in run[j].open
    ensures t in run[n].open && run[n].open[t].companyId == run[j].open[t].companyId && run[n].open[t].phase.Saved?
    decreases n
  {
    RunStep(run, steps, cfg, n - 1);
    if j < n - 1 {
      SavedIsHeld(run, steps, cfg, j, n - 1, m, t);
    }
  }

  lemma LockKeepsOthersOut(db: Db, u: TxId, step: Step, db': Db, cfg: Config, t: TxId)
    requires Next(db, u, step, db', cfg) && t in db.open && db.open[t].phase.Saved?
    ensures !WritesTrial(step, db.open[t].companyId)
  {
    hide Executes;
  }

  lemma NobodyWrites(steps: seq<(TxId, Step)>, i: nat, n: nat, companyId: CompanyId, trial: Option<TrialRow>)
    requires i <= n < |steps| && !WritesTrial(steps[n].1, companyId)
    ensures LeftTrial(steps, i, n + 1, companyId, trial) == LeftTrial(steps, i, n, companyId, trial)
  {
  }

  /** So nobody else writes the row until it commits. */
  lemma NothingLeftSince(run: seq<Db>, steps: seq<(TxId, Step)>, cfg: Config, i: nat, j: nat, m: nat,
          t: TxId, trial: Option<TrialRow>)
    requires Run(run, steps, cfg) && i <= j < m < |run| && Idle(steps, j, m, t)
    requires steps[j] == (t, Do(SaveSubscription)) && t in run[j].open
    ensures LeftTrial(steps, i, m, run[j].open[t].companyId, trial)
            == LeftTrial(steps, i, j, run[j].open[t].companyId, trial)
  {
    var companyId := run[j].open[t].companyId;
    assert |run| == |steps| + 1;
    NobodyWrites(steps, i, j, companyId, trial);
    hide Run, Next, WritesTrial, Idle, LeftTrial;
    for n := j + 1 to m
      invariant LeftTrial(steps, i, n, companyId, trial) == LeftTrial(steps, i, j, companyId, trial)
    {
      SavedIsHeld(run, steps, cfg, j, n, m, t);
      RunStep(run, steps, cfg, n);
      LockKeepsOthersOut(run[n], steps[n].0, steps[n].1, run[n + 1], cfg, t);
      NobodyWrites(steps, i, n, companyId, trial);
    }
  }

  /**
   A redemption that found its trial at step i and saved it at step j overwrites, at its commit m,
   whatever is there. It overwrites something else, or puts back a trial that was ended, exactly
   when the last other service that wrote the company's trial between i and j did not leave it as
   it was found; from j on the row is locked.
   */
  lemma RedemptionOverwritesIff(run: seq<Db>, steps: seq<(TxId, Step)>, cfg: Config, i: nat, j: nat, m: nat, t: TxId)
    requires Run(run, steps, cfg) && i < j < m < |steps|
    requires forall x :: 0 <= x < m ==> !WritesStaleCount(run[x], steps[x].1)
    requires steps[i] == (t, Do(FindTrial)) && steps[j] == (t, Do(SaveSubscription)) && steps[m] == (t, Do(Commit))
    requires Idle(steps, j, m, t)
    requires t in run[i].open && t in run[j].open && run[j].open[t].companyId == run[i].open[t].companyId
    ensures var companyId := run[i].open[t].companyId;
            && companyId in run[m + 1].tables.trials && companyId in run[i].tables.trials
            && (Lookup(run[m].tables.trials, companyId) != Lookup(run[i].tables.trials, companyId)
                <==> LeftTrial(steps, i, j, companyId, Lookup(run[i].tables.trials, companyId))
                     != Lookup(run[i].tables.trials, companyId))
            && (companyId !in run[m].tables.trials
                <==> LeftTrial(steps, i, j, companyId, Lookup(run[i].tables.trials, companyId)).None?)
  {
    var companyId := run[i].open[t].companyId;
    RunKeepsInv(run, steps, cfg, m);
    SavedIsHeld(run, steps, cfg, j, m, m, t);
    RunStep(run, steps, cfg, i);
    RunStep(run, steps, cfg, m);
    assert TxInv(run[m], t);
    NothingLeftSince(run, steps, cfg, i, j, m, t, Lookup(run[i].tables.trials, companyId));
    TrialIsLeft(run, steps, cfg, i, m, companyId);
  }

  /** The service method is one of these transactions: run alone, its statements lead to the tables it promises. */
  lemma AloneIsAnUninterruptedRun(db: Db, t: TxId, companyId: CompanyId, code: string, now: Instant, cfg: Config)
    returns (d1: Db, d2: Db, d3: Db, d4: Db, d5: Db, d6: Db, d7: Db)
    requires db.open == map[] && Redeemed(db.tables, companyId, code, now, cfg).Ok?
    ensures Next(db, t, Begin(companyId, code, now), d1, cfg)
    ensures Next(d1, t, Do(FindTrial), d2, cfg) && Next(d2, t, Do(FindCode), d3, cfg)
    ensures Next(d3, t, Do(InsertRedemption), d4, cfg) && Next(d4, t, Do(ClaimUse), d5, cfg)
    ensures Next(d5, t, Do(SaveSubscription), d6, cfg) && Next(d6, t, Do(Commit), d7, cfg)
    ensures d7 == Db(Redeemed(db.tables, companyId, code, now, cfg).value, map[], db.revocations)
  {
    var tx, trial, c := Tx(companyId, code, now, Started), db.tables.trials[companyId], db.tables.codes[code];
    d1 := At(db, t, tx);
    d2 := At(d1, t, tx.(phase := Eligible(trial)));
    d3 := At(d2, t, tx.(phase := CodeRead(trial, c)));
    d4 := At(d3, t, tx.(phase := RowInserted(trial, c)));
    d5 := At(d4, t, tx.(phase := Claimed(trial, c, c.usedCount + 1)));
    d6 := At(d5, t, tx.(phase := Saved(UpgradedTrial(c, now, cfg), c, c.usedCount + 1)));
    d7 := Db(Redeemed(db.tables, companyId, code, now, cfg).value, map[], db.revocations);
    assert d6.open - {t} == map[];
  }

  /**
   It does happen: from any sound tables, a code read for revocation, redeemed as above, and then
   revoked. The redemption is there and the count does not know of it.
   */
  lemma RevocationCanLoseAUse(db: Db, t: TxId, v: RevocationId, companyId: CompanyId, code: string,
          now: Instant, cfg: Config)
    returns (read: Db, redeemed: Db, compared: Db, written: Db)
    requires Inv(db) && db.open == map[] && db.revocations == map[]
    requires Redeemed(db.tables, companyId, code, now, cfg).Ok?
    ensures Next(db, t, ReadForRevocation(v, code), read, cfg)
    ensures read.open == map[] && redeemed == read.(tables := Redeemed(read.tables, companyId, code, now, cfg).value)
    ensures Next(redeemed, t, CompareForRevocation(v), compared, cfg)
    ensures Next(compared, t, WriteRevocation(v), written, cfg)
    ensures HasRedeemed(written.tables.redemptions, companyId)
    ensures written.tables.codes[code].usedCount + 1 == Uses(written.tables.redemptions, code)
  {
    var snapshot := db.tables.codes[code];
    read := db.(revocations := map[v := Revocation(code, snapshot, None)]);
    redeemed := read.(tables := Redeemed(read.tables, companyId, code, now, cfg).value);
    compared := redeemed.(revocations := map[v := Revocation(code, snapshot, Some(true))]);
    written := compared.(tables := compared.tables.(codes := compared.tables.codes[code := Revoked(compared,
        compared.revocations[v])]),
                         revocations := compared.revocations - {v});
    var n := |db.tables.redemptions|;
    assert written.tables.redemptions[n].companyId == companyId
        && written.tables.redemptions[..n] == db.tables.redemptions;
  }
}
