/**
 Our ledger and the payment provider together: checkouts, renewals, the notifications about
 them delivered in any order and number, and the requests of all services that write subscription
 rows. Deliveries and requests run in parts, interleaved, and each may stop anywhere. Plan prices
 are fixed.
 */
module ServiceRuns {
  import opened Common
  import opened BillingTypes
  import opened PaymentWebhook
  import opened SubscriptionCheckout
  import opened RowRequests
  import LedgerRuns

  type RequestId = nat

  /** A notification the provider sent, and what it had collected at that moment. */
  datatype Emission = Emission(event: Event, charged: int)

  datatype World = World(
    db: Tables,
    account: Account,
    completed: set<nat>,
    emitted: map<EventId, Emission>,
    requests: map<RequestId, Request>)

  datatype Step =
    | OpenCheckout(companyId: CompanyId, plan: Plan, outside: Outside)
    | CompleteSession(session: nat, subscriptionId: ProviderSubscriptionId, id: EventId)
    | ChargeRenewal(subscriptionId: ProviderSubscriptionId, id: EventId)
    | NotifyOther(event: Event)
    | StartTrial(row: Subscription)
    | Begin(r: RequestId, op: Operation)
    | Tell(r: RequestId)
    | Save(r: RequestId)
    | Drop(r: RequestId)

  function WithRows(w: World, rows: seq<Subscription>): World {
    w.(db := w.db.(subscriptions := rows))
  }

  /** An event is processed if the provider sent it and its marker is neither there nor being written. */
  ghost predicate Deliverable(w: World, event: Event) {
    && event.id in w.emitted && w.emitted[event.id].event == event && event.id !in w.db.markers
    && forall r :: r in w.requests && w.requests[r].op.Process? ==> w.requests[r].op.event.id != event.id
  }

  ghost predicate Next(w: World, step: Step, w': World, cfg: Config) {
    var rows := w.db.subscriptions;
    match step
    case OpenCheckout(companyId, plan, outside) =>
      var asked := WithSession(rows, w.account, companyId, plan, cfg, outside);
      w' == w.(account := if asked.Ok? then asked.value else w.account)
    case CompleteSession(session, s, id) =>
      && session < |w.account.sessions| && session !in w.completed
      && s !in w.account.unitAmounts && id !in w.emitted
      && var paid := w.account.sessions[session];
      && w' == w.(account := w.account.(unitAmounts := w.account.unitAmounts[s := paid.amount]),
                  completed := w.completed + {session},
                  emitted := w.emitted[id := Emission(Activated(id, s, paid.companyId, paid.plan), paid.amount)])
    case ChargeRenewal(s, id) =>
      && s in w.account.unitAmounts && id !in w.emitted
      && w' == w.(emitted := w.emitted[id := Emission(Renewed(id, s), w.account.unitAmounts[s])])
    case NotifyOther(event) =>
      && event.id !in w.emitted && !event.Activated? && !event.Renewed?
      && w' == w.(emitted := w.emitted[event.id := Emission(event, 0)])
    case StartTrial(row) =>
      && row.status.Trial? && row.externalId.None? && !row.cancelAtPeriodEnd && row.pastDueSince.None?
      && !ViolatesActiveIndex(rows, |rows|, row)
      && w' == WithRows(w, rows + [row])
    case Begin(r, op) =>
      && r !in w.requests && Proceeds(rows, w.db.companies, op, cfg)
      && (op.Process? ==> Deliverable(w, op.event))
      && w' == w.(requests := w.requests[r := Began(rows, op)])
    case Tell(r) =>
      && r in w.requests && TellsProvider(w.requests[r].op) && !w.requests[r].told
      && w.requests[r].read.Some? && w.requests[r].read.value.externalId.Some?
      && w' == w.(account := ToldAccount(w.account, w.requests[r], cfg),
                  requests := w.requests[r := w.requests[r].(told := true)])
    case Save(r) =>
      && r in w.requests && (TellsProvider(w.requests[r].op) ==> w.requests[r].told)
      && WellPlaced(w.requests[r], rows)
      && w' == w.(db := Saved(w.db, w.requests[r], cfg), requests := w.requests - {r})
    case Drop(r) =>
      r in w.requests && w' == w.(requests := w.requests - {r})
  }

  // ---- What holds in every run ----

  predicate HasId(row: Subscription, s: ProviderSubscriptionId) {
    row.externalId == Some(s)
  }

  predicate ReadId(q: Request, s: ProviderSubscriptionId) {
    q.read.Some? && HasId(q.read.value, s)
  }

  ghost predicate Priced(account: Account, cfg: Config) {
    forall i :: 0 <= i < |account.sessions|
      ==> ChargeFor(account.sessions[i].plan, cfg) == Ok(account.sessions[i].amount)
  }

  /** The provider knows every subscription that a row or a request names. */
  ghost predicate Known(rows: seq<Subscription>,
          requests: map<RequestId, Request>, amounts: map<ProviderSubscriptionId, int>)
  {
    && (forall k, s :: 0 <= k < |rows| && HasId(rows[k], s) ==> s in amounts)
    && (forall r, s :: r in requests && ReadId(requests[r], s) ==> s in amounts)
  }

  /** No two rows name the same provider subscription, and a request that names one is about its row. */
  ghost predicate Owned(rows: seq<Subscription>, requests: map<RequestId, Request>) {
    && (forall i, j, s :: 0 <= i < |rows| && 0 <= j < |rows| && HasId(rows[i], s) && HasId(rows[j], s) ==> i == j)
    && (forall r, k, s :: r in requests && 0 <= k < |rows| && ReadId(requests[r], s) && HasId(rows[k], s)
          ==> k == requests[r].at)
    && (forall r, r', s :: r in requests && r' in requests && ReadId(requests[r], s) && ReadId(requests[r'], s)
                           ==> requests[r].at == requests[r'].at)
  }

  /** A request is still what its checks let through. */
  ghost predicate Sound(q: Request, rows: seq<Subscription>, ending: set<ProviderSubscriptionId>, cfg: Config) {
    && WellPlaced(q, rows) && QuotaFor(q.op, cfg).Ok?
    && (q.read.Some? ==> Suits(q.read.value, q.op, cfg) && q.read.value.companyId == rows[q.at].companyId)
    && (q.read.None? ==> GoesOnWithout(q.op, cfg))
    && (q.told ==> TellsProvider(q.op))
    && (q.op.CancelAtPeriodEnd? && q.told ==> q.read.value.externalId.value in ending)
  }

  ghost predicate AllSound(rows: seq<Subscription>, requests: map<RequestId, Request>,
          ending: set<ProviderSubscriptionId>, cfg: Config)
  {
    forall r :: r in requests ==> Sound(requests[r], rows, ending, cfg)
  }

  /** Nobody has heard of this subscription yet. */
  ghost predicate Unheard(w: World, s: ProviderSubscriptionId) {
    && (forall k :: 0 <= k < |w.db.subscriptions| ==> !HasId(w.db.subscriptions[k], s))
    && (forall r :: r in w.requests ==> !ReadId(w.requests[r], s))
    && s !in w.account.ending
  }

  /** An activation states the plan paid for, and until it is processed nobody has heard of its subscription. */
  ghost predicate EmissionOk(w: World, id: EventId, cfg: Config)
    requires id in w.emitted
  {
    var emission := w.emitted[id];
    && emission.event.id == id
    && (emission.event.Activated? ==>
          && emission.event.subscriptionId in w.account.unitAmounts
          && ChargeFor(emission.event.plan, cfg) == Ok(emission.charged)
          && (id !in w.db.markers ==>
                && Unheard(w, emission.event.subscriptionId)
                && w.account.unitAmounts[emission.event.subscriptionId] == emission.charged))
  }

  ghost predicate EmittedInv(w: World, cfg: Config) {
    && (forall id :: id in w.emitted ==> EmissionOk(w, id, cfg))
    && (forall id, id' :: id in w.emitted && id' in w.emitted && id != id'
          && w.emitted[id].event.Activated? && w.emitted[id'].event.Activated?
          ==> w.emitted[id].event.subscriptionId != w.emitted[id'].event.subscriptionId)
  }

  /** Events being processed were sent, are not marked yet, and are being processed once. */
  ghost predicate InFlight(w: World) {
    && (forall r :: r in w.requests && w.requests[r].op.Process? ==>
          var event := w.requests[r].op.event;
          event.id in w.emitted && w.emitted[event.id].event == event && event.id !in w.db.markers)
    && (forall r, r' :: r in w.requests && r' in w.requests && r != r'
          && w.requests[r].op.Process? && w.requests[r'].op.Process?
          ==> w.requests[r].op.event.id != w.requests[r'].op.event.id)
  }

  ghost predicate EndingKnown(account: Account) {
    account.ending <= account.unitAmounts.Keys
  }

  ghost predicate Inv(w: World, cfg: Config) {
    && Priced(w.account, cfg) && EndingKnown(w.account)
    && Known(w.db.subscriptions, w.requests, w.account.unitAmounts)
    && Owned(w.db.subscriptions, w.requests)
    && AllSound(w.db.subscriptions, w.requests, w.account.ending, cfg)
    && EmittedInv(w, cfg) && InFlight(w)
  }

  /** Emissions stay as they were stated when nobody hears of a new subscription, nor of a new amount for it. */
  lemma EmissionsCarryOver(w: World, w': World, cfg: Config)
    requires EmittedInv(w, cfg) && w'.emitted == w.emitted && w.db.markers <= w'.db.markers
    requires w.account.unitAmounts.Keys <= w'.account.unitAmounts.Keys
    requires forall id :: id in w.emitted && w.emitted[id].event.Activated? && id !in w'.db.markers
                          && Unheard(w, w.emitted[id].event.subscriptionId)
               ==> var s := w.emitted[id].event.subscriptionId;
                   Unheard(w', s)
                       && (s in w.account.unitAmounts ==> w'.account.unitAmounts[s] == w.account.unitAmounts[s])
    ensures EmittedInv(w', cfg)
  {
    hide Unheard;
    forall id | id in w'.emitted
      ensures EmissionOk(w', id, cfg)
    {
      assert EmissionOk(w, id, cfg);
    }
  }

  // ---- What a save leaves ----

  /** The subscription that an event being processed is about to attach. */
  function NewId(q: Request): Option<ProviderSubscriptionId> {
    if q.op.Process? && q.op.event.Activated? then Some(q.op.event.subscriptionId) else None
  }

  /** The row a save may have changed is the one its request read, or a new one. */
  lemma PlacingRow(rows: seq<Subscription>, q: Request, cfg: Config)
    requires WellPlaced(q, rows) && (q.read.Some? ==> Suits(q.read.value, q.op, cfg))
    ensures var rows' := Placed(rows, q, cfg);
            && |rows| <= |rows'| <= |rows| + 1
            && (forall k :: 0 <= k < |rows| && !(q.read.Some? && k == q.at) ==> rows'[k] == rows[k])
            && (q.read.Some? ==> |rows'| == |rows| && rows'[q.at] == Writes(rows, q, cfg))
            && (|rows'| > |rows| <==> q.read.None? && Inserts(q.op))
            && (|rows'| > |rows| ==> rows'[|rows|] == Inserted(q.op, cfg) && rows'[|rows|].externalId == NewId(q))
    ensures q.read.Some? ==> WritesName(rows, q, Writes(rows, q, cfg))
  {
    hide ResolveContactQuota;
  }

  /** The name on the row saved: the one it read, the one its event attaches, or the one that was there. */
  predicate WritesName(rows: seq<Subscription>, q: Request, row: Subscription)
    requires q.read.Some? && q.at < |rows|
  {
    if WritesBack(q.read.value, q.op) then
      && row.companyId == q.read.value.companyId
      && row.externalId == (if NewId(q).Some? then NewId(q) else q.read.value.externalId)
    else row.companyId == rows[q.at].companyId && row.externalId == rows[q.at].externalId
  }

  /** The subscriptions that rows name after a save, on the row of its request. */
  ghost predicate Renames(rows: seq<Subscription>, rows': seq<Subscription>, q: Request) {
    && |rows| <= |rows'|
    && (forall k, s: ProviderSubscriptionId {:trigger HasId(rows'[k], s)} :: 0 <= k < |rows'| && HasId(rows'[k], s)
          ==> || (k < |rows| && HasId(rows[k], s))
              || (k == q.at && ReadId(q, s))
              || (k == Place(rows, q) && NewId(q) == Some(s)))
    && (forall k :: 0 <= k < |rows| ==> rows'[k].companyId == rows[k].companyId)
  }

  lemma PlacingRenames(rows: seq<Subscription>, q: Request, ending: set<ProviderSubscriptionId>, cfg: Config)
    requires Sound(q, rows, ending, cfg)
    ensures Renames(rows, Placed(rows, q, cfg), q)
  {
    hide Placed, Writes, Suits, QuotaFor, Renames, WritesBack, NewId;
    PlacingRow(rows, q, cfg);
    OneRowRenames(rows, Placed(rows, q, cfg), q);
  }

  lemma OneRowRenames(rows: seq<Subscription>, rows': seq<Subscription>, q: Request)
    requires |rows| <= |rows'| <= |rows| + 1
    requires forall k :: 0 <= k < |rows| && !(q.read.Some? && k == q.at) ==> rows'[k] == rows[k]
    requires |rows'| > |rows| ==> q.read.None? && rows'[|rows|].externalId == NewId(q)
    requires q.read.Some? ==> q.at < |rows| && q.read.value.companyId == rows[q.at].companyId
                              && WritesName(rows, q, rows'[q.at])
    ensures Renames(rows, rows', q)
  {
  }

  lemma NothingRenamed(rows: seq<Subscription>, q: Request)
    ensures Renames(rows, rows, q)
  {
  }

  /** The tables after an event's transaction: its row in place, its marker, and what an invoice needs. */
  lemma HandlingSaves(db: Tables, q: Request, cfg: Config)
    requires WellPlaced(q, db.subscriptions) && q.op.Process? && Handled(db, q, cfg).Ok?
    requires q.read.Some? ==> SoughtBy(q.read.value, q.op.event)
    ensures var marked := db.(markers := db.markers + {q.op.event.id});
            LedgerRuns.Shaped(marked, q.op.event, Placed(db.subscriptions, q, cfg), q.op.env, Handled(db, q, cfg).value)
    ensures (q.read.Some? ==> WritesBack(q.read.value, q.op)) ==> Accepted(db.subscriptions, q, cfg)
  {
    hide Settled, LedgerRuns.Shaped, SoughtBy, ViolatesActiveIndex, Rewritten;
    LedgerRuns.AppliedToShape(db.(markers := db.markers + {q.op.event.id}), Place(db.subscriptions, q), q.read,
                              q.op.event, cfg, q.op.env);
    HandlerSaves(q, cfg);
    assert q.read.Some? ==> db.subscriptions[q.at := db.subscriptions[q.at]] == db.subscriptions;
  }

  lemma SavedTables(db: Tables, q: Request, ending: set<ProviderSubscriptionId>, cfg: Config)
    requires Sound(q, db.subscriptions, ending, cfg)
    ensures var db', through := Saved(db, q, cfg), GoesThrough(db, q, cfg);
            && db'.subscriptions == (if through then Placed(db.subscriptions, q, cfg) else db.subscriptions)
            && db'.markers == db.markers + (if through && q.op.Process? then {q.op.event.id} else {})
            && db'.companies == db.companies
            && (through && PlacesRow(q) && !(q.read.Some? && q.op.Process? && !WritesBack(q.read.value, q.op))
                ==> Accepted(db.subscriptions, q, cfg))
  {
    hide Handled, Placed, Accepted, QuotaFor, ResolveContactQuota, Rewritten, WritesBack;
    if q.op.Process? && GoesThrough(db, q, cfg) {
      HandlingSaves(db, q, cfg);
    }
  }

  lemma SaveRenames(db: Tables, q: Request, ending: set<ProviderSubscriptionId>, cfg: Config)
    requires Sound(q, db.subscriptions, ending, cfg)
    ensures Renames(db.subscriptions, Saved(db, q, cfg).subscriptions, q)
  {
    hide Saved, Placed, Sound, Renames, GoesThrough;
    SavedTables(db, q, ending, cfg);
    PlacingRenames(db.subscriptions, q, ending, cfg);
    NothingRenamed(db.subscriptions, q);
  }

  /** What an event being processed attaches is news to all. */
  ghost predicate AttachesNews(w: World, q: Request) {
    NewId(q).Some? ==> Unheard(w, NewId(q).value) && NewId(q).value in w.account.unitAmounts
  }

  lemma ProcessedIsNews(w: World, r: RequestId, cfg: Config)
    requires Inv(w, cfg) && r in w.requests
    ensures AttachesNews(w, w.requests[r])
  {
    hide Known, Owned, AllSound, Priced, Unheard;
    var q := w.requests[r];
    if NewId(q).Some? {
      assert EmissionOk(w, q.op.event.id, cfg);
    }
  }

  lemma SaveKeepsOwned(w: World, r: RequestId, rows': seq<Subscription>, cfg: Config)
    requires Inv(w, cfg) && r in w.requests && Renames(w.db.subscriptions, rows', w.requests[r])
    requires AttachesNews(w, w.requests[r])
    ensures Owned(rows', w.requests - {r}) && Known(rows', w.requests - {r}, w.account.unitAmounts)
    ensures forall s: ProviderSubscriptionId :: Unheard(w, s) && NewId(w.requests[r]) != Some(s)
                        ==> forall k :: 0 <= k < |rows'| ==> !HasId(rows'[k], s)
  {
    hide EmittedInv, Priced, AllSound, HasId, ReadId, InFlight, NewId;
    forall i, j, s: ProviderSubscriptionId | 0 <= i < |rows'| && 0 <= j < |rows'| && HasId(rows'[i], s)
        && HasId(rows'[j], s)
      ensures i == j
    {
      NamedAfterSaving(w.db.subscriptions, rows', w.requests[r], i, s);
      NamedAfterSaving(w.db.subscriptions, rows', w.requests[r], j, s);
    }
  }

  lemma NamedAfterSaving(rows: seq<Subscription>, rows': seq<Subscription>, q: Request,
          k: nat, s: ProviderSubscriptionId)
    requires Renames(rows, rows', q) && k < |rows'| && HasId(rows'[k], s)
    ensures || (k < |rows| && HasId(rows[k], s))
            || (k == q.at && ReadId(q, s))
            || (k == Place(rows, q) && NewId(q) == Some(s))
  {
  }

  lemma SaveKeepsSound(w: World, r: RequestId, rows': seq<Subscription>, cfg: Config)
    requires Inv(w, cfg) && r in w.requests && Renames(w.db.subscriptions, rows', w.requests[r])
    ensures AllSound(rows', w.requests - {r}, w.account.ending, cfg)
  {
    hide EmittedInv, Priced, Owned, Known, HasId, ReadId, Suits, QuotaFor, InFlight, NewId, GoesOnWithout;
    forall r' | r' in w.requests - {r}
      ensures Sound(w.requests[r'], rows', w.account.ending, cfg)
    {
      assert Sound(w.requests[r'], w.db.subscriptions, w.account.ending, cfg);
    }
  }

  /** After an activation was processed its subscription is known; the others are still news. */
  lemma SaveKeepsNews(w: World, r: RequestId, w': World, cfg: Config)
    requires Inv(w, cfg) && Next(w, Save(r), w', cfg)
    requires w'.db.markers == w.db.markers + (if GoesThrough(w.db, w.requests[r], cfg) && w.requests[r].op.Process?
                                              then {w.requests[r].op.event.id} else {})
    requires forall s: ProviderSubscriptionId :: Unheard(w, s) && NewId(w.requests[r]) != Some(s)
                         ==> forall k :: 0 <= k < |w'.db.subscriptions| ==> !HasId(w'.db.subscriptions[k], s)
    requires !GoesThrough(w.db, w.requests[r], cfg) ==> w'.db.subscriptions == w.db.subscriptions
    ensures EmittedInv(w', cfg) && InFlight(w')
  {
    hide Known, Owned, Priced, AllSound, Saved, GoesThrough, HasId, ReadId, EmittedInv;
    forall id | id in w.emitted && w.emitted[id].event.Activated? && id !in w'.db.markers
                && Unheard(w, w.emitted[id].event.subscriptionId)
      ensures Unheard(w', w.emitted[id].event.subscriptionId)
    {
      if GoesThrough(w.db, w.requests[r], cfg) {
        NewsDiffer(w, r, id, cfg);
      }
    }
    EmissionsCarryOver(w, w', cfg);
  }

  lemma NewsDiffer(w: World, r: RequestId, id: EventId, cfg: Config)
    requires Inv(w, cfg) && r in w.requests && id in w.emitted && w.emitted[id].event.Activated?
    requires w.requests[r].op.Process? ==> id != w.requests[r].op.event.id
    ensures NewId(w.requests[r]) != Some(w.emitted[id].event.subscriptionId)
  {
    hide Known, Owned, Priced, AllSound, EmissionOk;
  }

  lemma SaveKeepsInv(w: World, r: RequestId, w': World, cfg: Config)
    requires Inv(w, cfg) && Next(w, Save(r), w', cfg)
    ensures Inv(w', cfg)
  {
    hide Known, Owned, Priced, EmittedInv, InFlight, Saved, Sound, HasId, ReadId, Renames, GoesThrough, Placed, NewId;
    var rows', q := w'.db.subscriptions, w.requests[r];
    assert Sound(q, w.db.subscriptions, w.account.ending, cfg);
    SavedTables(w.db, q, w.account.ending, cfg);
    SaveRenames(w.db, q, w.account.ending, cfg);
    ProcessedIsNews(w, r, cfg);
    SaveKeepsOwned(w, r, rows', cfg);
    SaveKeepsSound(w, r, rows', cfg);
    SaveKeepsNews(w, r, w', cfg);
  }

  // ---- The other steps ----

  lemma TellKeepsSound(w: World, r: RequestId, w': World, cfg: Config)
    requires Inv(w, cfg) && Next(w, Tell(r), w', cfg)
    ensures AllSound(w.db.subscriptions, w'.requests, w'.account.ending, cfg)
  {
    hide Suits, QuotaFor, ChargeFor, Known, Owned, EmittedInv, Priced;
    forall r' | r' in w'.requests
      ensures Sound(w'.requests[r'], w.db.subscriptions, w'.account.ending, cfg)
    {
      assert Sound(w.requests[r'], w.db.subscriptions, w.account.ending, cfg);
    }
  }

  lemma TellNamesNothing(w: World, r: RequestId, w': World, cfg: Config)
    requires Inv(w, cfg) && Next(w, Tell(r), w', cfg)
    ensures var s := w.requests[r].read.value.externalId.value;
            && s in w.account.unitAmounts && !Unheard(w, s)
            && w'.account.unitAmounts.Keys == w.account.unitAmounts.Keys && EndingKnown(w'.account)
            && (forall t :: t in w.account.unitAmounts && t != s
                  ==> w'.account.unitAmounts[t] == w.account.unitAmounts[t])
            && (forall t :: Unheard(w, t) ==> Unheard(w', t))
  {
    hide Suits, QuotaFor, ChargeFor, Owned, EmittedInv, Priced, AllSound;
    var s := w.requests[r].read.value.externalId.value;
    assert ReadId(w.requests[r], s);
    assert w'.account.ending <= w.account.ending + {s};
    forall t | Unheard(w, t)
      ensures Unheard(w', t)
    {
      assert t != s;
      assert forall r' :: r' in w'.requests ==> ReadId(w'.requests[r'], t) == ReadId(w.requests[r'], t);
    }
  }

  lemma TellKeepsInv(w: World, r: RequestId, w': World, cfg: Config)
    requires Inv(w, cfg) && Next(w, Tell(r), w', cfg)
    ensures Inv(w', cfg)
  {
    hide EmittedInv, AllSound, Unheard, ChargeFor, Saved, Proceeds, Began, WithSession, ViolatesActiveIndex;
    TellKeepsSound(w, r, w', cfg);
    TellNamesNothing(w, r, w', cfg);
    assert forall r', s: ProviderSubscriptionId :: r' in w'.requests
             ==> ReadId(w'.requests[r'], s) == ReadId(w.requests[r'], s);
    EmissionsCarryOver(w, w', cfg);
  }

  lemma BeganIsSound(w: World, op: Operation, cfg: Config)
    requires Proceeds(w.db.subscriptions, w.db.companies, op, cfg)
    ensures var q, rows := Began(w.db.subscriptions, op), w.db.subscriptions;
            && Sound(q, rows, w.account.ending, cfg) && q.op == op && !q.told
            && (q.read.Some? ==> q.read.value == rows[q.at])
            && (forall s :: ReadId(q, s) ==> q.at < |rows| && HasId(rows[q.at], s))
  {
    hide QuotaFor, Suits, Picks;
  }

  lemma BeginNamesNothing(w: World, r: RequestId, op: Operation, w': World, cfg: Config)
    requires Inv(w, cfg) && Next(w, Begin(r, op), w', cfg)
    ensures Owned(w.db.subscriptions, w'.requests) && Known(w.db.subscriptions, w'.requests, w.account.unitAmounts)
    ensures forall t :: Unheard(w, t) ==> Unheard(w', t)
  {
    hide Proceeds, Sound, Began, EmittedInv, Priced, HasId, ReadId;
    BeganIsSound(w, op, cfg);
  }

  lemma BeginKeepsInv(w: World, r: RequestId, op: Operation, w': World, cfg: Config)
    requires Inv(w, cfg) && Next(w, Begin(r, op), w', cfg)
    ensures Inv(w', cfg)
  {
    hide Proceeds, Sound, Began, EmittedInv, Unheard, Owned, Known;
    BeganIsSound(w, op, cfg);
    BeginNamesNothing(w, r, op, w', cfg);
    EmissionsCarryOver(w, w', cfg);
  }

  lemma DropKeepsInv(w: World, r: RequestId, w': World, cfg: Config)
    requires Inv(w, cfg) && Next(w, Drop(r), w', cfg)
    ensures Inv(w', cfg)
  {
    hide Sound, EmittedInv, HasId, Saved, Proceeds, Began, WithSession, ToldAccount;
    EmissionsCarryOver(w, w', cfg);
  }

  lemma CheckoutKeepsInv(w: World, step: Step, w': World, cfg: Config)
    requires Inv(w, cfg) && Next(w, step, w', cfg) && step.OpenCheckout?
    ensures Inv(w', cfg)
  {
    hide FindOne, Known, Owned, AllSound, EmittedInv, HasId;
    EmissionsCarryOver(w, w', cfg);
  }

  lemma CompletionKeepsInv(w: World, step: Step, w': World, cfg: Config)
    requires Inv(w, cfg) && Next(w, step, w', cfg) && step.CompleteSession?
    ensures Inv(w', cfg)
  {
    hide Owned, AllSound, Saved, Proceeds, Began, WithSession, ToldAccount, ViolatesActiveIndex, ChargeFor;
    assert Unheard(w', step.subscriptionId);
    forall id | id in w'.emitted
      ensures EmissionOk(w', id, cfg)
    {
      assert id != step.id ==> EmissionOk(w, id, cfg);
    }
  }

  lemma NoticeKeepsInv(w: World, step: Step, w': World, cfg: Config)
    requires Inv(w, cfg) && Next(w, step, w', cfg) && (step.ChargeRenewal? || step.NotifyOther?)
    ensures Inv(w', cfg)
  {
    hide Owned, AllSound, Known, Priced, Saved, Proceeds, Began, WithSession, ToldAccount;
    forall id | id in w'.emitted
      ensures EmissionOk(w', id, cfg)
    {
      assert id in w.emitted ==> EmissionOk(w, id, cfg);
    }
  }

  lemma TrialKeepsInv(w: World, step: Step, w': World, cfg: Config)
    requires Inv(w, cfg) && Next(w, step, w', cfg) && step.StartTrial?
    ensures Inv(w', cfg)
  {
    hide Priced, EmittedInv, Suits, QuotaFor, GoesOnWithout, Saved, Proceeds, Began, WithSession, ToldAccount;
    var rows, rows' := w.db.subscriptions, w'.db.subscriptions;
    assert forall k, s: ProviderSubscriptionId {:trigger HasId(rows'[k], s)} :: 0 <= k < |rows'| && HasId(rows'[k], s)
             ==> k < |rows| && HasId(rows[k], s);
    assert forall r :: r in w.requests ==> Sound(w.requests[r], rows, w.account.ending, cfg);
    EmissionsCarryOver(w, w', cfg);
  }

  lemma NextKeepsInv(w: World, step: Step, w': World, cfg: Config)
    requires Inv(w, cfg) && Next(w, step, w', cfg)
    ensures Inv(w', cfg)
  {
    hide Inv, Next;
    match step
    case OpenCheckout(_, _, _) => CheckoutKeepsInv(w, step, w', cfg);
    case CompleteSession(_, _, _) => CompletionKeepsInv(w, step, w', cfg);
    case ChargeRenewal(_, _) => NoticeKeepsInv(w, step, w', cfg);
    case NotifyOther(_) => NoticeKeepsInv(w, step, w', cfg);
    case StartTrial(_) => TrialKeepsInv(w, step, w', cfg);
    case Begin(r, op) => BeginKeepsInv(w, r, op, w', cfg);
    case Tell(r) => TellKeepsInv(w, r, w', cfg);
    case Save(r) => SaveKeepsInv(w, r, w', cfg);
    case Drop(r) => DropKeepsInv(w, r, w', cfg);
  }

  const EMPTY: World := World(Tables({}, [], [], map[], {}, map[]), Account([], map[], {}), {}, map[], map[])

  ghost predicate Run(run: seq<World>, steps: seq<Step>, cfg: Config) {
    && |run| == |steps| + 1
    && run[0] == EMPTY.(db := EMPTY.db.(companies := run[0].db.companies))
    && forall i :: 0 <= i < |steps| ==> Next(run[i], steps[i], run[i + 1], cfg)
  }

  /**
   Each provider subscription belongs to one row, and unprocessed activations are still news, at every
   moment of every run.
   */
  lemma {:induction false} RunKeepsInv(run: seq<World>, steps: seq<Step>, cfg: Config, i: nat)
    requires Run(run, steps, cfg) && i < |run|
    ensures Inv(run[i], cfg)
  {
    if i > 0 {
      hide Next, Inv;
      RunKeepsInv(run, steps, cfg, i - 1);
      NextKeepsInv(run[i - 1], steps[i - 1], run[i], cfg);
    }
  }

  lemma StepOf(run: seq<World>, steps: seq<Step>, cfg: Config, n: nat)
    requires Run(run, steps, cfg) && n < |steps|
    ensures |run| == |steps| + 1 && Inv(run[n], cfg) && Next(run[n], steps[n], run[n + 1], cfg)
  {
    hide Next, Inv;
    RunKeepsInv(run, steps, cfg, n);
  }

  // ---- What one step leaves ----

  /** The row on which a request ends: what it saves, or what was there if it fails. */
  function LeftBy(w: World, step: Step, cfg: Config): Subscription
    requires (step.Save? || step.Drop?) && step.r in w.requests
    requires WellPlaced(w.requests[step.r], w.db.subscriptions) && w.requests[step.r].read.Some?
  {
    var rows, q := w.db.subscriptions, w.requests[step.r];
    if step.Save? && GoesThrough(w.db, q, cfg) then Writes(rows, q, cfg) else rows[q.at]
  }

  lemma RowsLeft(w: World, step: Step, w': World, cfg: Config)
    requires Inv(w, cfg) && Next(w, step, w', cfg) && (step.Save? || step.Drop?)
    ensures WellPlaced(w.requests[step.r], w.db.subscriptions)
    ensures var rows, rows', q := w.db.subscriptions, w'.db.subscriptions, w.requests[step.r];
            && w'.account == w.account && w'.requests == w.requests - {step.r}
            && |rows| <= |rows'| <= |rows| + 1
            && (forall k :: 0 <= k < |rows| && !(q.read.Some? && k == q.at) ==> rows'[k] == rows[k])
            && (|rows'| > |rows| <==> step.Save? && q.read.None? && Inserts(q.op) && GoesThrough(w.db, q, cfg))
            && (|rows'| > |rows| ==> rows'[|rows|] == Inserted(q.op, cfg))
            && (q.read.Some? ==> |rows'| == |rows| && rows'[q.at] == LeftBy(w, step, cfg))
  {
    hide Writes, Inv, Saved, Placed, GoesThrough, Suits, QuotaFor, Inserted, WritesBack;
    var q := w.requests[step.r];
    RequestsAreSound(w, step.r, cfg);
    if step.Save? {
      SavedTables(w.db, q, w.account.ending, cfg);
      PlacingRow(w.db.subscriptions, q, cfg);
    }
  }

  lemma RequestsAreSound(w: World, r: RequestId, cfg: Config)
    requires Inv(w, cfg) && r in w.requests
    ensures Sound(w.requests[r], w.db.subscriptions, w.account.ending, cfg)
  {
  }

  lemma EventsAreSent(w: World, r: RequestId, cfg: Config)
    requires Inv(w, cfg) && r in w.requests && w.requests[r].op.Process?
    ensures var event := w.requests[r].op.event;
            event.id in w.emitted && w.emitted[event.id].event == event && event.id !in w.db.markers
  {
  }

  lemma EmissionsAreStated(w: World, id: EventId, cfg: Config)
    requires Inv(w, cfg) && id in w.emitted
    ensures w.emitted[id].event.id == id
    ensures w.emitted[id].event.Activated? ==> ChargeFor(w.emitted[id].event.plan, cfg) == Ok(w.emitted[id].charged)
  {
    assert EmissionOk(w, id, cfg);
  }
}
