/**
 How provider notifications become domain events (src/adapters/payment/stripe-payment.adapter.ts),
 and what that means for the ledger.
 */
module StripeAdapter {
  import opened Common
  import opened BillingTypes
  import opened PaymentWebhook
  import opened LedgerRuns

  datatype BillingReason = SubscriptionCreate | SubscriptionCycle | SubscriptionUpdate | OtherReason

  /** The fields the adapter reads; absent ones are None. */
  datatype Notification =
    | CheckoutSessionCompleted(companyId: Option<CompanyId>, plan: Option<Plan>,
        subscription: Option<ProviderSubscriptionId>)
    | CheckoutSessionFailedOrExpired(companyId: Option<CompanyId>)
    | InvoicePaid(billingReason: BillingReason, subscription: Option<ProviderSubscriptionId>, amountPaid: int)
    | InvoicePaymentFailed(subscription: Option<ProviderSubscriptionId>)
    | CustomerSubscriptionUpdated(id: ProviderSubscriptionId, unpaid: bool)
    | CustomerSubscriptionDeleted(id: ProviderSubscriptionId)
    | UnhandledType

  datatype StripeEvent = StripeEvent(id: EventId, notification: Notification)

  datatype AdapterError = MissingMetadata | SessionWithoutSubscription | InvoiceWithoutSubscription

  function ToDomainEvent(e: StripeEvent): Result<Event, AdapterError> {
    match e.notification
    case CheckoutSessionCompleted(companyId, plan, subscription) =>
      if companyId.None? || plan.None? then Err(MissingMetadata)
      else if subscription.None? then Err(SessionWithoutSubscription)
      else Ok(Activated(e.id, subscription.value, companyId.value, plan.value))
    case InvoicePaid(_, _, _) => ToInvoicePaidDomainEvent(e.id, e.notification)
    case InvoicePaymentFailed(subscription) =>
      Ok(if subscription.None? then Ignored(e.id) else WentPastDue(e.id, subscription.value))
    case CustomerSubscriptionUpdated(id, unpaid) =>
      Ok(if unpaid then WasCancelled(e.id, id) else Ignored(e.id))
    case CustomerSubscriptionDeleted(id) => Ok(WasCancelled(e.id, id))
    case CheckoutSessionFailedOrExpired(companyId) =>
      Ok(if companyId.None? then Ignored(e.id) else PaymentFailed(e.id, companyId.value))
    case UnhandledType => Ok(Ignored(e.id))
  }

  function ToInvoicePaidDomainEvent(id: EventId, n: Notification): Result<Event, AdapterError>
    requires n.InvoicePaid?
  {
    match n.billingReason
    case SubscriptionCreate => Ok(Ignored(id))
    case SubscriptionCycle =>
      if n.subscription.None? then Err(InvoiceWithoutSubscription) else Ok(Renewed(id, n.subscription.value))
    case SubscriptionUpdate =>
      if n.subscription.None? then Err(InvoiceWithoutSubscription)
      else Ok(PlanChanged(id, n.subscription.value, n.amountPaid))
    case OtherReason => Ok(Ignored(id))
  }

  /** The notifications that stand for money received and not already accounted for. */
  predicate IsPayment(n: Notification) {
    n.CheckoutSessionCompleted?
        || (n.InvoicePaid? && (n.billingReason.SubscriptionCycle? || n.billingReason.SubscriptionUpdate?))
  }

  lemma TranslationBillsPayments(e: StripeEvent)
    ensures ToDomainEvent(e).Err? ==> IsPayment(e.notification)
    ensures ToDomainEvent(e).Ok? ==>
              && ToDomainEvent(e).value.id == e.id
              && (Bills(ToDomainEvent(e).value) <==> IsPayment(e.notification))
  {
  }

  datatype Post = Post(event: StripeEvent, env: Env)

  /** The endpoint over a run of posts: one that does not translate is refused before any table is touched. */
  function Accepted(posts: seq<Post>): seq<Delivery> {
    if posts == [] then []
    else
      var e := ToDomainEvent(posts[0].event);
      (if e.Ok? then [Delivery(e.value, posts[0].env)] else []) + Accepted(posts[1..])
  }

  lemma {:induction false} AcceptedComeFromPosts(posts: seq<Post>, i: nat)
    requires i < |Accepted(posts)|
    ensures exists k :: 0 <= k < |posts| && ToDomainEvent(posts[k].event) == Ok(Accepted(posts)[i].event)
  {
    if ToDomainEvent(posts[0].event).Err? || i > 0 {
      var j := if ToDomainEvent(posts[0].event).Ok? then i - 1 else i;
      AcceptedComeFromPosts(posts[1..], j);
      var k :| 0 <= k < |posts[1..]| && ToDomainEvent(posts[1..][k].event) == Ok(Accepted(posts[1..])[j].event);
      assert posts[k + 1] == posts[1..][k];
    }
  }

  lemma {:induction false} CommittedComeFrom(db: Tables, ds: seq<Delivery>, cfg: Config, i: nat)
    requires i < |Committed(db, ds, cfg)|
    ensures Committed(db, ds, cfg)[i] in ds
    decreases |ds|
  {
    if !Commits(db, ds[0], cfg) || i > 0 {
      CommittedComeFrom(Step(db, ds[0], cfg), ds[1..], cfg, if Commits(db, ds[0], cfg) then i - 1 else i);
    }
  }

  function ActivationIds(ds: seq<Delivery>): seq<EventId> {
    if ds == [] then [] else (if ds[0].event.Activated? then [ds[0].event.id] else []) + ActivationIds(ds[1..])
  }

  ghost predicate Has(ds: seq<Delivery>, id: EventId, p: Event -> bool) {
    exists i :: 0 <= i < |ds| && ds[i].event.id == id && p(ds[i].event)
  }

  /** Among deliveries of different events, an event is counted once if it is there, and else not at all. */
  lemma {:induction false} IdsCountOnce(ds: seq<Delivery>, id: EventId)
    requires NoDup(Ids(ds))
    ensures multiset(BillingIds(ds))[id] == if Has(ds, id, Bills) then 1 else 0
    ensures multiset(ActivationIds(ds))[id] == if Has(ds, id, (e: Event) => e.Activated?) then 1 else 0
  {
    if ds != [] {
      var rest := ds[1..];
      assert Ids(rest) == Ids(ds)[1..];
      IdsCountOnce(rest, id);
      HasInFront(ds, id, Bills);
      HasInFront(ds, id, (e: Event) => e.Activated?);
    }
  }

  lemma HasInFront(ds: seq<Delivery>, id: EventId, p: Event -> bool)
    requires ds != [] && NoDup(Ids(ds))
    ensures Has(ds, id, p) <==> (ds[0].event.id == id && p(ds[0].event)) || Has(ds[1..], id, p)
    ensures ds[0].event.id == id ==> !Has(ds[1..], id, p)
  {
    var rest := ds[1..];
    assert forall i :: 0 <= i < |rest| ==> rest[i] == ds[i + 1] && Ids(ds)[i + 1] == rest[i].event.id;
    assert Ids(ds)[0] == ds[0].event.id;
    if Has(ds, id, p) && !(ds[0].event.id == id && p(ds[0].event)) {
      var i :| 0 <= i < |ds| && ds[i].event.id == id && p(ds[i].event);
      assert rest[i - 1] == ds[i];
    }
    if Has(rest, id, p) {
      var i :| 0 <= i < |rest| && rest[i].event.id == id && p(rest[i].event);
      assert ds[i + 1] == rest[i];
    }
  }

  /** What a committed delivery with a given id was posted as. */
  lemma CommittedWasPosted(db: Tables, posts: seq<Post>, cfg: Config, i: nat, e: StripeEvent)
    requires i < |Committed(db, Accepted(posts), cfg)|
    requires Committed(db, Accepted(posts), cfg)[i].event.id == e.id
    requires forall k :: 0 <= k < |posts| && posts[k].event.id == e.id ==> posts[k].event == e
    ensures ToDomainEvent(e) == Ok(Committed(db, Accepted(posts), cfg)[i].event)
  {
    hide Committed, Accepted, ToDomainEvent;
    var ds := Accepted(posts);
    CommittedComeFrom(db, ds, cfg, i);
    var j :| 0 <= j < |ds| && ds[j] == Committed(db, ds, cfg)[i];
    AcceptedComeFromPosts(posts, j);
    var k :| 0 <= k < |posts| && ToDomainEvent(posts[k].event) == Ok(ds[j].event);
    TranslationBillsPayments(posts[k].event);
  }

  /**
   A first payment is announced twice: by the completed checkout session and by the paid
   subscription_create invoice. Whatever else is posted, however often and in whatever order,
   and however often processing fails, it activates once and is billed once if the checkout
   ever committed, and not at all otherwise; the other announcement does neither.
   */
  lemma FirstPaymentIsBilledOnce(db: Tables, posts: seq<Post>, checkout: StripeEvent, invoice: StripeEvent, cfg: Config)
    requires checkout.notification.CheckoutSessionCompleted?
    requires invoice.notification.InvoicePaid? && invoice.notification.billingReason.SubscriptionCreate?
    requires forall k :: 0 <= k < |posts| && posts[k].event.id == checkout.id ==> posts[k].event == checkout
    requires forall k :: 0 <= k < |posts| && posts[k].event.id == invoice.id ==> posts[k].event == invoice
    requires checkout.id !in db.markers
    ensures var once, db' := Committed(db, Accepted(posts), cfg), After(db, Accepted(posts), cfg);
            var news := BillingIds(once);
            && BilledIds(db'.invoices) == BilledIds(db.invoices) + news
            && multiset(news)[checkout.id] == (if checkout.id in db'.markers then 1 else 0)
            && multiset(ActivationIds(once))[checkout.id] == (if checkout.id in db'.markers then 1 else 0)
            && multiset(news)[invoice.id] == multiset(ActivationIds(once))[invoice.id] == 0
  {
    hide Committed, After, Accepted, Bills, BillingIds, ActivationIds, ToDomainEvent;
    var ds := Accepted(posts);
    var once := Committed(db, ds, cfg);
    ExactlyOnce(db, ds, cfg);
    InvoicesMatchEvents(db, ds, cfg);
    IdsCountOnce(once, checkout.id);
    IdsCountOnce(once, invoice.id);
    FirstPaymentEvents(checkout, invoice);
    forall i | 0 <= i < |once|
      ensures once[i].event.id == checkout.id ==> Bills(once[i].event) && once[i].event.Activated?
      ensures once[i].event.id == invoice.id ==> !Bills(once[i].event) && !once[i].event.Activated?
    {
      if once[i].event.id == checkout.id {
        CommittedWasPosted(db, posts, cfg, i, checkout);
      }
      if once[i].event.id == invoice.id {
        CommittedWasPosted(db, posts, cfg, i, invoice);
      }
    }
    assert checkout.id in After(db, ds, cfg).markers <==> checkout.id in IdSet(once);
  }

  lemma FirstPaymentEvents(checkout: StripeEvent, invoice: StripeEvent)
    requires checkout.notification.CheckoutSessionCompleted?
    requires invoice.notification.InvoicePaid? && invoice.notification.billingReason.SubscriptionCreate?
    ensures ToDomainEvent(checkout).Ok?
        ==> ToDomainEvent(checkout).value.Activated? && Bills(ToDomainEvent(checkout).value)
    ensures ToDomainEvent(invoice).Ok? && !Bills(ToDomainEvent(invoice).value)
        && !ToDomainEvent(invoice).value.Activated?
  {
  }

  /** Over any posts whatsoever, only payments are ever billed. */
  lemma OnlyPaymentsAreBilled(db: Tables, posts: seq<Post>, cfg: Config, i: nat)
    requires |db.invoices| <= i < |After(db, Accepted(posts), cfg).invoices|
    ensures exists k :: 0 <= k < |posts| && IsPayment(posts[k].event.notification)
                        && posts[k].event.id == After(db, Accepted(posts), cfg).invoices[i].stripeEventId
  {
    var ds := Accepted(posts);
    var once, db' := Committed(db, ds, cfg), After(db, ds, cfg);
    InvoicesMatchEvents(db, ds, cfg);
    var id := BilledIds(db'.invoices)[i];
    assert id == BillingIds(once)[i - |db.invoices|];
    BillingIdsComeFrom(once, i - |db.invoices|);
    var c :| 0 <= c < |once| && Bills(once[c].event) && once[c].event.id == id;
    CommittedComeFrom(db, ds, cfg, c);
    var j :| 0 <= j < |ds| && ds[j] == once[c];
    AcceptedComeFromPosts(posts, j);
    var k :| 0 <= k < |posts| && ToDomainEvent(posts[k].event) == Ok(ds[j].event);
    TranslationBillsPayments(posts[k].event);
  }

  lemma {:induction false} BillingIdsComeFrom(ds: seq<Delivery>, i: nat)
    requires i < |BillingIds(ds)|
    ensures exists c :: 0 <= c < |ds| && Bills(ds[c].event) && ds[c].event.id == BillingIds(ds)[i]
  {
    if !Bills(ds[0].event) || i > 0 {
      var j := if Bills(ds[0].event) then i - 1 else i;
      BillingIdsComeFrom(ds[1..], j);
      var c :| 0 <= c < |ds[1..]| && Bills(ds[1..][c].event) && ds[1..][c].event.id == BillingIds(ds[1..])[j];
      assert ds[c + 1] == ds[1..][c];
    }
  }

  // ---- What rows come to is announced ----

  /** The event that puts a row where it is. */
  predicate Names(event: Event, row: Subscription) {
    || (row.status.Cancelled? && event.WasCancelled? && row.externalId == Some(event.subscriptionId))
    || (row.status.PastDue? && event.WentPastDue? && row.externalId == Some(event.subscriptionId))
    || (row.status.PastDue? && event.PaymentFailed? && row.companyId == event.companyId)
  }

  lemma StepNames(db: Tables, d: Delivery, cfg: Config, i: nat)
    requires i < |db.subscriptions|
    ensures i < |Step(db, d, cfg).subscriptions|
    ensures var row' := Step(db, d, cfg).subscriptions[i];
            row' != db.subscriptions[i] && (row'.status.Cancelled? || row'.status.PastDue?) ==> Names(d.event, row')
  {
    hide Step, Commits, ResolveContactQuota;
    StepShape(db, d, cfg);
  }

  lemma {:induction false} RowsAreNamed(db: Tables, ds: seq<Delivery>, cfg: Config, i: nat)
    requires i < |db.subscriptions|
    ensures i < |After(db, ds, cfg).subscriptions|
    ensures var row' := After(db, ds, cfg).subscriptions[i];
            row' != db.subscriptions[i] && (row'.status.Cancelled? || row'.status.PastDue?)
            ==> exists k :: 0 <= k < |ds| && Names(ds[k].event, row')
    decreases |ds|
  {
    if ds != [] {
      hide Step, Names;
      StepNames(db, ds[0], cfg, i);
      RowsAreNamed(Step(db, ds[0], cfg), ds[1..], cfg, i);
      var row' := After(db, ds, cfg).subscriptions[i];
      if k :| 0 <= k < |ds[1..]| && Names(ds[1..][k].event, row') {
        assert Names(ds[k + 1].event, row');
      }
    }
  }

  /** The provider's own words for it. */
  predicate Announces(n: Notification, row: Subscription) {
    if row.status.Cancelled? then
      || (n.CustomerSubscriptionDeleted? && row.externalId == Some(n.id))
      || (n.CustomerSubscriptionUpdated? && n.unpaid && row.externalId == Some(n.id))
    else
      || (n.InvoicePaymentFailed? && n.subscription.Some? && row.externalId == n.subscription)
      || (n.CheckoutSessionFailedOrExpired? && n.companyId == Some(row.companyId))
  }

  lemma NamedIsAnnounced(e: StripeEvent, row: Subscription)
    requires ToDomainEvent(e).Ok? && Names(ToDomainEvent(e).value, row)
    ensures Announces(e.notification, row)
  {
  }

  /** Over any posts, a row that comes to be cancelled or past due was named in a posted notification that says so. */
  lemma EndedRowsWereAnnounced(db: Tables, posts: seq<Post>, cfg: Config, i: nat)
    requires i < |db.subscriptions|
    ensures i < |After(db, Accepted(posts), cfg).subscriptions|
    ensures var row' := After(db, Accepted(posts), cfg).subscriptions[i];
            row' != db.subscriptions[i] && (row'.status.Cancelled? || row'.status.PastDue?)
            ==> exists k :: 0 <= k < |posts| && Announces(posts[k].event.notification, row')
  {
    hide After, Accepted, Names, Announces, ToDomainEvent;
    var ds := Accepted(posts);
    RowsAreNamed(db, ds, cfg, i);
    var row' := After(db, ds, cfg).subscriptions[i];
    if row' != db.subscriptions[i] && (row'.status.Cancelled? || row'.status.PastDue?) {
      var j :| 0 <= j < |ds| && Names(ds[j].event, row');
      AcceptedComeFromPosts(posts, j);
      var k :| 0 <= k < |posts| && ToDomainEvent(posts[k].event) == Ok(ds[j].event);
      NamedIsAnnounced(posts[k].event, row');
    }
  }
}
