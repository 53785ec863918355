# Recruitment platform backend: verified model

A Dafny model of the parts of the backend whose correctness depends on more than one
function: the billing ledger, session refresh, the assessment engine, and two byte-level codecs.
Database tables are sequences, sets and maps; a transaction commits or rolls back as one step
(or as interleaved statements where its locking is the point); time is an input; money is in
centimes, percentages and scores in hundredths, and `Math.round` takes halves up on exact numbers.

`dafny verify dfyconfig.toml` checks the whole project.

| Module | What it models |
|---|---|
| `Common`, `BillingTypes`, `Tax` | shared types; plans, statuses and their transitions; VAT |
| `InvoiceNumbering` | the yearly counter under row locks, and the text of a number |
| `PaymentWebhook` | one delivery of one payment event, as the service's methods and as a function on the tables |
| `LedgerRuns` | whole runs of deliveries, one after the other: duplicates, failures, retries |
| `StripeAdapter` | provider notifications turned into events, composed with the ledger |
| `NotificationEffects` | what a posted notification does to the tables, and when, in terms of the notification and the tables alone |
| `SubscriptionCheckout` | checkout, plan change and period-end cancellation, two parties |
| `SubscriptionAdmin` | the staff's operations: cancel, suspend, reactivate, assign a plan |
| `RowRequests` | every write of a subscription row in parts, by a service or the webhook: read, tell the provider, save the row as read |
| `ServiceRuns` | ledger, provider, and all those requests and deliveries, interleaved and failing anywhere |
| `DeliveryRuns` | over these runs: each event once, invoices in order, numbers without a gap |
| `ChargedRuns` | over these runs: what is charged, what the rows say, what is invoiced |
| `SubscriptionRuns` | over these runs: cancelled rows, past-due dates, quotas, pending cancellations, one live row, paid periods |
| `ReachedRuns` | runs from empty tables in which each of these comes apart |
| `TrialRedemption` | trial codes under interleaved transactions with stale reads |
| `RefreshTokens`, `SessionProtocol` | token rotation on the server, and with the browser's single-flight refresh |
| `Base32`, `ClamavFraming` | the TOTP secret codec; the antivirus stream framing |
| `Attempts`, `ExamDraw`, `Grading` | attempt lifecycle, seeded draw, grades and stored scores |
| `Percentiles`, `Indexation` | the percentile sweep; the CV index flags as a cache |

A class has the fields its service writes; each of its methods is proved to leave the tables
as a function of the old tables says, and the lemmas are about that function over all runs.

## What the code does not do

These hold of the code as it is, each stated by a lemma with its exact condition or a run that reaches it.

- The decoder's comment promises that padding and spaces are tolerated. A space behind the padding is not
  (`Base32.InsertedSpaceIsIgnoredIff`, `Base32.SpaceAfterPaddingIsRejected`).
- A renewal's invoice states the price of the plan the row has when its delivery reads it, not what was collected
  (`ChargedRuns.InvoiceStatesTheCharge`, `ReachedRuns.RenewalInvoiceCanMissTheCharge`).
- Charge and plan part when a plan is saved that costs something else than is collected: a plan change that is lost
  after the provider took it, two that overlap, a plan assigned by the staff, a delivery that read the row before the
  plan was changed (`ChargedRuns.ProviderChargesThePlanIff`, `ChargedRuns.SavedPlanIsChargedIff`,
  `ReachedRuns.OverlappingPlanChanges`, `ReachedRuns.AssignedPlanIsNotCharged`, `ReachedRuns.LateRenewalRestoresPlan`).
- A period that was paid for, processed and invoiced is lost when a request that read the row before is saved
  (`SubscriptionRuns.PaidPeriodsAddUpIff`, `ReachedRuns.PaidPeriodIsLost`).
- A save writes back the whole row as it was read, so what others committed in between is lost, a cancellation or an
  activation included (`RowRequests.SaveLosesNothingIff`, `ReachedRuns.LateSaveRevivesRow`,
  `ReachedRuns.LateRedemptionUndoesActivation`). The webhook's own save is no exception: a renewal under way makes a
  row active again that the staff cancelled meanwhile (`ReachedRuns.LateRenewalRevivesRow`). The lifecycle's comment calls cancelled rows terminal; the exact steps
  that rewrite one are in `SubscriptionRuns.CancelledRowChangesIff`.
- The staff's cancellation knows no lifecycle: it rewrites cancelled rows, and leaves the past-due date on a row that
  had one (`SubscriptionRuns.FreshSaveMovesRowIff`, `SubscriptionRuns.CancelledIsNotPastDueIff`,
  `ReachedRuns.CancelledRowIsRewritten`, `ReachedRuns.CancelledRowIsPastDue`).
- Quota and plan part when a trial is provisioned, or a plan assigned, with another quota than the plan's; the comment
  on plan quotas says that provisioning reads the same configuration, but it reads a setting first
  (`SubscriptionRuns.QuotasFollowPlansIff`).
- A row that was to end with its period keeps that flag when it is paid for anew. The provider does not know, and
  cancelling again is a silent success (`SubscriptionRuns.FlagsAreToldIff`, `ReachedRuns.FlagOutlivesItsSubscription`).
- Revoking a trial code writes the count back that it read, and can lose a use (`TrialRedemption.RedemptionsAreConservedIff`,
  `TrialRedemption.RevocationCanLoseAUse`); a redemption puts back a trial that was ended meanwhile
  (`TrialRedemption.RedemptionOverwritesIff`).
- Purged dedup markers bill nothing twice, and an event delivered again at once changes nothing; but a failure notice
  whose marker is gone demotes its row again after the renewal that made up for it (`LedgerRuns.PurgingBillsNothingTwice`,
  `LedgerRuns.RedeliveredAtOnceChangesNothing`, `LedgerRuns.PurgedFailureNoticeDemotesAgain`).
- Reloading a page while the stored refresh token is out makes its next refresh a reuse, which ends all the user's
  sessions (`SessionProtocol.NoTokenIsPresentedTwiceIff`, `SessionProtocol.ReloadIsReuseIff`).
- Two attempts at one exam can be in progress at once: start, incident, start again, resume
  (`Attempts.OneInProgressIsKeptIff`, `Attempts.TwoCanRunAtOnce`).
- The index flags can be stale after a failed re-indexing, with a publish threshold of zero, and after a percentile
  sweep (`Indexation.FailedReindexAgreesIff`, `Indexation.NewProfileAgreesIff`, `Indexation.SweepAgreesIff`,
  `Indexation.SweepMakesFlagsStale`, `Indexation.DefaultBoundGoesStale`).
- Percentiles with two decimals separate neighbouring ranks exactly up to 10000 scores in a cohort
  (`Percentiles.RoundingSeparatesIff`).
- A specialty named like a property that every JavaScript object inherits (`constructor`, `toString`, ...) makes the
  exam draw throw (`ExamDraw.ExamIsDrawnIff`).

## Model

| member | source | states |
|---|---|---|
| `Tax.BreakdownAddsUp` | src/modules/billing/tax.ts:24-51 | both computations keep the amount they start from and HT + VAT = TTC, for every integer |
| `Tax.HtSurvivesTheRoundTrip` | src/modules/billing/tax.ts:24-51 | the price before tax is recovered from what is charged, for every integer |
| `Tax.TtcRoundTripError` | src/modules/billing/tax.ts:24-51 | recomputing the total is exact except at 3 mod 6, where it is one centime too high |
| `Tax.ChargeIsStrictlyMonotone` | src/modules/billing/tax.ts:24-36 | different prices are charged differently, in the same order |
| `InvoiceNumbering.InvoiceNumberIsInjective` | src/modules/billing/invoice-numbering.ts:59-59 | the formatted number determines year and number, past four digits and for every year |
| `InvoiceNumbering.NumberReads` | src/modules/billing/invoice-numbering.ts:59-59 | the text is the year, a dash, and the number in at least four digits, reading back as both |
| `InvoiceNumbering.RunKeepsInv` | src/modules/billing/invoice-numbering.ts:31-60 | lock ownership and counters stay consistent under any interleaving of transactions and aborts |
| `InvoiceNumbering.NumberingIsGapFree` | src/modules/billing/invoice-numbering.ts:31-60 | at any point of any interleaving, each year's committed invoices carry 1..lastNumber once each, in order; texts are distinct; an open transaction's number is free |
| `InvoiceNumbering.AloneIsAnUninterruptedRun` | src/modules/billing/invoice-numbering.ts:31-60 | the effect the ledger gives an emission is the one its locked statements have when nothing interferes |
| `InvoiceNumbering.CommittedTextsDiffer` | src/modules/billing/invoice-numbering.ts:31-60 | no two committed invoices share their formatted number |
| `InvoiceNumbering.NextNumberIsFree` | src/modules/billing/invoice-numbering.ts:54-59 | the number after the counter formats to a text no committed invoice has |
| `PaymentWebhook.PaymentWebhookService.HandleWebhook` | src/modules/billing/payment-webhook.service.ts:82-112 | marker and effect commit together or the tables are as before; only the marker's conflict is reported as already processed |
| `PaymentWebhook.PaymentWebhookService.ApplyEffect` | src/modules/billing/payment-webhook.service.ts:114-143 | each kind of event has the effect specified for it, or fails with its error |
| `PaymentWebhook.PaymentWebhookService.ActivateSubscription` | src/modules/billing/payment-webhook.service.ts:145-264 | the row written, its index conflict, the conversion mark, the invoice, and every error on the way |
| `PaymentWebhook.PaymentWebhookService.RenewSubscription` | src/modules/billing/payment-webhook.service.ts:266-340 | one more period from the old end, usage reset, past due cleared, invoice issued |
| `PaymentWebhook.PaymentWebhookService.MarkPastDue` | src/modules/billing/payment-webhook.service.ts:342-394 | the company's active row, if any, becomes past due without a date |
| `PaymentWebhook.PaymentWebhookService.MarkSubscriptionPastDue` | src/modules/billing/payment-webhook.service.ts:396-445 | only an active row becomes past due, dated now |
| `PaymentWebhook.PaymentWebhookService.HandlePlanChangeInvoice` | src/modules/billing/payment-webhook.service.ts:447-494 | no row changes; the amount paid is invoiced |
| `PaymentWebhook.PaymentWebhookService.CancelSubscription` | src/modules/billing/payment-webhook.service.ts:496-540 | cancels where the lifecycle allows, is a no-op when cancelled already, else fails |
| `PaymentWebhook.PaymentWebhookService.Emit` | src/modules/billing/invoice-emission.service.ts:33-114 | amounts, number and insert of an invoice, with the errors of each step |
| `PaymentWebhook.PaymentWebhookService.AllocateInvoiceNumber` | src/modules/billing/invoice-numbering.ts:31-60 | the year's counter goes up by one, from zero if it is new, and the new value is returned |
| `PaymentWebhook.OnlyTheMarkerConflicts` | src/modules/billing/payment-webhook.service.ts:90-112 | no failure inside the effect can be mistaken for the dedup marker's conflict |
| `LedgerRuns.OutcomeMeaning` | src/modules/billing/payment-webhook.service.ts:82-112 | already processed iff the marker was committed; a failure changes nothing and leaves no marker, so a retry can apply |
| `LedgerRuns.ExactlyOnce` | src/modules/billing/payment-webhook.service.ts:82-143 | any delivery sequence ends as if each committed event had been delivered once and nothing else had arrived; the markers are exactly those events |
| `LedgerRuns.CommittedForGood` | src/modules/billing/payment-webhook.service.ts:82-112 | after any later deliveries a committed event is still answered as already processed, changing nothing |
| `LedgerRuns.InvoicesMatchEvents` | src/modules/billing/payment-webhook.service.ts:114-143 | the new invoices are, in order, one per committed activation, renewal and plan change |
| `LedgerRuns.LedgerStaysSound` | src/modules/billing/invoice-emission.service.ts:33-114 | over all runs numbering stays gap-free and no delivery ever fails on an invoice index |
| `LedgerRuns.DeliveryStepsRows` | src/modules/billing/payment-webhook.service.ts:145-540 | a delivery changes a row only along the lifecycle, keeps quota and plan together, never touches a cancelled row nor a past-due row that stays past due |
| `LedgerRuns.RowsStaySound` | src/modules/billing/payment-webhook.service.ts:145-540 | over all delivery runs quotas match plans and cancelled rows are final and not past due |
| `LedgerRuns.StepKeepsOneLive` | src/database/migrations/1785426763260-AddSubscriptionsActiveUniqueIndex.ts:7-7 | at most one trial or active row per company survives every delivery |
| `LedgerRuns.GracePeriodIsNotExtended` | src/modules/billing/payment-webhook.service.ts:396-445 | without activation, renewal or cancellation no run of events changes a past-due row |
| `LedgerRuns.RenewalsExtendThePeriod` | src/modules/billing/payment-webhook.service.ts:266-340 | k committed renewals add exactly 30k days to the end, whatever else the run contains |
| `LedgerRuns.PeriodsSinceActivation` | src/modules/billing/payment-webhook.service.ts:145-340 | activated at t by a new subscription and renewed k times, a row ends at t + 30(k+1) days |
| `LedgerRuns.PurgingBillsNothingTwice` | src/modules/notifications/data-retention.service.ts:98-108 | under any purges of markers each event has at most one invoice and the numbering no gap |
| `LedgerRuns.BilledNeverAppliesAgain` | src/modules/billing/entities/invoice.entity.ts:23-26 | an event with an invoice changes nothing any more, marker or not |
| `LedgerRuns.RefusedIffBilled` | src/modules/billing/entities/invoice.entity.ts:23-26 | the invoice indexes refuse an invoice iff its event has one |
| `LedgerRuns.RedeliveredAtOnceChangesNothing` | src/modules/billing/payment-webhook.service.ts:145-540 | an event whose marker is purged right after it was processed changes no row and no invoice when delivered again |
| `LedgerRuns.PurgedFailureNoticeDemotesAgain` | src/modules/billing/payment-webhook.service.ts:396-445 | a failure, the renewal after it, and the failure again without its marker: the row is past due, with its paid period |
| `StripeAdapter.TranslationBillsPayments` | src/adapters/payment/stripe-payment.adapter.ts:179-353 | an event keeps its id, is billable iff its notification is a payment not announced otherwise, and only payments are refused |
| `StripeAdapter.EndedRowsWereAnnounced` | src/adapters/payment/stripe-payment.adapter.ts:179-297 | over any posts, a row that comes to be cancelled or past due was named, by subscription or company, in a posted notification that says so |
| `StripeAdapter.FirstPaymentIsBilledOnce` | src/adapters/payment/stripe-payment.adapter.ts:179-353 | among any other posts, in any order and multiplicity and with failures, the two announcements of a first payment yield one invoice and one activation iff the checkout ever committed, and none for the other |
| `StripeAdapter.OnlyPaymentsAreBilled` | src/adapters/payment/stripe-payment.adapter.ts:299-353 | over any posts, every new invoice belongs to a posted payment |
| `NotificationEffects.PostsDoWhatTheySay` | src/adapters/payment/stripe-payment.adapter.ts:179-353 | over any posts, each that is processed does to rows, invoices and conversions exactly what its notification says (30 more days for a cycle, the amount paid invoiced for an update, the plan named running for a checkout, cancelled, past due), and any other nothing |
| `NotificationEffects.PostIsProcessedIff` | src/modules/billing/payment-webhook.service.ts:114-540 | over any posts, one is processed iff it was not before and the row, company, quota and price it needs are there and the calls outside return |
| `NotificationEffects.HandlerBills` | src/modules/billing/invoice-emission.service.ts:51-106 | a transaction adds one invoice of its event, row and company, with price and a fifth as tax or, for a plan change, the amount paid and five sixths of it as price, or none |
| `SubscriptionCheckout.SubscriptionCheckoutService.CreateCheckoutSession` | src/modules/billing/subscription-checkout.service.ts:48-95 | a session asks for the plan's price with VAT, or the request fails and asks for nothing |
| `SubscriptionCheckout.SubscriptionCheckoutService.ChangePlan` | src/modules/billing/subscription-checkout.service.ts:151-212 | both sides after every way the request can end, the half-done one included |
| `SubscriptionCheckout.SubscriptionCheckoutService.CancelSubscription` | src/modules/billing/subscription-checkout.service.ts:97-146 | both sides after every way the request can end |
| `SubscriptionCheckout.PeriodEndCancellationIsIdempotent` | src/modules/billing/subscription-checkout.service.ts:97-146 | cancelling again changes neither side, even if the provider is down |
| `SubscriptionCheckout.PlanChangedBackIff` | src/modules/billing/subscription-checkout.service.ts:151-212 | a plan changed and changed back restores the rows iff the quota was the plan's, and the provider's side iff its price was collected |
| `SubscriptionCheckout.SessionIsOpenedIff` | src/modules/billing/subscription-checkout.service.ts:48-95 | a checkout is opened iff nothing of the company runs, the plan is priced and the provider answers, for the price plus a fifth |
| `SubscriptionCheckout.PlanIsChangedIff` | src/modules/billing/subscription-checkout.service.ts:151-212 | which plan changes reach the provider and the row, and the plan, quota and amount they leave |
| `SubscriptionCheckout.PeriodEndIsSetIff` | src/modules/billing/subscription-checkout.service.ts:97-146 | when the flag is set and the provider told, and nothing else |
| `SubscriptionCheckout.NothingToChange` | src/modules/billing/subscription-checkout.service.ts:102-116 | without a billed row that the provider knows both are refused |
| `SubscriptionAdmin.SubscriptionAdminService.Cancel` | src/modules/companies/subscription-admin.service.ts:99-106 | any row, whatever its status, becomes cancelled, ended now and unflagged, all else kept |
| `SubscriptionAdmin.SubscriptionAdminService.Suspend` | src/modules/companies/subscription-admin.service.ts:113-133 | a row that may be suspended is, its flag cleared and all else kept |
| `SubscriptionAdmin.SubscriptionAdminService.Reactivate` | src/modules/companies/subscription-admin.service.ts:139-170 | a suspended row becomes active unless its company has another live one |
| `SubscriptionAdmin.SubscriptionAdminService.AssignPlan` | src/modules/companies/subscription-admin.service.ts:228-270 | the latest live row, or a new one, gets plan and quota, or the request fails and changes nothing |
| `SubscriptionAdmin.AssignmentFailsIff` | src/modules/companies/subscription-admin.service.ts:238-253 | an assignment meets the unique index iff an older row of the company is a trial or active |
| `SubscriptionAdmin.ReactivationMeetsIndexIff` | src/modules/companies/subscription-admin.service.ts:139-170 | a reactivation is refused iff the unique index would refuse it, and keeps one live row per company |
| `SubscriptionAdmin.SuspendedAndLiftedIff` | src/modules/companies/subscription-admin.service.ts:113-170 | a hold on a live row can be lifted, and then the rows are as before iff the row was active and unflagged |
| `SubscriptionAdmin.StaffDoes` | src/modules/companies/subscription-admin.service.ts:99-170 | what cancelling, suspending and reactivating make of a row, and when they are refused |
| `SubscriptionAdmin.AssignmentDoes` | src/modules/companies/subscription-admin.service.ts:228-270 | which assignments are refused, and the row each other one leaves: that plan, the quota given or the plan's, running without end |
| `RowRequests.PlanChangeAlone` | src/modules/billing/subscription-checkout.service.ts:151-212 | read, told and saved with nothing in between, a plan change is the one of its service |
| `RowRequests.PeriodEndCancellationAlone` | src/modules/billing/subscription-checkout.service.ts:97-146 | the same for a cancellation at the period's end |
| `RowRequests.StaffOperationAlone` | src/modules/companies/subscription-admin.service.ts:99-270 | the same for the staff's operations, refusals included |
| `RowRequests.DeliveryAlone` | src/modules/billing/payment-webhook.service.ts:82-143 | read and saved with nothing in between, an event is the delivery of the webhook service, failures included |
| `RowRequests.SaveLosesNothingIff` | src/modules/billing/subscription-checkout.service.ts:156-191 | a save does to the row as it is by then what was asked iff no field it leaves alone was changed since it was read |
| `RowRequests.RedemptionUndoesActivation` | src/modules/billing/trial-code-redemption.service.ts:56-114 | a redemption saved over a row that is no trial any more makes it one, with the provider it had then |
| `RowRequests.ConsumptionCountsOne` | src/modules/companies/contact-quota.service.ts:107-160 | a contact is counted once on the row as it then is, never beyond the quota |
| `RowRequests.RedemptionWrites` | src/modules/billing/trial-code-redemption.service.ts:101-114 | a redeemed trial gets plan, that plan's quota and end, and keeps all else |
| `RowRequests.ProceedsIff` | src/modules/companies/subscription-admin.service.ts:99-270 | which staff operations, redemptions and consumptions get past their checks |
| `RowRequests.ToldProceedsIff` | src/modules/billing/subscription-checkout.service.ts:97-172 | which plan changes and cancellations do, and with which row |
| `ServiceRuns.RunKeepsInv` | src/modules/billing/payment-webhook.service.ts:145-264 | in every run each provider subscription belongs to one row and one row's requests, an unprocessed activation names a new one, and no event is processed twice at a time |
| `DeliveryRuns.LedgerStaysSound` | src/modules/billing/payment-webhook.service.ts:82-143 | at every moment of every run, deliveries overlapping, numbers have no gap and the invoices are, in order, one per billing event committed so far |
| `DeliveryRuns.CommittedOnce` | src/modules/billing/payment-webhook.service.ts:82-112 | however deliveries of an event overlap, fail and repeat, it is committed at most once |
| `DeliveryRuns.InvoiceIsNeverRefused` | src/modules/billing/invoice-emission.service.ts:33-114 | nor does a delivery under way ever fail on an invoice index |
| `ChargedRuns.ProviderChargesThePlanIff` | src/modules/billing/subscription-checkout.service.ts:73-191 | over every run: each row is charged its plan's price, but for changes under way, iff no request and no delivery parted the two |
| `ChargedRuns.StepPartsIff` | src/modules/billing/subscription-checkout.service.ts:151-191 | a step parts charge and plan iff it saves a plan, asked for or read, at another price than is collected for the subscription read, or loses a change the provider knows of, and no change is still to come |
| `ChargedRuns.FreshSavePartsIff` | src/modules/companies/subscription-admin.service.ts:244-253 | a save of a row nobody wrote since parts them iff it sets a plan at another price than is collected |
| `ChargedRuns.LossPartsIff` | src/modules/billing/subscription-checkout.service.ts:181-191 | a request that fails parts them iff it is a plan change the provider was told of, alone, at another price |
| `ChargedRuns.SavedPlanIsChargedIff` | src/modules/billing/subscription-checkout.service.ts:173-191 | a plan change that is saved is charged iff the plan the provider was told last, between its answer and the save, costs the same |
| `ChargedRuns.InvoiceStatesTheCharge` | src/modules/billing/invoice-emission.service.ts:51-59 | in every run an activation's invoice states what was collected; a renewal's does iff the plan its delivery read costs that |
| `ChargedRuns.InvoiceStatesItsAmounts` | src/modules/billing/invoice-emission.service.ts:51-106 | in every run, whatever a delivery overlapped, a plan change's invoice states the amount the provider took, five sixths of it before tax, for the row that had the subscription; others the plan's price and a fifth of it as tax |
| `ReachedRuns.RenewalInvoiceCanMissTheCharge` | src/modules/billing/subscription-checkout.service.ts:173-191 | a reached state in which 1188 were collected for a renewal that will be invoiced at 3480 |
| `ReachedRuns.OverlappingPlanChanges` | src/modules/billing/subscription-checkout.service.ts:151-191 | two overlapping changes leave a row on one plan and the provider on the other |
| `ReachedRuns.AssignedPlanIsNotCharged` | src/modules/companies/subscription-admin.service.ts:228-254 | a plan assigned by the staff is not what is collected, and its quota need not be the plan's |
| `ReachedRuns.CancelledRowIsRewritten` | src/modules/companies/subscription-admin.service.ts:99-106 | a reached cancelled row is cancelled again and ends anew |
| `ReachedRuns.CancelledRowIsPastDue` | src/modules/companies/subscription-admin.service.ts:99-106 | a reached row is cancelled and keeps its past-due date |
| `ReachedRuns.LateSaveRevivesRow` | src/modules/billing/subscription-checkout.service.ts:97-123 | a cancellation processed during the provider call is undone by the save |
| `ReachedRuns.LateRedemptionUndoesActivation` | src/modules/billing/trial-code-redemption.service.ts:56-114 | a redemption around an activation makes the paid row a trial again |
| `ReachedRuns.FlagOutlivesItsSubscription` | src/modules/billing/payment-webhook.service.ts:163-189 | a reactivated row is flagged, its subscription is not ending, and cancelling it does nothing |
| `ReachedRuns.PaidPeriodIsLost` | src/modules/billing/subscription-checkout.service.ts:156-191 | a renewal is committed and invoiced, and its active row still ends with its first period |
| `ReachedRuns.LateRenewalRevivesRow` | src/modules/billing/payment-webhook.service.ts:266-340 | a row cancelled by the staff during a renewal's transaction is active again after it |
| `ReachedRuns.LateRenewalRestoresPlan` | src/modules/billing/payment-webhook.service.ts:266-340 | a plan changed during a renewal's transaction is the old one again, at the new one's charge |
| `ChargedRuns.HalfDonePlanChange` | src/modules/billing/subscription-checkout.service.ts:173-191 | a plan change lost on saving leaves charge and plan in agreement iff both plans cost the same |
| `SubscriptionRuns.FreshSaveMovesRowIff` | src/modules/companies/subscription-lifecycle.ts:11-45 | a save, a service's or the webhook's, of a row nobody wrote since moves it along the lifecycle, keeps cancelled rows, past-due dates and matching quotas, iff it is none of the staff's listed exceptions |
| `SubscriptionRuns.CancelledIsNotPastDueIff` | src/modules/companies/subscription-admin.service.ts:99-106 | over every run no cancelled row has a past-due date iff no staff cancellation had read one |
| `SubscriptionRuns.QuotasFollowPlansIff` | src/modules/billing/plan-quota.ts:6-10 | over every run quotas are their plans' iff no trial was provisioned and no plan assigned with another |
| `SubscriptionRuns.FlagsAreToldIff` | src/modules/billing/payment-webhook.service.ts:163-189 | over every run a row says that it ends with its period only if the provider will end it, iff no activation had read a flagged row |
| `SubscriptionRuns.OneLiveEverywhere` | src/database/migrations/1785426763260-AddSubscriptionsActiveUniqueIndex.ts:7-7 | stale saves included, no company ever has two trial or active rows |
| `SubscriptionRuns.PaidPeriodsAddUpIff` | src/modules/billing/payment-webhook.service.ts:145-340 | in every run a row activated at t ends 30(k+1) days after t, k renewals committed, at every moment iff no activation takes it over and no save takes it to have another end or subscription than it has |
| `SubscriptionRuns.FreshSaveDerailsIff` | src/modules/companies/subscription-admin.service.ts:99-270 | a save of the row as it still is does so iff it cancels at another time, redeems to another end, assigns or activates |
| `SubscriptionRuns.CancelledRowChangesIff` | src/modules/companies/subscription-lifecycle.ts:11-45 | a step changes a cancelled row iff it is one of the listed saves, deliveries that had read it before included |
| `SubscriptionRuns.FreshRewriteIff` | src/modules/companies/subscription-admin.service.ts:99-106 | of requests that read the row cancelled, only a staff cancellation at another time or of a flagged row rewrites it |
| `SubscriptionRuns.CancelledIsFinalIff` | src/modules/companies/subscription-lifecycle.ts:11-45 | from any moment a cancelled row stays as it is iff no such save comes |
| `TrialRedemption.TrialCodeRedemptionService.Redeem` | src/modules/billing/trial-code-redemption.service.ts:42-122 | a redemption that fails for whatever reason, an Enterprise code's included, leaves all tables as they were |
| `TrialRedemption.RedemptionSucceedsIff` | src/modules/billing/trial-code-redemption.service.ts:48-98 | which redemptions are refused with which error, and that all others succeed: code active, not expired, not used up, company on trial and without a redemption, plan with a quota |
| `TrialRedemption.RedemptionGrants` | src/modules/billing/trial-code-redemption.service.ts:77-114 | a redemption grants the code's plan, that plan's quota, and its days from now, and counts one use |
| `TrialRedemption.CommittedRedemptionGrants` | src/modules/billing/trial-code-redemption.service.ts:48-114 | so does every redemption committed in any interleaving |
| `TrialRedemption.RevokedForGood` | src/modules/billing/trial-code-admin.service.ts:43-55 | after a revocation is written its code is never redeemed again |
| `TrialRedemption.RedemptionsAreConservedIff` | src/modules/billing/trial-code-redemption.service.ts:48-122 | under any interleaving with stale reads, each code's usedCount is its number of committed redemptions and at most maxUses, and a company redeems once, iff no revocation writes a stale count |
| `TrialRedemption.RevocationIsStaleIff` | src/modules/billing/trial-code-admin.service.ts:43-55 | a revocation writes a stale count iff a redemption of its code was committed between its read and its comparison |
| `TrialRedemption.RevocationCanLoseAUse` | src/modules/billing/trial-code-admin.service.ts:43-55 | from any sound tables a redemption inside a revocation is lost from the count |
| `TrialRedemption.RedemptionOverwritesIff` | src/modules/billing/trial-code-redemption.service.ts:56-114 | a redemption overwrites, or puts back, a trial iff the last other write between finding and saving it did not leave it so; from then on its lock keeps others out |
| `TrialRedemption.AloneIsAnUninterruptedRun` | src/modules/billing/trial-code-redemption.service.ts:48-122 | the service's result is what its statements lead to in the concurrent machine when nothing interferes |
| `RefreshTokens.AuthService.Refresh` | src/modules/auth/auth.service.ts:427-461 | rotation, expiry, unknown token and the reuse branch, with the whole store after each |
| `RefreshTokens.RefreshIsAnswered` | src/modules/auth/auth.service.ts:427-505 | which tokens are refused with which error, and the row a rotated token leaves and gets: same user and MFA state, living the configured days from now |
| `RefreshTokens.AuthService.GenerateTokens` | src/modules/auth/auth.service.ts:463-514 | one new unrevoked row carrying user and MFA flag |
| `RefreshTokens.AuthService.RevokeAllUserTokens` | src/modules/auth/auth.service.ts:520-526 | every token of the user and no other is revoked |
| `RefreshTokens.LoginsFormChains` | src/modules/auth/auth.service.ts:427-526 | in every run each login's tokens form one acyclic chain, only its last possibly unrevoked, with the login's user and MFA flag |
| `RefreshTokens.RequestKeepsChains` | src/modules/auth/auth.service.ts:290-526 | logins, refreshes and password resets keep every token in exactly one chain |
| `RefreshTokens.ReuseEndsAllSessions` | src/modules/auth/auth.service.ts:439-444 | presenting a revoked token revokes all of its user's tokens and nobody else's |
| `SessionProtocol.NextKeepsInv` | frontend/src/auth/api-middleware.ts:23-56 | every step but a request with a spent token keeps all tokens held or under way distinct, unrevoked and, unless sent, unpresented |
| `SessionProtocol.NoTokenIsPresentedTwiceIff` | frontend/src/auth/api-middleware.ts:23-56 | with reloads at any time, no token is presented twice iff no page asks with a spent token, and then the reuse branch is never taken |
| `SessionProtocol.SpentByReload` | frontend/src/auth/api-middleware.ts:23-42 | a token is spent only by a reload while it was out, since when the client got no other |
| `SessionProtocol.ReloadIsReuseIff` | frontend/src/auth/api-middleware.ts:25-56 | reloaded in flight and asked again, in either order of service, the server sees a reuse iff the stored token was the one in flight |
| `SessionProtocol.ReloadAfterAnswerIsReuseIff` | frontend/src/auth/api-middleware.ts:44-56 | the same when the server had answered already |
| `SessionProtocol.RefreshRoundTrip` | frontend/src/auth/api-middleware.ts:25-56 | a refresh that nothing comes between leaves the client with the new token, presented once, or without any if refused |
| `Base32.Base32Encode` | src/common/crypto/totp.ts:21-37 | the loop over the unmasked accumulator yields the 5-bit groups of the padded bits |
| `Base32.Base32Decode` | src/common/crypto/totp.ts:40-58 | the loop yields the whole bytes of the concatenated 5-bit groups, or the error iff a character is foreign |
| `Base32.DecodingFailsIff` | src/common/crypto/totp.ts:40-48 | decoding fails iff a character of the cleaned input is not in the alphabet |
| `Base32.EncodedShape` | src/common/crypto/totp.ts:21-37 | ceil(8n/5) characters, all of the alphabet, standing for the zero-padded bits (section 6 of RFC 4648) |
| `Base32.KnownEncoding` | src/common/crypto/totp.ts:13-37 | the first example of section 10 of RFC 4648 |
| `Base32.RoundTrip` | src/common/crypto/totp.ts:21-58 | whatever cleans up to an encoding decodes to exactly the bytes encoded |
| `Base32.RoundTripOfAnySpelling` | src/common/crypto/totp.ts:39-58 | any letter case, spaces before the padding and any padding are tolerated |
| `Base32.InsertedSpaceIsIgnoredIff` | src/common/crypto/totp.ts:39-41 | an inserted space is ignored unless it follows a padding character and only padding comes after it |
| `Base32.SpaceAfterPaddingIsRejected` | src/common/crypto/totp.ts:39-48 | in that case decoding always fails |
| `ClamavFraming.WriteStream` | src/adapters/file-scanner/clamav-file-scanner.adapter.ts:46-61 | a receiver of length-prefixed frames recovers exactly the buffer from full non-empty frames of at most 65536 bytes |
| `ClamavFraming.FrameIsCarried` | src/adapters/file-scanner/clamav-file-scanner.adapter.ts:46-61 | a frame appended to any stream is received after the earlier ones, whatever follows |
| `Attempts.AssessmentService.StartAssessment` | src/modules/assessments/assessment.service.ts:70-162 | a new attempt, or the first refusal that applies |
| `Attempts.AssessmentService.ResumeAssessment` | src/modules/assessments/assessment.service.ts:164-206 | only an interrupted attempt with its current token resumes, with a new token |
| `Attempts.AssessmentService.RecordProctoringEvents` | src/modules/assessments/assessment.service.ts:249-329 | counters only grow, flag and interruption at their thresholds |
| `Attempts.AssessmentService.FinalizeAssessment` | src/modules/assessments/webhook.service.ts:128-258 | one score and completion, or nothing when a score exists |
| `Attempts.AssessmentService.Submit` | src/modules/assessments/exam.service.ts:92-148 | a late submission interrupts the attempt, an accepted one completes it |
| `Attempts.StartIsRefusedIff` | src/modules/assessments/assessment.service.ts:70-375 | which starts are refused and why: unknown or inactive test, one pending or running, one completed less than the cooldown days ago; any other adds a running attempt from now |
| `Attempts.SubmissionIsScoredIff` | src/modules/assessments/exam.service.ts:92-148 | a submission completes and scores the attempt iff it comes at most two minutes after the time budget, else it voids it |
| `Attempts.ProctoringMeans` | src/modules/assessments/assessment.service.ts:249-329 | counts are maxima, their sum flags and voids at its bounds |
| `Attempts.ResultIsStoredIff` | src/modules/assessments/webhook.service.ts:128-258 | a provider's result completes an attempt iff it has no score yet |
| `Attempts.InterruptedAndResumed` | src/modules/assessments/assessment.service.ts:164-240 | who may interrupt and resume, and that a resume uses its token up |
| `Attempts.RequestStepsAttempts` | src/modules/assessments/assessment.service.ts:164-329 | a request changes status only between running and interrupted or to completed, the resume token only on resuming, counters only upwards; a scored submission was in time |
| `Attempts.RunsKeepInv` | src/modules/assessments/assessment.service.ts:70-376 | over every run an attempt is completed iff it has its one score, completed attempts never change, and cooldowns were waited out |
| `Attempts.OneInProgressIsKeptIff` | src/modules/assessments/assessment.service.ts:164-206 | one running attempt per exam is kept by every request except exactly a resume, with the right owner, status and token, of an attempt whose exam runs elsewhere |
| `Attempts.TwoCanRunAtOnce` | src/modules/assessments/assessment.service.ts:164-206 | four requests after which two attempts at one exam run |
| `ExamDraw.SeededShuffle` | src/modules/assessments/assessment-questions.ts:254-273 | the loops over hash state and array yield the specified shuffle of a fresh copy |
| `ExamDraw.ShuffledIsPermutation` | src/modules/assessments/assessment-questions.ts:254-273 | for every seed the shuffle only rearranges |
| `ExamDraw.PicksDetermineTheOrder` | src/modules/assessments/assessment-questions.ts:268-271 | distinct sequences of swap indices give distinct orders |
| `ExamDraw.Pick` | src/modules/assessments/assessment-questions.ts:260-270 | for every 32-bit word the swap index is in bounds |
| `ExamDraw.KnownHash` | src/modules/assessments/assessment-questions.ts:254-259 | the seed hash is FNV-1a: the published hash of "foobar" |
| `ExamDraw.KnownWords` | src/modules/assessments/assessment-questions.ts:260-266 | the generator is mulberry32: its first words from zero and one |
| `ExamDraw.ExamIsDrawnIff` | src/modules/assessments/assessment-questions.ts:242-290 | an exam is drawn unless the name is an inherited property, and then has 30 distinct questions: 20 technical opening with the profile's whole pool, then 10 psychotechnical |
| `Grading.GradeExam` | src/modules/assessments/exam.service.ts:185-239 | the grade, and a level per domain in order of first mention |
| `Grading.ScoresCountRightAnswers` | src/modules/assessments/exam.service.ts:199-215 | right is answered with the correct option; each sub-score is the rounded percentage of right ones among the questions of its kind |
| `Grading.FeedbackMeans` | src/modules/assessments/exam.service.ts:217-231 | a domain is strong from seven right answers in ten, medium from four, else weak |
| `Grading.DomainsInOrder` | src/modules/assessments/exam.service.ts:218-231 | domains come in the order of their first questions |
| `Grading.WrongAnswerRaisesNothing` | src/modules/assessments/exam.service.ts:199-215 | answering with a wrong option raises no score |
| `Grading.TallyByDomain` | src/modules/assessments/exam.service.ts:218-224 | the map loop counts each mentioned domain exactly, none empty |
| `Grading.LevelMeansRatio` | src/modules/assessments/exam.service.ts:225-229 | levels cut the ratio of right answers at 0.7 and 0.4 and never drop for one more right answer |
| `Grading.DomainsAddUp` | src/modules/assessments/exam.service.ts:213-224 | domain counts sum to the overall counts |
| `Grading.GradeRange` | src/modules/assessments/exam.service.ts:199-215 | sub-scores and composite lie in 0..100, the composite between its parts and never at a rounding tie |
| `Grading.BetterAnswersNeverScoreLess` | src/modules/assessments/exam.service.ts:199-215 | answers that lose no right one lower no score |
| `Grading.CorrectingOneAnswer` | src/modules/assessments/exam.service.ts:199-215 | correcting one answer lowers no score |
| `Grading.WeightedIsBetweenIff` | src/modules/assessments/webhook.service.ts:264-282 | the weighted score lies between different sub-scores iff no weight is negative |
| `Grading.StoredScoreIsBetween` | src/modules/assessments/webhook.service.ts:264-282 | the stored hundredths lie between the sub-scores in hundredths, for any sub-scores and non-negative weights |
| `Grading.SplitScoreIsTheMean` | src/modules/assessments/webhook.service.ts:264-282 | with both sub-scores the weighted mean to the nearest hundredth is stored, 0 without weight |
| `Grading.UnsplitScoreIsItsShare` | src/modules/assessments/webhook.service.ts:284-287 | else the share of the maximum to the nearest hundredth, 0 without a maximum |
| `Grading.StoredScoreMatchesComposite` | src/modules/assessments/exam.service.ts:210-212 | under default weights the composite shown is the stored value rounded |
| `Percentiles.ScoreTable.GroupByTest` | src/modules/assessments/percentile-recalc.service.ts:73-86 | one bucket per test with an active score, holding exactly its cohort in table order |
| `Percentiles.CohortsPartition` | src/modules/assessments/percentile-recalc.service.ts:73-86 | every active score of a known test is in its own cohort once and in no other |
| `Percentiles.ScoreTable.Recalculate` | src/modules/assessments/percentile-recalc.service.ts:44-107 | all scores end ranked within their cohorts; updatedCount is the number of rows changed |
| `Percentiles.SweepRanks` | src/modules/assessments/percentile-recalc.service.ts:44-111 | a valid score of a known test gets the share of lower ones among the valid scores of that test; any other is left alone |
| `Percentiles.SecondSweepChangesNothing` | src/modules/assessments/percentile-recalc.service.ts:44-107 | a second sweep updates no row |
| `Percentiles.CountBelowOfPermutation` | src/modules/assessments/percentile-recalc.service.ts:94-95 | ranks do not depend on the order rows were loaded in |
| `Percentiles.RankingKeepsOrder` | src/modules/assessments/percentile-recalc.service.ts:89-111 | order is kept, strictly up to 10000 scores; the lowest get 0; the top stays below 100 under 20000 |
| `Percentiles.RoundingSeparatesIff` | src/modules/assessments/percentile-recalc.service.ts:97-111 | two decimals separate neighbouring ranks iff the cohort has at most 10000 scores |
| `Indexation.Candidate.ApplyThresholds` | src/modules/assessments/indexation.service.ts:41-118 | the loop sets both flags to what recomputing them gives |
| `Indexation.Candidate.CalculateCompleteness` | src/modules/candidates/candidate-profile.service.ts:187-294 | completeness plus the weight of what is missing is all the weight; flags follow a change |
| `Indexation.CompletenessMeans` | src/modules/candidates/candidate-profile.service.ts:187-276 | completeness is the sum of the weights of the six parts that are there, and when each is |
| `Indexation.ShouldIndexMeans` | src/modules/assessments/indexation.service.ts:41-118 | indexed iff complete enough and some unexpired, unplagiarised score reaches the value or the percentile; featured iff also one reaches the other bound |
| `Indexation.ChangesAreMeasured` | src/modules/candidates/candidate-profile.service.ts:74-294 | each change of fields or rows is kept and its completeness measured; a score that arrives is added |
| `Indexation.CacheAgrees` | src/modules/candidates/candidate-profile.service.ts:74-294 | after any sequence of profile changes and scores both flags equal recomputation |
| `Indexation.NewProfileAgreesIff` | src/modules/candidates/candidate-profile.service.ts:91-100 | a new profile starts out right unless the threshold is zero and a score qualifies |
| `Indexation.FailedReindexAgreesIff` | src/modules/candidates/candidate-profile.service.ts:74-85 | exactly when a failed re-indexing leaves the flags right |
| `Indexation.MovedPercentilesAgreeIff` | src/modules/assessments/indexation.service.ts:41-118 | after any change of percentiles flags that agreed still agree iff no bound that matters was crossed |
| `Indexation.SweepAgreesIff` | src/modules/assessments/percentile-recalc.service.ts:89-107 | after a sweep of the whole table a candidate's flags agree iff the ranks of the scores in their cohorts before it are across no such bound from the percentiles stored |
| `Indexation.SweepMakesFlagsStale` | src/modules/assessments/percentile-recalc.service.ts:89-107 | the best of n + 1 whose new rank is on the other side of the bound than the old percentile has stale flags |
| `Indexation.BestScoreIsRanked` | src/modules/assessments/percentile-recalc.service.ts:89-107 | the sweep ranks the best of n + 1 above n |
| `Indexation.DefaultBoundGoesStale` | src/modules/assessments/indexation.service.ts:20-23 | with the default bound: the best of at least seven that was below 85, or of fewer that was not, has stale flags |

## Left out

- The subscription guard: it reads rows and writes none.
- The moment between the comparison that TypeORM's `save` makes and its UPDATE, outside the revocation of trial codes: the two are one step, so a save writes the whole row as it was read.
- The statements of a delivery after its save: they run on its own locks until the commit (`InvoiceNumbering` interleaves the counter's), so save and commit are one step.
- Which contact a message consumes, and the end of the period that gates it: a consumption is a conditional increment of a row that was live when it was picked.
- The order of rows in a query without ORDER BY: taken to be table order.
- Plan prices that change during a run, and proration amounts: the provider's plan-change invoice is recorded with the amount it names.
- Audit rows, mails, PDF contents, uploads and analytics: an audit call and an upload that fail roll the transaction back, the rest has no effect here.
- Refresh: an answer that never arrives, duplicated browser tabs, token cleanup, and a crash between the statements of one refresh; e-mail verification and MFA challenges only lead to a login.
- The browser's refresh (`frontend/src/auth/api-middleware.ts`) and the statements of concurrent transactions are steps of state machines on values, not methods: each runs in parts, with other parties in between.
- Cryptographic primitives (HMAC, SHA-256, argon2, JWT, random tokens): token hashes are injective and new tokens new; one-time-password generation and verification are not modelled.
- Unicode case mapping: a parameter, fixed to the usual values on ASCII letters where a lemma needs it.
- Floating-point error and daylight saving: numbers are exact and days have a fixed length.
- Exam texts and options: a question is its pool and place; grading works on any list of questions.
- A crash between saving a score and saving its attempt, plagiarism fingerprints, multiple-account detection and score validity settings.
- Profile field validation and visibility: only the fields that count towards completeness are kept.
- The antivirus reply and socket errors, OCR, DNS, queues, controllers, guards, DTOs, seeds and the rest of the user interface.
- PaymentWebhook.PaymentWebhookService.MarkPastDue: states no link between being past due and having a past-due date, because the code sets none here.
- Attempts.RunsKeepInv: assumes requests that come in time order, as the clock of one server does.
