# Payment lifecycle

A model of the payment side of a sales application, and proofs about it.  A customer buys a
course in one or more installments; each installment is paid through attempts at Tara, a
mobile-money provider whose verdicts arrive by webhook, by an hourly check, by a staff check
or by the manual attribution of a payment.  A paid installment changes the status of its
order, gives access to the course through ClickFunnels and sends a confirmation; an unpaid one
gets the access suspended.

## How it is built

- `Models` holds the six tables as fields of the class `Database` and, for specifications, as
  the value `Db`.  `StateMachines` holds the three transition tables and the only methods
  that change a status.
- One module per service has its transactions as methods on the database (`Credit`, `Checkout`,
  `Orders`, `Expiry`, `Administration`, `Access`, `Collection`, `Verification`, `Webhooks`,
  `Checks`, `Provisioning`, `Deliveries`).  Each method is proved to turn the old value of the
  database into a function of it (`AfterSuccess`, `AfterExpiry`, ...), so a transaction that
  raises provably leaves nothing behind.  Where a loop closes attempts (late success,
  cancellation, waiving, expiry) the method asserts that no transition in it is refused, by
  the table or by the one-active-attempt constraint of the database.
- `Invariants` states what holds at every transaction boundary (`Inv`), what any step may
  change (`Grows`), and what a step that credits nothing may change (`Quiet`).  `Preservation`,
  `CreditProofs` and `Composites` prove this for each transaction.
- `Steps` puts all transactions into one datatype of 35 steps; `Runs` defines runs of steps.
  Tara's and ClickFunnels' answers, instants, payloads, staff decisions and the order of steps
  are arbitrary data of the run, so a theorem about runs is one about every interleaving of
  transactions.  Checkout, deliveries, checks, suspensions, liftings and the two workers are
  split where they call out without a lock: a `Credit` step may rest on an answer of Tara heard
  any time before, and `Flag`, `Mirror`, `Mark` and `Unmark`, the commits of a suspension or a
  lifting, may come at any time and in any order (more than the calls can do, so that nothing
  hinges on when they began).  `Interleaving`, `Paying`, `Provisioning` and `Deliveries` prove
  that the undisturbed service calls are runs of their parts.  `Effects` says of each step, one
  lemma each, what it does to the database.
- `Calls` adds, for suspensions, liftings, freezes and restores, which calls are under way, what
  each has looked at and which commits it still owes; whatever they do is a run of steps.
- `Standings`, `Outcomes`, `Answers` and `Offers` tell what a credit, a check, a delivery, a
  verification and a checkout do from the rows and from Tara's answers alone, for every case:
  the counterpart of the functions by which the methods are specified.
- The main results are in `SingleCredit`, `Money`, `Redelivery`, `Lateness`, `Confluence`,
  `Suspension`, `Coverage`, `Finality`, `Calls`, `Decisions`, `Entitlement`, `Enrollments`,
  `Reconciliation` and `Paying`, and in `Verification`, `Provisioning` and `Deliveries` for what
  is self-contained there.
- Where a property one would expect fails, a theorem says exactly when it holds, and
  `Witnesses` shows a concrete failure, in a database reached from the empty one where the
  property is about databases.  `Sales` builds the concrete sale they start from, payment by
  webhook included.

Amounts are whole XAF, instants are minutes and dates are days.

## Where the code and its own account differ

- Checkout's recheck (apps/payments/services.py:753-756) marks an UNKNOWN attempt SUCCEEDED
  without crediting its installment, although the docstring at line 867 names the credit
  service as the only way.  `RecheckedIsNeverPaid` shows that such an installment is never
  PAID in any run; SUCCEEDED implies PAID exactly in the runs without such a recheck
  (`SucceededIsPaidIff`, `RecheckedSale`).
- A success on a CREATED attempt is refused by the transition table, so the order of a failure
  and a success matters for such an attempt alone (`CreatedNeedsAFailure`); `PaidIffEffective`
  gives the exact condition.
- Whether `verify` may credit depends on the order of the candidates when one of the lookups
  is lost next to a creditable one, and only then (`OrderIndependentIff`,
  `LostBeforeCreditable`).
- A staff resume leaves the marker of an automatic suspension set, and a later staff freeze is
  then lifted automatically (`FreezeIsLiftedIff`, `LiftedFreeze`).
- The marker of an automatic suspension is written after the suspension, unguarded
  (apps/payments/services.py:1533), and a transition refused in between is swallowed
  (apps/payments/admin_services.py:951-958).  An order cancelled or completed meanwhile gets
  the marker (`MarkedAfterCancellation`), and a suspension by staff gets it too and is then
  lifted as an automatic one (`StaffSuspensionMarked`).  `OverIsFinal` and `RowKeptIff` say
  exactly what remains true, and `HeldForEverIff` from when on such an order is safe: once no
  call under way can still change it.
- Orders of one customer for one course share their access (apps/payments/admin_services.py:885-902),
  so lifting one suspension opens the course although another order is still SUSPENDED
  (`SharedAccessOpens`).  `CoveredIff` says exactly when every SUSPENDED order has its access
  suspended.
- An attribution refused for its paymentId keeps the attempt it had created
  (`RefusedAttributionIff`, `RefusedAttribution`), and refusing to cancel or waive an
  installment still closes its open attempts (`RefusalClosesIff`, `RefusedCancellation`).
- A worker overtaken by the release of a stuck send can turn SENT back into FAILED
  (`SentIsNotFinal`).  SENT is final, and tries and status are a measure, exactly under the
  conditions of `SentStaysIff` and `MeasureIff`.

## Model

| member | source | states |
|---|---|---|
| StateMachines.TransitionOrder | apps/payments/services.py:324-336 | same status is a no-op, a status outside the table raises and changes nothing, otherwise only the status of that order changes |
| StateMachines.TransitionInstallment | apps/payments/services.py:350-368 | the same for installments; only a first PAID writes the amount, the expected one when none is given |
| StateMachines.TransitionAttempt | apps/payments/services.py:389-423 | the same for attempts, and IntegrityError exactly when the one-active-attempt constraint would be violated |
| StateMachines.OrdersMayBecome | apps/payments/services.py:162-172 | the table read by target: from which statuses an order can become each of the seven |
| StateMachines.InstallmentsMayBecome | apps/payments/services.py:174-195 | the same for installments: whatever is open can be paid, waived, cancelled or failed, and nothing else can |
| StateMachines.AttemptsMayBecome | apps/payments/services.py:197-215 | the same for attempts: only one sent to Tara succeeds, one given up comes back as UNKNOWN alone and only if no other is active, SUCCEEDED is final |
| Models.Database.Rollback | apps/payments/services.py:910 | leaving a transaction by an exception restores every table |
| Credit.UpdateOrderStatus | apps/payments/services.py:1046-1080 | never raises: every transition it asks for is in the table; ends in the recomputed status |
| Standings.StandsAfterCredit | apps/payments/services.py:1046-1080 | for each of the seven statuses, when an order has it after a credit, told from the rows of its installments; no other order changes |
| Standings.CaughtUpIff | apps/payments/services.py:1071-1077 | a payment on a PAST_DUE order: it stays PAST_DUE exactly if another installment is open and was due before today, is COMPLETED exactly if all others are paid or waived, and ACTIVE otherwise |
| Standings.StandsAfterWaiver | apps/payments/admin_services.py:268-344 | the statuses after a waiver, from the rows |
| Standings.WaivedUpIff | apps/payments/services.py:1071-1077 | a waiver on a PAST_DUE order, as for a payment |
| Standings.StandsAfterLifting | apps/payments/services.py:1576-1580 | after a lifting the order stands as an ACTIVE one would, marker null |
| Standings.CreditOpens | apps/payments/services.py:960-974 | a credit creates a provisioning request exactly when the sale then gives access by its policy (first payment, or all paid or waived) and no request in force serves its customer and course |
| Standings.WaiverOpens | apps/payments/admin_services.py:268-344 | so does a waiver |
| Credit.ReopenForLateSuccess | apps/payments/services.py:976-1011 | raises exactly when the installment is PAID or a sibling succeeded; else every open sibling is EXPIRED and the attempt UNKNOWN, all along legal transitions |
| Credit.RecordPayment | apps/payments/services.py:924-938 | conflict exactly when another attempt holds the paymentId or this one holds a different one; otherwise records a first id |
| Credit.SettleAttempt | apps/payments/services.py:921-949 | the attempt side of a credit: which of its three errors is raised when, and all attempt rows otherwise |
| Credit.ApplyVerifiedSuccess | apps/payments/services.py:877-974 | the outcome in every state, and the whole database after it: credited when applied, untouched when it raises or is a repeat |
| Credit.ApplyVerifiedFailure | apps/payments/services.py:1013-1044 | never raises; touches only a non-terminal attempt and an open installment |
| Outcomes.RefusedAs | apps/payments/services.py:910-950 | why a verified success is refused, each error exactly: paid twice, paymentId of another attempt, or a row that cannot be paid |
| FollowUps.CreateConfirmation | apps/payments/services.py:1097-1120 | get-or-create on attempt and recipient |
| FollowUps.CreateRequest | apps/provisioning/services.py:48-110 | a request for (contact, course) is created only when none in force serves them |
| CreditProofs.AppliedIff | apps/payments/services.py:910-950 | in every reachable database a success is applied if and only if the attempt was sent to Tara and is not credited, the installment is open, no sibling succeeded and the paymentId is not another attempt's |
| CreditProofs.ConflictIsWithAnother | apps/payments/services.py:932-935 | an attempt with a paymentId is SUCCEEDED, so a conflict is always with another attempt |
| CreditProofs.CreditTouchesOneInstallment | apps/payments/services.py:949-960 | a credit closes every open sibling along the table, pays exactly its installment and leaves every other installment, order and attempt as it was |
| CreditProofs.CreditClosesSiblings | apps/payments/services.py:996-1011 | after a credit the attempt is SUCCEEDED, its open siblings are closed along the table, none is active and no other row has changed |
| CreditProofs.CreditPaysOnce | apps/payments/services.py:947-960 | everything else a credit writes: the amount received, one order, one confirmation, at most one request |
| CreditProofs.CreditKeeps | apps/payments/services.py:877-974 | a verified success with any amount, applied or not, keeps the global invariant and removes or rewrites nothing final |
| Expiry.ExpireOne | apps/payments/services.py:1640-1655 | expires exactly a PENDING order none of whose attempts might be paid; its open attempts become EXPIRED, its installments stay |
| Lateness.ExpiredIff | apps/payments/services.py:1640-1655 | an order expires if and only if it is PENDING and each of its attempts is CREATED, LINK_CREATED, FAILED or EXPIRED; then its open attempts are EXPIRED and nothing else changes, otherwise nothing does |
| Lateness.ExpiryLosesNothing | apps/payments/services.py:1640-1655 | expire-then-success and success alone: same applicability, same order, installments, follow-up work and attempts of the credited installment |
| Lateness.ExpiryDecidesOnlyCreated | apps/payments/services.py:976-1011 | the only success whose fate expiry changes is that of a CREATED attempt, which expiry makes creditable; exact condition |
| Confluence.FirstSuccessDecides | apps/payments/services.py:909-974 | in any sequence of verdicts on one installment the first effective success fixes the final database; every later verdict changes nothing |
| Confluence.PaidIffEffective | apps/payments/services.py:877-1044 | the installment ends PAID if and only if some success is effective (not CREATED, or after a failure); otherwise it stays open |
| Confluence.PaidIffSuccess | apps/payments/services.py:877-1044 | when all attempts were sent to Tara: PAID if and only if the sequence holds a success, in any order |
| Confluence.OrderDoesNotMatter | apps/payments/services.py:877-1044 | two sequences with the same first effective success agree on installments, orders, confirmations, requests and events |
| Confluence.SettledIgnores | apps/payments/services.py:914-923 | after the credit a success of another attempt raises DuplicatePayment, a repeat is a no-op, a failure is swallowed: the database is unchanged |
| Confluence.AppliedWhenEffective | apps/payments/services.py:910-950 | whether the n-th success is applied depends only on the initial statuses and the failures before it |
| Confluence.DecidedRows | apps/payments/services.py:947-960 | the rows after the first effective success are those of crediting it to the initial database |
| Confluence.Executes | apps/payments/services.py:877-1044 | every sequence of verdicts can be executed: none is impossible in any state it meets |
| Confluence.CreatedNeedsAFailure | apps/payments/services.py:197-200 | concrete sale: a success on a CREATED attempt is refused, and credited when a failure comes first |
| Confluence.FailureThenSuccess | apps/payments/services.py:197-215 | the same sale meets the setting of the confluence theorems: after the failure the success is the decisive report |
| Checkout.GetOrCreateCurrentAttempt | apps/payments/services.py:714-734 | returns the newest attempt unless it is FAILED or EXPIRED; a new one is inserted only if no other is active |
| Checkout.TransitionAttemptLocked | apps/payments/services.py:835-841 | an illegal transition is swallowed; only the constraint violation is an error, and it leaves nothing behind |
| Checkout.PersistLinkResult | apps/payments/services.py:816-833 | only a CREATED attempt takes the link |
| Checkout.ReopenExpiredOrder | apps/payments/services.py:572-574 | only an EXPIRED order becomes PENDING |
| Paying.NextOutstanding | apps/payments/services.py:592-598 | the open installment with the lowest sequence, or none when nothing is open |
| Paying.RecheckUnknownAttempt | apps/payments/services.py:736-763 | Tara's answer moves the attempt and nothing else: a success is not credited to the installment |
| Paying.CreateLinkForAttempt | apps/payments/services.py:765-813 | what each answer to the link request does to the attempt, and which error reaches the customer, the database's included |
| Paying.PayOutstandingInstallment | apps/payments/services.py:630-667 | the database and the answer to the customer, for every state and every answer of Tara |
| Paying.PayIsARun | apps/payments/services.py:630-667 | a whole checkout is a run of checkout steps, so every theorem about runs covers it |
| Offers.NothingDueIff | apps/payments/services.py:592-600 | the customer is told that nothing is due exactly when every installment is paid, waived or cancelled |
| Offers.KeptIsOffered | apps/payments/services.py:630-667 | the attempt at hand, when kept: what becomes of it and what the customer sees for each of its statuses and each answer of Tara |
| Offers.NewIsBegun | apps/payments/services.py:714-734 | an installment whose attempts have all failed or expired gets a new one, with its own product and amount, and a link is asked for it |
| Offers.OtherIsReplaced | apps/payments/services.py:639-656 | an attempt not kept is closed, as FAILED when Tara said so and else as EXPIRED, and a new one is begun in its place |
| Offers.OlderIsInTheWay | apps/payments/services.py:714-734 | an older unfinished attempt behind a closed one: the constraint refuses a new one and nothing changes |
| Offers.LateReply | apps/payments/services.py:765-841 | a link reply that finds the attempt closed meanwhile: the link is not recorded, a timeout reopens it unless another attempt is active, a rejection changes nothing |
| Offers.ReopenedIff | apps/payments/services.py:572-574 | only an EXPIRED order is reopened, to PENDING |
| Paying.LivePaymentsAreNotReplaced | apps/payments/services.py:639-656 | an unfinished attempt is replaced only if Tara timed out on its link and reports neither success nor pending, or its link is too old; it is then closed; PENDING never is replaced |
| Paying.ShownLinkIsTheOnlyOne | apps/payments/services.py:658-667 | a shown link belongs to the open installment with the lowest sequence, can be paid, and its attempt is the only active one |
| Orders.CreateOrder | apps/payments/services.py:225-322 | idempotent on the key; refused for other terms or an unusable plan; else one order with its installments |
| Orders.WithKey | apps/payments/services.py:236-243 | the key names at most one order: the first with it |
| Orders.UsedKeyIsAnswered | apps/payments/services.py:236-243 | a key used before answers with its order to the same customer and plan and is refused to any other; nothing changes |
| Orders.NewKeyIsPlacedIff | apps/payments/services.py:245-301 | a new key places an order, with frozen terms, if and only if the plan exists, is active and has a positive amount and count; otherwise nothing changes |
| Orders.NewRowsAre | apps/payments/services.py:303-322 | its installments: SCHEDULED, unpaid, of the plan amount, the first due at the start and each next one interval later |
| Composites.NewInstallments | apps/payments/services.py:303-322 | the new order has exactly its installments 1..count, all others unchanged |
| Composites.PlacementKeeps | apps/payments/services.py:225-322 | placing an order keeps the invariant: its amounts add up to its frozen total |
| Verification.CandidatePaymentIds | apps/payments/services.py:1696-1709 | the loop computes the usable ids in order of first appearance, at most five |
| Verification.CandidatesAreDistinct | apps/payments/services.py:1696-1709 | no candidate twice, none blank or our own productId, the webhook's id first |
| Answers.AskedInOrder | apps/payments/services.py:1696-1709 | the order of the questions: the webhook id, the attempt own id, then the newest notification of the product |
| Answers.NoneIsLeftOut | apps/payments/services.py:1696-1709 | no usable id is left out before five are asked, as long as fewer than five are on record |
| Verification.Verify | apps/payments/services.py:1711-1755 | the loop equals its declarative meaning: first bound success with the right amount, else first rejected answer, else first definitive one, else the productId lookup; lost lookups raise |
| Answers.KindsOfAnswers | apps/payments/services.py:1714-1742 | each answer is of exactly one kind, told from what it names: it pays, must not be applied, says failed or pending, or says nothing |
| Answers.FirstRejectionIsSaid | apps/payments/services.py:1741-1742 | with nothing lost or paying, the first answer that must not be applied is the result, a product or an amount mismatch, whatever the others say; never a clean one |
| Answers.CleanVerdictIff | apps/payments/services.py:1738-1755 | failed, pending or unknown comes out clean if and only if nothing is lost, pays or must not be applied, and the first deciding candidate says it, or none decides and the productId lookup says it |
| Answers.OnlyTheProductSpeaks | apps/payments/services.py:1746-1755 | with silent candidates the productId lookup is the result, malformed when it names another product |
| Answers.LostIff | apps/payments/services.py:1714-1716 | the exception reaches the caller if and only if a lookup is lost before anything pays, or the productId lookup is |
| Verification.AcceptedMeansPaid | apps/payments/services.py:1729-1750 | an accepted result means Tara confirmed this product, and for a paymentId lookup exactly the expected amount |
| Verification.AcceptedIff | apps/payments/services.py:1711-1755 | when exactly the result may be credited, lost lookups included: a creditable candidate has no lost one before it, or none is lost, creditable or speaks and the productId lookup confirms |
| Verification.OrderIndependentIff | apps/payments/services.py:1714-1742 | being creditable is independent of the order of the candidates if and only if no lookup is lost next to a creditable one |
| Witnesses.LostBeforeCreditable | apps/payments/services.py:1714-1742 | two concrete candidates accepted in one order and not in the other |
| Verification.ForeignAnswersNeverHelp | apps/payments/services.py:1722-1733 | inserting candidates whose answers belong to another product or business never turns a non-creditable result into a creditable one |
| Webhooks.ResolveReportedEvents | apps/payments/services.py:1320-1338 | only a SUCCEEDED attempt resolves the unconfirmed SUCCESS notifications of its product |
| Decisions.ResolutionLeavesNone | apps/payments/services.py:1320-1338 | afterwards no reported success of the product is left to handle and no other notification has changed |
| Webhooks.ConfirmPayment | apps/payments/services.py:1909-1920 | credit, resolution of notifications and lifting of a suspension, or nothing at all when the credit raises |
| Webhooks.VerifyAndApply | apps/payments/services.py:1857-1953 | the event row and the database for every verdict |
| Webhooks.ProcessWebhook | apps/payments/services.py:1778-1835 | the database after a delivery, for every payload, configuration and answer |
| Outcomes.NewBodyIsFiled | apps/payments/services.py:1795-1835 | a new body is one new event: REJECTED exactly for a foreign or unconfigured business, UNCORRELATED exactly when it names no product of ours, and then nothing else changes; else attached to the attempt it names |
| Outcomes.NamedBodyLands | apps/payments/services.py:1826-1870 | which candidates Tara is then asked about, the payload paymentId first; without a client nothing is known |
| Outcomes.VerdictIsFiled | apps/payments/services.py:1868-1953 | how that event is filed: each failure category and exactly when it is given, PROCESSED without one |
| Outcomes.VerdictLands | apps/payments/services.py:1895-1942 | what the verdict does to the sale: a confirmed failure or success lands on the attempt and its installment, anything else changes nothing |
| Webhooks.RecordDelivery | apps/payments/services.py:1778-1835 | what is recorded of a delivery before Tara is asked: nothing for a repetition, else one event with its rejection, its lack of an attempt, or its attempt |
| Webhooks.SaveEvent | apps/payments/services.py:1895-1953 | the event row a delivery ends with |
| Interleaving.DeliveryIsARun | apps/payments/services.py:1778-1953 | a delivery is a run of its commits (record, credit or fail, resolve, lift, save), each a step that others may come between |
| Interleaving.StaffCheckIsARun | apps/payments/admin_services.py:402-558 | so is a staff check |
| Interleaving.StaleCheckIsARun | apps/payments/reconciliation_services.py:193-260 | so is the hourly check of an attempt |
| Interleaving.ConfirmedIsARun | apps/payments/services.py:1909-1920 | credit, resolution and lifting one after the other are a confirmed payment |
| Redelivery.RedeliveryChangesNothing | apps/payments/services.py:1795-1812 | a body once accepted changes nothing when delivered again, after any run and whatever Tara then answers |
| Redelivery.BodiesAreRecordedOnce | apps/payments/services.py:1852-1855 | in every run each body is recorded at most once and stays recorded |
| Redelivery.DeliveryRecords | apps/payments/services.py:1795-1812 | a new body adds exactly one event, a known one none |
| Redelivery.SuccessIsNeverLost | apps/payments/services.py:1895-1953 | a success Tara confirms for a delivery ends credited, or FAILED with a reason on the event |
| Composites.DeliveryKeeps | apps/payments/services.py:1778-1953 | a delivery keeps the invariant and credits at most the attempt it names |
| Checks.CheckTaraStatus | apps/payments/admin_services.py:402-558 | the staff check applies exactly clean verdicts of checkable attempts |
| Checks.AttributeWebhookEvent | apps/payments/admin_services.py:578-673 | an attribution credits the open attempt or a new one; a paymentId conflict keeps the new attempt, any other error undoes everything |
| Checks.BumpCheckCount | apps/payments/reconciliation_services.py:241-260 | count, backoff (index always in range) and the move to UNKNOWN at the tenth check |
| Checks.VerifyOneAttempt | apps/payments/reconciliation_services.py:193-239 | which answers credit, fail, or count as inconclusive |
| Outcomes.HourlyCheckLands | apps/payments/reconciliation_services.py:193-260 | row by row for every answer: a clean failure makes attempt and installment FAILED without counting, a clean success that is not refused settles both, anything else is counted with its backoff and changes nothing else |
| Outcomes.StaffCheckLands | apps/payments/admin_services.py:402-558 | the staff check lands the same verdicts and counts nothing |
| Outcomes.ChecksAreIdle | apps/payments/reconciliation_services.py:193-200 | attempts never sent to Tara or already SUCCEEDED are not asked about |
| Outcomes.SelectedIff | apps/payments/reconciliation_services.py:156-180 | which attempts the hourly job may select: sent to Tara and not SUCCEEDED, fewer than ten checks, the wait over |
| Outcomes.SelectionWaits | apps/payments/reconciliation_services.py:156-180 | a counted check keeps the attempt out of the selection for 15, 30, 60, 120 or 240 minutes, and for good after the tenth |
| Composites.StaffCheckKeeps | apps/payments/admin_services.py:402-558 | a staff check keeps the invariant and credits only on an accepted verdict |
| Composites.StaleCheckKeeps | apps/payments/reconciliation_services.py:193-239 | so does the hourly check |
| Composites.AttributionKeeps | apps/payments/admin_services.py:578-673 | an attribution keeps the invariant, in the conflict case too |
| Closing.CloseAttempts | apps/payments/admin_services.py:184-193 | each open attempt becomes EXPIRED along a legal transition |
| Administration.CancelOrder | apps/payments/admin_services.py:145-206 | the nested loops never meet an illegal transition; COMPLETED is declined, CANCELLED a no-op |
| Administration.CancelInstallment | apps/payments/admin_services.py:208-266 | declined for PAID, succeeded or settled installments; the order is not recomputed |
| Administration.WaiveInstallment | apps/payments/admin_services.py:268-344 | recomputes the order and creates the request of a sale that becomes eligible |
| Decisions.CancelledIff | apps/payments/admin_services.py:145-206 | after the call the order is CANCELLED exactly if it was not COMPLETED |
| Decisions.DecidedIff | apps/payments/admin_services.py:208-344 | when cancelling or waiving an installment goes through, is done already, or is refused |
| Finality.CancellationIsExact | apps/payments/admin_services.py:145-206 | cancelling closes the open installments of the order and their open attempts, and touches no other row of any table |
| Finality.CancelledOrderIsClosed | apps/payments/admin_services.py:145-206 | afterwards every installment is PAID, WAIVED or CANCELLED and no total has changed |
| Finality.CancelledForGood | apps/payments/admin_services.py:145-206 | after any run a success on a cancelled installment leaves the database unchanged |
| Finality.CancelledTotalIsFinal | apps/payments/models.py:310-313 | what a cancelled order has received never changes again |
| Decisions.CancelInstallmentIsExact | apps/payments/admin_services.py:208-266 | goes through exactly for an open installment without a succeeded attempt; then that row and its open attempts change and nothing else; declined, no installment, order or request changes, and the attempts only where a WAIVED installment has open ones |
| Decisions.RefusalClosesIff | apps/payments/admin_services.py:208-266 | a refused cancellation or waiving leaves something behind if and only if it gets past the first refusals and meets an open attempt |
| Witnesses.RefusedCancellation | apps/payments/admin_services.py:208-266 | concrete sale: the late timeout of a waived installment's attempt is closed by a refused cancellation |
| Decisions.WaiveIsExact | apps/payments/admin_services.py:268-344 | that row and its open attempts change, the order is COMPLETED exactly when all is settled, no other order changes, a sale that gives access has its request |
| Decisions.FreezeThenRestore | apps/payments/admin_services.py:904-969 | a restore undoes a freeze, except that PAST_DUE comes back ACTIVE and the marker of an automatic suspension stays |
| Decisions.AttributionIff | apps/payments/admin_services.py:593-640 | an attribution is credited if and only if the event is unmatched, the installment open, the amount enough, no attempt SUCCEEDED, its open attempt not CREATED and the paymentId unused |
| Decisions.RefusedAttributionIff | apps/payments/admin_services.py:593-640 | a refused attribution leaves something behind, a new PENDING attempt, if and only if it could be made, the installment has no active attempt and the paymentId is in use |
| Witnesses.RefusedAttribution | apps/payments/admin_services.py:593-640 | concrete sale: a repeated notification without productId, attributed to the next installment |
| Decisions.AttributionCredits | apps/payments/admin_services.py:636-665 | it then pays the amount entered and marks that event, and no other, PROCESSED for the attempt credited |
| Finality.OverIsFinal | apps/payments/services.py:162-172 | COMPLETED and CANCELLED are final in every run; of such a row only the marker can change, to the last one written or cleared by a call under way |
| Finality.RowKeptIff | apps/payments/services.py:1508-1537 | the row of a COMPLETED, CANCELLED or staff-suspended order is kept all through a run if and only if no step disturbs it when its turn comes |
| Witnesses.MarkedAfterCancellation | apps/payments/services.py:1524-1533 | concrete run of calls: an installment is past its deadline, staff cancel the order while the automatic suspension it calls for is under way, and the CANCELLED order gets the marker |
| Finality.StaffSuspensionPersists | apps/payments/services.py:1402-1407 | a staff suspension outlives every verdict, job and checkout, marker still null, as long as no marker of that order is written or cleared and no restore or cancellation of it is committed |
| Witnesses.StaffSuspensionMarked | apps/payments/services.py:1524-1533 | concrete run of calls: staff freeze the order while the automatic suspension of a late installment is under way; the freeze gets the marker, and is lifted once that installment is waived |
| Calls.HeldForEverIff | apps/payments/services.py:1508-1582 | the row of a COMPLETED, CANCELLED or staff-suspended order outlives every continuation, calls begun later included and only the cancelling and restoring of that suspended order by staff excepted, if and only if no call now under way can still change it |
| Calls.CallsAreARun | apps/payments/admin_services.py:793-969 | suspensions, liftings, freezes and restores under way, each with what it has looked at and the commits it still owes, go through a run of steps |
| Calls.SuspensionIsACall | apps/payments/services.py:1508-1537 | left to itself, such a suspension is one undisturbed turn of the loop |
| Calls.LiftingIsACall | apps/payments/services.py:1557-1582 | and such a lifting is an undisturbed lifting |
| Finality.SuspendedIsStillCredited | apps/payments/services.py:1056-1057 | payments of such an order are credited all the same |
| Finality.FreezeIsLiftedIff | apps/payments/admin_services.py:944-969 | a staff freeze is lifted automatically if and only if a marker left by a staff resume is still set and nothing is past its deadline |
| Witnesses.LiftedFreeze | apps/payments/admin_services.py:944-969 | concrete sale in which a later freeze is lifted at once |
| Finality.StepHolds | apps/payments/services.py:1557-1582 | a step changes a row that holds if and only if it disturbs it: a marker written or cleared, the mirror of a restore, a cancellation or a restore of that order |
| Access.SetAttemptSuspension | apps/payments/admin_services.py:793-876 | nothing to do when the flag is right; else the flag follows only if ClickFunnels answers |
| Access.SetOrderSuspension | apps/payments/admin_services.py:904-969 | goes through exactly with the right status, an open access and an answer; then access and status change together |
| Decisions.SwitchedIff | apps/payments/admin_services.py:904-969 | with the newest request in force naming an open access: when a freeze or restore goes through, and the two rows it changes |
| Decisions.UnopenedIsNotSwitched | apps/payments/admin_services.py:885-902 | without an open access nothing is frozen or restored |
| Access.FlagEnrollment | apps/payments/admin_services.py:850-876 | the commit after ClickFunnels has answered: the flag is written whatever has happened meanwhile |
| Access.MirrorOrder | apps/payments/admin_services.py:944-969 | the second commit: the order follows if the table allows it, and is skipped in silence if not |
| Interleaving.SwitchIsARun | apps/payments/admin_services.py:904-969 | a freeze or a restore is a run of its two commits |
| Interleaving.SuspensionIsARun | apps/payments/services.py:1508-1537 | an automatic suspension is a run of its three commits |
| Interleaving.ResumptionIsARun | apps/payments/services.py:1557-1582 | so is its lifting |
| Enrollments.AccessStaysOpen | apps/payments/admin_services.py:885-902 | the access found for an order is found again in every later database |
| Enrollments.SuspendedHasAccess | apps/payments/admin_services.py:904-943 | in every run each SUSPENDED order has an open access, so that its suspension can be lifted |
| Enrollments.CommitsCanFollow | apps/payments/admin_services.py:793-969 | whatever happens while ClickFunnels is asked, the commits of the call are still possible |
| Coverage.StepCoversIff | apps/payments/admin_services.py:885-969 | while every SUSPENDED order has its access suspended, a step keeps it so if and only if it does not uncover one: lift or restore an order whose access another suspended order shares, clear that flag, or mirror an order whose flag is not set |
| Coverage.CoveredIff | apps/payments/admin_services.py:885-969 | all through a run every SUSPENDED order has its access suspended if and only if no step of the run uncovers one when its turn comes |
| Witnesses.SharedAccessOpens | apps/payments/admin_services.py:885-902 | two reachable SUSPENDED orders of one customer and course: restoring the one opens the access of the other |
| Access.OpenAccess | apps/payments/admin_services.py:885-902 | the access found belongs to a request with a recorded enrollment |
| Collection.MarkDue | apps/payments/services.py:1409-1417 | exactly the SCHEDULED installments of collectable orders that are due become DUE |
| Collection.MarkLate | apps/payments/services.py:1419-1433 | exactly the ACTIVE orders with a late installment become PAST_DUE |
| Standings.MarkingIsExact | apps/payments/services.py:1409-1433 | both markings together: exactly which installments turn DUE and which orders PAST_DUE, told from the rows; nothing else changes |
| Collection.SuspendOverdue | apps/payments/services.py:1508-1537 | one turn of the loop: suspended with the marker, or untouched |
| Collection.ResumeIfSettled | apps/payments/services.py:1557-1582 | resumed, marker cleared and status recomputed, or untouched |
| Collection.MarkSuspended | apps/payments/services.py:1533-1533 | the marker is written whatever the order has become |
| Collection.ClearMark | apps/payments/services.py:1576-1580 | the last commit of a lifting: marker null and status recomputed |
| Collection.Run | apps/payments/services.py:1379-1394 | the whole run: marking, the two loops, in this order |
| Suspension.RunDoesNotFlap | apps/payments/services.py:1379-1394 | one run never suspends and resumes the same order |
| Suspension.SecondRunIsIdle | apps/payments/services.py:1379-1394 | a second run at the same instant suspends and resumes nothing |
| Suspension.ResumedIff | apps/payments/services.py:1539-1582 | once every suspended order has an open access, as it has in every run, one suspended automatically is resumed exactly when no open installment is more than the grace hours past the end of its due day, the instant written out on the rows; ends ACTIVE or COMPLETED, marker null |
| Suspension.SuspendedIff | apps/payments/services.py:1508-1537 | a collectable unmarked order is suspended exactly when its access is open and an open installment is the grace hours or more past the end of its due day, the instant written out on the rows |
| Suspension.DeadlineIsLate | apps/payments/services.py:1398-1400 | past the deadline implies late by date |
| Suspension.DeadlineIs | apps/payments/services.py:1398-1400 | the grace hours are counted from the midnight that ends the due day |
| Preservation.ResumptionIs | apps/payments/services.py:1576-1580 | a lifting ends in COMPLETED or ACTIVE, never PAST_DUE |
| Preservation.MoveKeeps | apps/payments/services.py:835-841 | link timeouts and refusals keep the invariant; the constraint alone stops a second active attempt |
| Preservation.CurrentAttemptKeeps | apps/payments/services.py:714-734 | get-or-create never makes a second active attempt |
| Preservation.ExpiryKeeps | apps/payments/services.py:1640-1655 | expiry keeps the invariant and credits nothing |
| Preservation.FailureKeeps | apps/payments/services.py:1013-1044 | a verified failure keeps the invariant and erases no success |
| Preservation.CancelOrderKeeps | apps/payments/admin_services.py:145-206 | cancelling keeps the invariant |
| Preservation.CancelInstallmentKeeps | apps/payments/admin_services.py:208-266 | cancelling one installment keeps order statuses true although it does not recompute them |
| Preservation.WaiveKeeps | apps/payments/admin_services.py:268-344 | waiving keeps the invariant, requests of newly eligible sales included |
| Preservation.SuspensionKeeps | apps/payments/services.py:1508-1537 | an undisturbed automatic suspension keeps the invariant |
| Preservation.ResumptionKeeps | apps/payments/services.py:1557-1582 | so does its undisturbed lifting |
| Preservation.SwitchKeeps | apps/payments/admin_services.py:904-969 | so do undisturbed freezes and restores by staff |
| Preservation.FlagKeeps | apps/payments/admin_services.py:850-876 | the flag alone, at any time, keeps the invariant |
| Preservation.MirrorKeeps | apps/payments/admin_services.py:944-969 | so does the order alone, if it has ever been in collection |
| Preservation.MarkKeeps | apps/payments/services.py:1533-1533 | so does the marker, on whatever order |
| Preservation.UnmarkKeeps | apps/payments/services.py:1576-1580 | so does clearing it |
| Preservation.SettlingKeeps | apps/payments/services.py:950-960 | settling one installment keeps the statuses of all orders, the amounts and the requests |
| Preservation.BumpKeeps | apps/payments/reconciliation_services.py:241-260 | an inconclusive check keeps the invariant and credits nothing |
| Steps.Execute | apps/payments/services.py:877-974 | each of the 35 steps is executed by its service method and has the effect the runs are about |
| Steps.ExecuteOnRequest | apps/provisioning/services.py:130-260 | one transaction of a provisioning worker, or a staff retry, on the row of its request |
| Steps.ExecuteOnConfirmation | apps/payments/services.py:1153-1237 | one transaction of a delivery worker, a release or a staff retry, on the row of its confirmation |
| Runs.CreditStepKeeps | apps/payments/services.py:1909-1913 | a credit on a verdict heard any time before keeps the invariant and pays at most its own installment |
| Runs.StepKeeps | apps/payments/services.py:877-1044 | every step, whatever its data, keeps the invariant and credits exactly what CreditedBy says (the recheck apart) |
| Runs.RecheckKeeps | apps/payments/services.py:753-756 | even the recheck keeps the invariant |
| Runs.RepairFindsNothing | apps/payments/reconciliation_services.py:393-408 | no eligible sale ever lacks its request: the repair creates none |
| Runs.EmptyIsGood | apps/payments/models.py:202-400 | the empty database satisfies the invariant, so every database reached from it by any run does |
| Runs.RunGrows | apps/payments/services.py:162-215 | no run changes a settled installment, a SUCCEEDED attempt, a paymentId or frozen terms |
| Runs.ExecuteAll | apps/payments/reconciliation_services.py:116-152 | the database executes any list of steps as the run function says |
| SingleCredit.PaidOnceForAll | apps/payments/models.py:486-496 | a PAID installment keeps its row for ever, has exactly one SUCCEEDED attempt and no other active one |
| SingleCredit.PaymentIdsAreFinal | apps/payments/services.py:924-938 | paymentIds are injective and final over every run |
| SingleCredit.SucceededIsPaidIff | apps/payments/services.py:865-876 | SUCCEEDED still implies PAID at the end of a run if and only if no recheck of the run found an UNKNOWN attempt paid |
| Witnesses.RecheckedSale | apps/payments/services.py:736-763 | concrete sale in which the recheck leaves a SUCCEEDED attempt of an unpaid installment |
| SingleCredit.RecheckedIsNeverPaid | apps/payments/services.py:753-756 | the recheck's success is never credited: in no run does the installment become PAID |
| SingleCredit.NoCreditWithoutVerdict | apps/payments/services.py:1857-1953 | whenever a run makes an installment PAID, its SUCCEEDED attempt is one on which some step carried Tara's accepted verdict, given the candidates then asked, or the one to which staff attributed a payment |
| SingleCredit.ProofIsTaras | apps/payments/services.py:1711-1755 | such a verdict is Tara's word on that very attempt: a bound answer to one of the candidates asked, with exactly the expected amount, or the productId confirmed |
| Money.TotalIsTheLedger | apps/payments/models.py:310-313 | the total of every order is what it was plus the ledger of first-time credits of the run |
| Money.LedgerIsExact | apps/payments/services.py:949-951 | the ledger holds exactly the installments the run made PAID, each once |
| Money.EntriesAreOk | apps/payments/services.py:941-947 | each entry is the installment's paid amount, at least the expected one, and exactly that unless staff attributed it |
| Money.EnoughInEveryRun | apps/payments/services.py:941-949 | no run ever pays a row with less than it expects |
| Money.RemainingBalance | apps/payments/services.py:303-322 | the balance never exceeds what is still expected, and equals it in runs without attribution, from any database in which every PAID row is paid enough |
| Money.ExactWithoutAttribution | apps/payments/services.py:1896-1913 | Tara's verdicts never credit more or less than expected |
| Entitlement.StatusAgrees | apps/payments/services.py:1046-1080 | after every run each order's status agrees with its installments |
| Entitlement.RecomputationIsLegal | apps/payments/services.py:1046-1080 | a recomputation follows the table and ends in COMPLETED exactly when all is settled |
| Entitlement.EligibleForEver | apps/payments/models.py:316-334 | eligibility is never revoked, and exactly one request in force serves the sale |
| Entitlement.RequestIsShared | apps/provisioning/services.py:74-110 | sales of one course to one customer share the request |
| Entitlement.RetryFindsEligible | apps/provisioning/services.py:386-394 | the order behind every request is eligible: that refusal of a retry is unreachable |
| Entitlement.ConfirmedOnce | apps/payments/reconciliation_services.py:376-392 | at most one confirmation per attempt, the repair pass included |
| Entitlement.VerifiedPaymentStands | apps/payments/reconciliation_services.py:264-293 | a credited payment is out of reach of every later step: never expired, never overdue |
| Reconciliation.ChecksEnd | apps/payments/reconciliation_services.py:241-260 | when the job checks what it selected, no attempt has more than ten inconclusive checks, and after the tenth it is not PENDING |
| Reconciliation.CollectionIsARun | apps/payments/services.py:1379-1394 | the collection run is a run of steps |
| Reconciliation.RunLocked | apps/payments/reconciliation_services.py:116-152 | the hourly run is the run of HourlySteps: checks, workers, repairs, collection, expiry, in this order |
| Reconciliation.HourlyRunIsOneJob | apps/payments/reconciliation_services.py:156-180 | the whole list of RunLocked checks only attempts it selected, each at most once, so ChecksEnd covers the hourly run |
| Provisioning.EnrollWithRetry | apps/provisioning/services.py:277-336 | at most three calls; the last is the first not worth retrying; backoff index in range |
| Provisioning.Claim | apps/provisioning/services.py:235-260 | taken, given up after five tries, or left alone |
| Provisioning.Execute | apps/provisioning/services.py:130-228 | the row after a whole execute, for every answer |
| Provisioning.ExecuteEnds | apps/provisioning/services.py:130-228 | for each status, when an execute that claimed its request ends in it, by the answer that counts; tries, successes and access |
| Provisioning.UnclaimedEnds | apps/provisioning/services.py:235-260 | an execute that claims nothing gives the request up after five tries, or leaves it alone |
| Provisioning.ClaimedIff | apps/provisioning/services.py:235-260 | which requests are taken and which given up |
| Provisioning.FinishNonRetryable | apps/provisioning/services.py:262-266 | the end of an execute that lacks a prerequisite |
| Provisioning.RecordAttempt | apps/provisioning/services.py:193-198 | a success, and the access it opened, is on record before the status is |
| Provisioning.SaveConclusion | apps/provisioning/services.py:208-222 | the final status of an execute |
| Provisioning.ExecuteIsARun | apps/provisioning/services.py:130-228 | an undisturbed execute is a run of the actions the interleaving theorems are about |
| Provisioning.RetryRequest | apps/provisioning/services.py:338-411 | which requests a staff retry puts back |
| Provisioning.GivenUpIsTriedAgainIff | apps/provisioning/services.py:338-411 | after five tries a request is tried again exactly if staff put back a FAILED or MANUAL_REVIEW one of an eligible sale |
| Provisioning.WorkersHoldTheRow | apps/provisioning/services.py:130-260 | in every state the workers reach, one that acts has its request IN_PROGRESS, as the steps of a run require of it |
| Provisioning.ProvisionedOnce | apps/provisioning/services.py:130-260 | under any interleaving one worker at a time, at most one success, COMPLETED implies one and is final |
| Provisioning.ClaimsAreBounded | apps/provisioning/services.py:235-260 | at most five claims between staff retries and at most one trial per claim, workers that die included |
| Deliveries.Claim | apps/payments/services.py:1185-1202 | taken, given up after five tries, or left alone |
| Deliveries.FinishRetryableFailure | apps/payments/services.py:1213-1229 | FAILED with its backoff, or MANUAL_REVIEW at the fifth try |
| Deliveries.ProcessOne | apps/payments/services.py:1159-1183 | the row after one undisturbed delivery |
| Deliveries.DeliveryEnds | apps/payments/services.py:1159-1237 | for each status, when an undisturbed delivery ends in it; the backoff is 1, 5, 15 or 60 minutes by the tries made |
| Deliveries.ClaimedIff | apps/payments/services.py:1185-1202 | which messages are taken and which given up |
| Deliveries.ReleasedIff | apps/payments/services.py:1153-1157 | exactly a message being sent is released, due at once, its tries kept |
| Deliveries.MarkSent | apps/payments/services.py:1204-1211 | SENT, whatever the row has become |
| Deliveries.FinishManualReview | apps/payments/services.py:1231-1237 | MANUAL_REVIEW, whatever the row has become |
| Deliveries.ReleaseStuckSend | apps/payments/services.py:1153-1157 | only a SENDING row is released |
| Deliveries.RetryConfirmation | apps/payments/admin_services.py:679-751 | only FAILED and MANUAL_REVIEW are put back |
| Deliveries.GivenUpIsSentAgainIff | apps/payments/admin_services.py:679-751 | after five tries a message is sent again exactly if staff put back a FAILED or MANUAL_REVIEW one; a sent one never is |
| Deliveries.ProcessOneIsARun | apps/payments/services.py:1159-1183 | an undisturbed delivery is a run of the actions the interleaving theorems are about |
| Deliveries.SendsAreBounded | apps/payments/services.py:1185-1202 | at most five claims between staff retries and one send per claim, workers that die included |
| Deliveries.DeliveryTerminates | apps/payments/services.py:1138-1237 | a measure bounds the steps that change anything, whatever the interleaving |
| Deliveries.SentIsNotFinal | apps/payments/services.py:1153-1157 | concrete run: an overtaken worker turns SENT back into FAILED, so tries and status alone are no measure |
| Deliveries.SentStaysIff | apps/payments/services.py:1153-1211 | SENT is final if and only if no other worker is still at the message |
| Deliveries.MeasureIff | apps/payments/services.py:1185-1237 | every automatic action decreases (tries left, status) if and only if nobody is at the message, it is SENDING, or only a final status can follow |

## Left out

- HTTP clients, e-mail rendering and SMTP, threads and the advisory lock: arbitrary answers and endings; the hourly run is one method.
- Reminder e-mails, staff alerts, the transaction list, diagnostics, dashboards, views, templates and Django Admin: they change nothing modelled here.
- Signed references, the allowlist of link hosts, webhook signatures, rate limits and credentials: `safe`, `payload` and `client` stand for their results.
- The audit log, request metadata, timestamps other than the suspension marker, and the ages that only narrow a selection (stale attempts, orders to expire, stuck sends): the steps may happen at any time.
- Reuse of an open order by a returning customer (apps/payments/services.py:679-702): it selects an order and changes none.
- Staff cancel and approve of a provisioning request, which write without a lock, and manual dispositions: not steps of the runs.
- Course and contact maintenance, price changes, currency (one currency), slugs, and the activation of a Tara configuration.
- Time zones: dates and instants are integers of one business calendar; the reading of the clock when a suspension is lifted after a payment is the clock of that delivery or check.
- Freezing and restoring one enrollment outside any order is the step `Flag` for the enrollment behind a request; older enrollments of a request that was tried again are not kept.
- The marker step carries its instant; which of several overdue installments triggered it, and the loop's selection of orders before the first suspension, are in the choice of the steps.
- The recipient of a confirmation is part of its key; a staff retry that changes the address keeps the key.
- The loops over orders and attempts visit them from the newest id down, a fixed order where the database leaves it open; what is proved of each order does not depend on it.
- Exceptions outside the lists the callers catch (a bug in a client, say): they leave an event RECEIVED or a check uncounted. The model's lost lookup is one of those lists.
