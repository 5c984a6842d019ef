/** Every transaction of the payment lifecycle as one step, and whole runs of them.

    Whatever lies outside a transaction (Tara, ClickFunnels, mail servers, clocks, staff,
    customers, the interleaving of all these) is in the choice of the steps and in their data. */
module Steps {
  import opened Models
  import opened Orders
  import opened Checkout
  import opened Expiry
  import opened Access
  import opened Collection
  import opened Administration
  import opened FollowUps
  import opened Credit
  import opened Verification
  import opened Webhooks
  import opened Checks
  import opened Composites
  import P = Provisioning
  import D = Deliveries

  /** One earlier verification: Tara as it then answered, and the candidates then asked. */
  datatype Lookup = Lookup(client: Client, ids: seq<string>)

  datatype Step =
    | Place(key: string, customer: nat, plan: nat, terms: Option<Plan>, start: int)
    | Reopen(order: OrderId)
    | CurrentAttempt(installment: InstallmentKey, product: string)
    | SaveLink(attempt: AttemptId, link: Option<string>)
    | Move(attempt: AttemptId, status: AttemptStatus)     // the other outcomes of a link request
    | Recheck(attempt: AttemptId)                         // checkout learns that an UNKNOWN attempt was paid
    | Webhook(delivery: Delivery)
    | Record(delivery: Delivery)                          // the parts of a delivery or a check, each on its own
    | Credit(attempt: AttemptId, lookup: Lookup, receipt: Receipt)
    | Fail(attempt: AttemptId, lookup: Lookup)
    | Resolve(attempt: AttemptId)
    | SaveEvent(event: nat, row: Event)
    | Bump(attempt: AttemptId, now: int)
    | Select(chosen: set<AttemptId>, now: int)            // the hourly run reads which attempts to check
    | Flag(request: RequestId, suspended: bool)           // the parts of suspending and restoring access
    | Mirror(order: OrderId, suspended: bool)
    | Mark(order: OrderId, now: int)
    | Unmark(order: OrderId, today: int)
    | StaffCheck(attempt: AttemptId, inquiry: Inquiry)
    | StaleCheck(attempt: AttemptId, inquiry: Inquiry)
    | Attribute(attribution: Attribution)
    | Expire(order: OrderId)
    | MarkDue(today: int)
    | MarkLate(today: int)
    | Suspend(order: OrderId, clock: Clock)
    | Resume(order: OrderId, clock: Clock)
    | CancelOrder(order: OrderId)
    | CancelInstallment(installment: InstallmentKey)
    | Waive(installment: InstallmentKey, today: int)
    | Freeze(order: OrderId, answers: bool)
    | Restore(order: OrderId, answers: bool)
    | RepairConfirmation(attempt: AttemptId, recipient: string)
    | RepairRequest(order: OrderId)
    | Provision(request: RequestId, requestAct: P.Action)
    | Deliver(confirmation: ConfirmationKey, deliveryAct: D.Action)

  // ----- the remaining transactions -----

  /** _repair_missing_followups for one attempt, selected because it has no confirmation. */
  predicate Unconfirmed(db: Db, a: AttemptId)
    requires a < |db.attempts|
  {
    db.attempts[a].status.Succeeded? && forall c | c in db.confirmations :: c.attempt != a
  }

  function AfterRepairConfirmation(db: Db, a: AttemptId, recipient: string): Db
    requires a < |db.attempts|
  {
    if Unconfirmed(db, a) then db.(confirmations := WithConfirmation(db.confirmations, a, recipient)) else db
  }

  /** The same for one order with a PAID installment and no request of its own. */
  predicate Unrequested(db: Db, o: OrderId)
    requires o < |db.orders|
  {
    && AnyPaid(db.installments, o, db.orders[o].count)
    && (forall r | 0 <= r < |db.requests| :: db.requests[r].order != o)
    && Eligible(db, o)
  }

  function AfterRepairRequest(db: Db, o: OrderId): Db
    requires o < |db.orders|
  {
    if Unrequested(db, o) then db.(requests := WithRequest(db.requests, o, db.orders[o])) else db
  }

  // ----- verdicts heard earlier -----

  /** The verification of attempt a that a call makes now: Tara as it answers, and the candidates. */
  function LookupOf(db: Db, a: AttemptId, client: Client, preferred: Option<string>): Lookup
    requires a < |db.attempts|
  {
    Lookup(client, Candidates(db.events, db.attempts[a].product, db.attempts[a].payment, preferred))
  }

  function Heard(row: Attempt, lookup: Lookup): Result {
    Meaning(lookup.client, row.product, row.expected, lookup.ids)
  }

  /** The callers' guards: the verdict was accepted, the paymentId is Tara's if Tara named one,
      and an amount, if any is passed on, is the expected one. */
  predicate Supports(row: Attempt, lookup: Lookup, s: Receipt) {
    && Accepts(Heard(row, lookup))
    && (Present(Heard(row, lookup).payment) ==> s.payment == Heard(row, lookup).payment)
    && (s.amount.Some? ==> s.amount.value == row.expected)
  }

  predicate Denies(row: Attempt, lookup: Lookup) {
    Heard(row, lookup).Verified? && Heard(row, lookup).status.Failure?
  }

  // ----- calls under way -----

  /** An order that was in collection, or suspended, when the call looked at it. */
  predicate Started(status: OrderStatus) {
    !status.Pending? && !status.Expired?
  }

  // ----- the steps by the service they belong to -----

  predicate AtCheckout(step: Step) {
    step.Place? || step.Reopen? || step.CurrentAttempt? || step.SaveLink? || step.Move? || step.Recheck?
  }

  /** Whole deliveries, checks and attributions, and the recording of a delivery. */
  predicate OnVerdict(step: Step) {
    step.Webhook? || step.Record? || step.StaffCheck? || step.StaleCheck? || step.Attribute?
  }

  /** The parts of a delivery or a check that follow the asking of Tara. */
  predicate IsPart(step: Step) {
    step.Credit? || step.Fail? || step.Resolve? || step.SaveEvent? || step.Bump?
  }

  /** The parts of suspending and restoring access that follow the look at the order. */
  predicate OnAccess(step: Step) {
    step.Flag? || step.Mirror? || step.Mark? || step.Unmark?
  }

  predicate ByStaff(step: Step) {
    step.CancelOrder? || step.CancelInstallment? || step.Waive? || step.Freeze? || step.Restore?
  }

  predicate ByJob(step: Step) {
    step.Select? || step.Expire? || step.MarkDue? || step.MarkLate? || step.Suspend? || step.Resume?
  }

  predicate OnFollowUps(step: Step) {
    step.RepairConfirmation? || step.RepairRequest? || step.Provision? || step.Deliver?
  }

  /** The rows a step names exist; a new productId is not in use (it is unique in the
      database); what a call has checked before asking Tara or ClickFunnels, it has checked. */
  predicate Possible(db: Db, step: Step) {
    if AtCheckout(step) then CheckoutPossible(db, step)
    else if OnVerdict(step) then VerdictPossible(db, step)
    else if IsPart(step) then PartPossible(db, step)
    else if OnAccess(step) then AccessPossible(db, step)
    else if ByStaff(step) then StaffPossible(db, step)
    else if ByJob(step) then JobPossible(db, step)
    else FollowUpPossible(db, step)
  }

  function Apply(db: Db, step: Step): Db
    requires Linked(db)
  {
    if !Possible(db, step) then db
    else if AtCheckout(step) then AfterCheckoutStep(db, step)
    else if OnVerdict(step) then AfterVerdictStep(db, step)
    else if IsPart(step) then AfterPart(db, step)
    else if OnAccess(step) then AfterAccessStep(db, step)
    else if ByStaff(step) then AfterStaffStep(db, step)
    else if ByJob(step) then AfterJobStep(db, step)
    else AfterFollowUpStep(db, step)
  }

  // ----- checkout -----

  predicate CheckoutPossible(db: Db, step: Step)
    requires AtCheckout(step)
  {
    match step
    case Place(_, _, _, _, _) => true
    case Reopen(o) => o < |db.orders|
    case CurrentAttempt(k, product) => k in db.installments && FreshProduct(db, product)
    case SaveLink(a, _) => a < |db.attempts|
    case Move(a, status) => a < |db.attempts| && (status.Unknown? || status.Failed? || status.Expired?)
    case Recheck(a) => a < |db.attempts| && db.attempts[a].status.Unknown?
  }

  function AfterCheckoutStep(db: Db, step: Step): Db
    requires Linked(db) && AtCheckout(step) && CheckoutPossible(db, step)
  {
    match step
    case Place(key, customer, plan, terms, start) => AfterPlacement(db, key, customer, plan, terms, start)
    case Reopen(o) => AfterReopening(db, o)
    case CurrentAttempt(k, product) => AfterCurrentAttempt(db, k, product)
    case SaveLink(a, link) => AfterLink(db, a, link)
    case Move(a, status) => AfterMove(db, a, status)
    case Recheck(a) => AfterMove(db, a, AttemptStatus.Succeeded)
  }

  method ExecuteAtCheckout(db: Database, step: Step)
    requires Linked(db.State()) && AtCheckout(step) && CheckoutPossible(db.State(), step)
    modifies db
    ensures db.State() == AfterCheckoutStep(old(db.State()), step)
  {
    match step
    case Place(key, customer, plan, terms, start) => var p := CreateOrder(db, key, customer, plan, terms, start);
    case Reopen(o) => ReopenExpiredOrder(db, o);
    case CurrentAttempt(k, product) => var c := GetOrCreateCurrentAttempt(db, k, product);
    case SaveLink(a, link) => PersistLinkResult(db, a, link);
    case Move(a, status) => var e := TransitionAttemptLocked(db, a, status);
    case Recheck(a) => var e := TransitionAttemptLocked(db, a, AttemptStatus.Succeeded);
  }

  // ----- deliveries, checks and attributions -----

  predicate VerdictPossible(db: Db, step: Step)
    requires OnVerdict(step)
  {
    match step
    case Webhook(_) => true
    case Record(_) => true
    case StaffCheck(a, _) => a < |db.attempts|
    case StaleCheck(a, _) => a < |db.attempts|
    case Attribute(d) => d.event < |db.events| && d.key in db.installments && FreshProduct(db, d.product)
  }

  function AfterVerdictStep(db: Db, step: Step): Db
    requires Linked(db) && OnVerdict(step) && VerdictPossible(db, step)
  {
    match step
    case Webhook(d) => AfterDelivery(db, d)
    case Record(d) => AfterRecording(db, d)
    case StaffCheck(a, q) => AfterStaffCheck(db, a, q)
    case StaleCheck(a, q) => AfterStaleCheck(db, a, q)
    case Attribute(d) => AfterAttribution(db, d)
  }

  method ExecuteOnVerdict(db: Database, step: Step)
    requires Linked(db.State()) && OnVerdict(step) && VerdictPossible(db.State(), step)
    modifies db
    ensures db.State() == AfterVerdictStep(old(db.State()), step)
  {
    match step
    case Webhook(d) => ProcessWebhook(db, d);
    case Record(d) => RecordDelivery(db, d);
    case StaffCheck(a, q) => CheckTaraStatus(db, a, q);
    case StaleCheck(a, q) => VerifyOneAttempt(db, a, q);
    case Attribute(d) => AttributeWebhookEvent(db, d);
  }

  predicate PartPossible(db: Db, step: Step)
    requires IsPart(step)
  {
    match step
    case Credit(a, lookup, s) => a < |db.attempts| && Supports(db.attempts[a], lookup, s)
    case Fail(a, lookup) => a < |db.attempts| && Denies(db.attempts[a], lookup)
    case Resolve(a) => a < |db.attempts|
    case SaveEvent(e, row) => e < |db.events| && row.body == db.events[e].body
    case Bump(a, _) => a < |db.attempts|
  }

  function AfterPart(db: Db, step: Step): Db
    requires Linked(db) && IsPart(step) && PartPossible(db, step)
  {
    match step
    case Credit(a, _, s) => AfterSuccess(db, a, s)
    case Fail(a, _) => AfterFailure(db, a)
    case Resolve(a) => AfterResolution(db, a)
    case SaveEvent(e, row) => WithEvent(db, e, row)
    case Bump(a, now) => AfterBump(db, a, now)
  }

  method ExecutePart(db: Database, step: Step)
    requires Linked(db.State()) && IsPart(step) && PartPossible(db.State(), step)
    modifies db
    ensures db.State() == AfterPart(old(db.State()), step)
  {
    match step
    case Credit(a, _, s) => var outcome := ApplyVerifiedSuccess(db, a, s);
    case Fail(a, _) => ApplyVerifiedFailure(db, a);
    case Resolve(a) => ResolveReportedEvents(db, a);
    case SaveEvent(e, row) => Webhooks.SaveEvent(db, e, row);
    case Bump(a, now) => BumpCheckCount(db, a, now);
  }

  // ----- access -----

  predicate AccessPossible(db: Db, step: Step)
    requires OnAccess(step)
  {
    match step
    case Flag(r, _) => r < |db.requests| && db.requests[r].access.Some?
    case Mirror(o, suspended) =>
      o < |db.orders| && Started(db.orders[o].status) && (suspended ==> OpenAccess(db, o).Some?)
    case Mark(o, _) => o < |db.orders|
    case Unmark(o, _) => o < |db.orders|
  }

  function AfterAccessStep(db: Db, step: Step): Db
    requires OnAccess(step) && AccessPossible(db, step)
  {
    match step
    case Flag(r, suspended) => AfterFlag(db, r, suspended)
    case Mirror(o, suspended) => AfterMirror(db, o, suspended)
    case Mark(o, now) => AfterMark(db, o, now)
    case Unmark(o, today) => AfterUnmark(db, o, today)
  }

  method ExecuteOnAccess(db: Database, step: Step)
    requires OnAccess(step) && AccessPossible(db.State(), step)
    modifies db
    ensures db.State() == AfterAccessStep(old(db.State()), step)
  {
    match step
    case Flag(r, suspended) => FlagEnrollment(db, r, suspended);
    case Mirror(o, suspended) => MirrorOrder(db, o, suspended);
    case Mark(o, now) => MarkSuspended(db, o, now);
    case Unmark(o, today) => ClearMark(db, o, today);
  }

  // ----- staff -----

  predicate StaffPossible(db: Db, step: Step)
    requires ByStaff(step)
  {
    match step
    case CancelOrder(o) => o < |db.orders|
    case CancelInstallment(k) => k in db.installments
    case Waive(k, _) => k in db.installments
    case Freeze(o, _) => o < |db.orders|
    case Restore(o, _) => o < |db.orders|
  }

  function AfterStaffStep(db: Db, step: Step): Db
    requires Linked(db) && ByStaff(step) && StaffPossible(db, step)
  {
    match step
    case CancelOrder(o) => AfterCancelOrder(db, o)
    case CancelInstallment(k) => AfterCancelInstallment(db, k)
    case Waive(k, today) => AfterWaive(db, k, today)
    case Freeze(o, answers) => AfterSwitch(db, o, true, answers)
    case Restore(o, answers) => AfterSwitch(db, o, false, answers)
  }

  method ExecuteForStaff(db: Database, step: Step)
    requires Linked(db.State()) && ByStaff(step) && StaffPossible(db.State(), step)
    modifies db
    ensures db.State() == AfterStaffStep(old(db.State()), step)
  {
    match step
    case CancelOrder(o) => var d := Administration.CancelOrder(db, o);
    case CancelInstallment(k) => var d := Administration.CancelInstallment(db, k);
    case Waive(k, today) => var d := WaiveInstallment(db, k, today);
    case Freeze(o, answers) => var d := SetOrderSuspension(db, o, true, answers);
    case Restore(o, answers) => var d := SetOrderSuspension(db, o, false, answers);
  }

  // ----- the hourly run -----

  predicate JobPossible(db: Db, step: Step)
    requires ByJob(step)
  {
    match step
    case Select(_, _) => true
    case Expire(o) => o < |db.orders|
    case MarkDue(_) => true
    case MarkLate(_) => true
    case Suspend(o, _) => o < |db.orders|
    case Resume(o, _) => o < |db.orders|
  }

  function AfterJobStep(db: Db, step: Step): Db
    requires Linked(db) && ByJob(step) && JobPossible(db, step)
  {
    match step
    case Select(_, _) => db
    case Expire(o) => AfterExpiry(db, o)
    case MarkDue(today) => AfterMarkDue(db, today)
    case MarkLate(today) => AfterMarkLate(db, today)
    case Suspend(o, clock) => AfterSuspension(db, o, clock)
    case Resume(o, clock) => AfterResumption(db, o, clock)
  }

  method ExecuteForJob(db: Database, step: Step)
    requires Linked(db.State()) && ByJob(step) && JobPossible(db.State(), step)
    modifies db
    ensures db.State() == AfterJobStep(old(db.State()), step)
  {
    match step
    case Select(_, _) =>
    case Expire(o) => var e := ExpireOne(db, o);
    case MarkDue(today) => Collection.MarkDue(db, today);
    case MarkLate(today) => Collection.MarkLate(db, today);
    case Suspend(o, clock) => SuspendOverdue(db, o, clock);
    case Resume(o, clock) => var r := ResumeIfSettled(db, o, clock);
  }

  // ----- follow-up work -----

  /** A worker that goes on has claimed the request; a retry looks at the order behind it. */
  predicate MayAct(db: Db, r: RequestId, act: P.Action)
    requires r < |db.requests| && db.requests[r].order < |db.orders|
  {
    && (act.Abandon? || act.Try? || act.Conclude? ==> db.requests[r].status.InProgress?)
    && (act.Retry? ==> act.eligible == Eligible(db, db.requests[r].order))
  }

  predicate FollowUpPossible(db: Db, step: Step)
    requires OnFollowUps(step)
  {
    match step
    case RepairConfirmation(a, _) => a < |db.attempts|
    case RepairRequest(o) => o < |db.orders|
    case Provision(r, act) => r < |db.requests| && db.requests[r].order < |db.orders| && MayAct(db, r, act)
    case Deliver(key, _) => key in db.confirmations
  }

  function AfterFollowUpStep(db: Db, step: Step): Db
    requires OnFollowUps(step) && FollowUpPossible(db, step)
  {
    match step
    case RepairConfirmation(a, recipient) => AfterRepairConfirmation(db, a, recipient)
    case RepairRequest(o) => AfterRepairRequest(db, o)
    case Provision(r, act) =>
      db.(requests := db.requests[r := P.RowAfter(db.requests[r], act)])
    case Deliver(key, act) =>
      db.(confirmations := db.confirmations[key := D.RowAfter(db.confirmations[key], act)])
  }

  method ExecuteOnFollowUps(db: Database, step: Step)
    requires OnFollowUps(step) && FollowUpPossible(db.State(), step)
    modifies db
    ensures db.State() == AfterFollowUpStep(old(db.State()), step)
  {
    match step
    case RepairConfirmation(a, recipient) =>
      if Unconfirmed(db.State(), a) {
        CreateConfirmation(db, a, recipient);
      }
    case RepairRequest(o) =>
      if Unrequested(db.State(), o) {
        CreateRequest(db, o);
      }
    case Provision(r, act) => ExecuteOnRequest(db, r, act);
    case Deliver(key, act) => ExecuteOnConfirmation(db, key, act);
  }

  /** One transaction of Provisioning.Execute, or a staff retry. */
  method ExecuteOnRequest(db: Database, r: RequestId, act: P.Action)
    requires r < |db.requests| && db.requests[r].order < |db.orders| && MayAct(db.State(), r, act)
    modifies db`requests
    ensures db.requests == old(db.requests)[r := P.RowAfter(old(db.requests[r]), act)]
  {
    match act
    case Enter(_) => var claimed := P.Claim(db, r);
    case Retry(_) => var done := P.RetryRequest(db, r);
    case Abandon(_) => P.FinishNonRetryable(db, r);
    case Try(_, result) =>
      if db.requests[r].successes == 0 {
        P.RecordAttempt(db, r, result);
      }
    case Conclude(_, result) => P.SaveConclusion(db, r, result);
    case Stop(_) =>
  }

  /** One transaction of Deliveries.ProcessOne, the release of a stuck send or a staff retry. */
  method ExecuteOnConfirmation(db: Database, key: ConfirmationKey, act: D.Action)
    requires key in db.confirmations
    modifies db`confirmations
    ensures db.confirmations == old(db.confirmations)[key := D.RowAfter(old(db.confirmations[key]), act)]
  {
    match act
    case Enter => var claimed := D.Claim(db, key);
    case Release(now) => D.ReleaseStuckSend(db, key, now);
    case Retry => var done := D.RetryConfirmation(db, key);
    case Stop =>
    case End(ending, now) =>
      if ending.Retryable? {
        D.FinishRetryableFailure(db, key, now);
      } else if ending.Review? {
        D.FinishManualReview(db, key);
      } else {
        D.MarkSent(db, key);
      }
  }

  // ----- any step -----

  /** The database runs one step, by the service method of that name. */
  method Execute(db: Database, step: Step)
    requires Linked(db.State())
    modifies db
    ensures db.State() == Apply(old(db.State()), step)
  {
    if !Possible(db.State(), step) {
      return;
    }
    if AtCheckout(step) {
      ExecuteAtCheckout(db, step);
    } else if OnVerdict(step) {
      ExecuteOnVerdict(db, step);
    } else if IsPart(step) {
      ExecutePart(db, step);
    } else if OnAccess(step) {
      ExecuteOnAccess(db, step);
    } else if ByStaff(step) {
      ExecuteForStaff(db, step);
    } else if ByJob(step) {
      ExecuteForJob(db, step);
    } else {
      ExecuteOnFollowUps(db, step);
    }
  }
}
