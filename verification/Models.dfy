/** The tables of the payment application and the rows they hold.

    Every table that only ever grows is a sequence whose index is the row's primary key, so
    a larger index is a later row.  Installments are keyed by their order and their 1-based
    sequence number, which the database keeps unique together.  Amounts are whole XAF. */
module Models {

  datatype Option<+T> = None | Some(value: T)

  type OrderId = nat
  type AttemptId = nat
  type RequestId = nat

  datatype OrderStatus = Pending | Active | PastDue | Completed | Cancelled | Suspended | Expired

  datatype InstallmentStatus = Scheduled | Due | Pending | Paid | Failed | Waived | Cancelled

  datatype AttemptStatus = Created | LinkCreated | Pending | Succeeded | Failed | Expired | Unknown

  datatype AccessPolicy = FirstInstallment | FullPayment

  /** `nonpayment` is the instant of an automatic suspension (suspended_for_nonpayment_at). */
  datatype Order = Order(
    key: string, customer: nat, plan: nat, course: nat, policy: AccessPolicy, count: nat, amount: int, total: int,
    status: OrderStatus, nonpayment: Option<int>)

  datatype InstallmentKey = InstallmentKey(order: OrderId, sequence: nat)

  datatype Installment = Installment(expected: int, due: int, status: InstallmentStatus, paid: Option<int>)

  datatype Attempt = Attempt(
    installment: InstallmentKey, product: string, payment: Option<string>, expected: int,
    status: AttemptStatus, link: Option<string>, checks: nat, nextCheck: Option<int>)

  datatype ConfirmationKey = ConfirmationKey(attempt: AttemptId, recipient: string)

  datatype DeliveryStatus = Pending | Sending | Sent | Failed | ManualReview

  datatype Confirmation = Confirmation(status: DeliveryStatus, tries: nat, nextTry: Option<int>)

  datatype RequestStatus = Pending | AwaitingApproval | InProgress | Completed | Failed | ManualReview | Cancelled

  /** `successes` counts the request's SUCCESS attempts; `access` is the suspension flag of the
      ClickFunnels enrollment behind the request's SUCCESS attempt, or None while there is none. */
  datatype Request = Request(
    order: OrderId, contact: nat, course: nat, status: RequestStatus, tries: nat, successes: nat, access: Option<bool>)

  datatype Processing = Received | Processed | Uncorrelated | Rejected | Failed

  datatype FailureCategory =
    | NoFailure | BusinessIdMismatch | UnknownProductId | NoCorrelation | AmountDiffers | PaymentIdTaken
    | PaidTwice | IllegalState | OtherProduct | LookupIndeterminate | MalformedAnswer

  /** One recorded webhook delivery.  The deduplication key is a hash of fields parsed from the
      body together with the body's digest, so the body itself stands for it. */
  datatype Event = Event(
    body: string, product: Option<string>, payment: Option<string>, reportsSuccess: bool,
    processing: Processing, failure: FailureCategory, attempt: Option<AttemptId>)

  datatype Db = Db(
    orders: seq<Order>,
    installments: map<InstallmentKey, Installment>,
    attempts: seq<Attempt>,
    confirmations: map<ConfirmationKey, Confirmation>,
    requests: seq<Request>,
    events: seq<Event>)

  /** The database: its tables are replaced in place by the services. */
  class Database {
    var orders: seq<Order>
    var installments: map<InstallmentKey, Installment>
    var attempts: seq<Attempt>
    var confirmations: map<ConfirmationKey, Confirmation>
    var requests: seq<Request>
    var events: seq<Event>

    constructor ()
      ensures State() == Db([], map[], [], map[], [], [])
    {
      orders, installments, attempts := [], map[], [];
      confirmations, requests, events := map[], [], [];
    }

    function State(): Db
      reads this
    {
      Db(orders, installments, attempts, confirmations, requests, events)
    }

    /** Leaves a transaction by an exception: every table is as it was at its start. */
    method Rollback(saved: Db)
      modifies this
      ensures State() == saved
    {
      orders, installments, attempts := saved.orders, saved.installments, saved.attempts;
      confirmations, requests, events := saved.confirmations, saved.requests, saved.events;
    }
  }

  /** Every order has exactly its installments 1..count. */
  ghost predicate Complete(orders: seq<Order>, installments: map<InstallmentKey, Installment>) {
    && (forall o | 0 <= o < |orders| :: orders[o].count >= 1)
    && (forall k | k in installments :: k.order < |orders| && 1 <= k.sequence <= orders[k.order].count)
    && (forall o: nat, s: nat | o < |orders| && 1 <= s <= orders[o].count :: InstallmentKey(o, s) in installments)
  }

  ghost predicate Attached(attempts: seq<Attempt>, installments: map<InstallmentKey, Installment>) {
    forall a | 0 <= a < |attempts| :: attempts[a].installment in installments
  }

  /** The foreign keys hold. */
  ghost predicate Linked(db: Db) {
    Complete(db.orders, db.installments) && Attached(db.attempts, db.installments)
  }

  predicate Present(payment: Option<string>) {
    payment.Some? && payment.value != ""
  }

  predicate IsSettled(s: InstallmentStatus) {
    s.Paid? || s.Waived?
  }

  /** Still to be paid: the statuses an installment can be collected in. */
  predicate IsOpen(s: InstallmentStatus) {
    s.Scheduled? || s.Due? || s.Pending? || s.Failed?
  }

  /** The statuses of which one_active_payment_attempt_per_installment allows one per installment. */
  predicate IsActive(s: AttemptStatus) {
    s.Created? || s.LinkCreated? || s.Pending? || s.Unknown? || s.Succeeded?
  }

  predicate IsNonTerminal(s: AttemptStatus) {
    s.Created? || s.LinkCreated? || s.Pending? || s.Unknown?
  }

  /** Tara was asked and the attempt given up; it can still be paid on its old link. */
  predicate IsClosed(s: AttemptStatus) {
    s.Failed? || s.Expired?
  }

  predicate AnyPaid(installments: map<InstallmentKey, Installment>, o: OrderId, count: nat) {
    exists s: nat | 1 <= s <= count ::
      InstallmentKey(o, s) in installments && installments[InstallmentKey(o, s)].status.Paid?
  }

  predicate AllSettled(installments: map<InstallmentKey, Installment>, o: OrderId, count: nat) {
    count >= 1 && forall s: nat | 1 <= s <= count ::
      InstallmentKey(o, s) in installments ==> IsSettled(installments[InstallmentKey(o, s)].status)
  }

  predicate StillLate(installments: map<InstallmentKey, Installment>, o: OrderId, count: nat, today: int) {
    exists s: nat | 1 <= s <= count ::
      && InstallmentKey(o, s) in installments
      && IsOpen(installments[InstallmentKey(o, s)].status)
      && installments[InstallmentKey(o, s)].due < today
  }

  predicate Grants(order: Order, installments: map<InstallmentKey, Installment>, o: OrderId) {
    match order.policy
    case FirstInstallment => AnyPaid(installments, o, order.count)
    case FullPayment => AllSettled(installments, o, order.count)
  }

  /** Order.is_access_eligible. */
  predicate Eligible(db: Db, o: OrderId)
    requires o < |db.orders|
  {
    Grants(db.orders[o], db.installments, o)
  }

  /** Order.total_paid_amount, over the first n installments. */
  function TotalPaid(installments: map<InstallmentKey, Installment>, o: OrderId, n: nat): int {
    if n == 0 then 0 else
      var k := InstallmentKey(o, n);
      TotalPaid(installments, o, n - 1) +
      (if k in installments && installments[k].status.Paid? && installments[k].paid.Some?
       then installments[k].paid.value else 0)
  }
}
