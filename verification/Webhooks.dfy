/** WebhookProcessingService, and the follow-up shared by every verified success. */
module Webhooks {
  import opened Models
  import opened StateMachines
  import opened Credit
  import opened Collection
  import opened Verification

  // ----- after a verified success -----

  predicate Reported(e: Event, product: string) {
    e.product == Some(product) && e.reportsSuccess && !e.processing.Processed?
  }

  function Resolved(e: Event, product: string, a: AttemptId): Event {
    if Reported(e, product) then e.(processing := Processing.Processed, attempt := Some(a)) else e
  }

  function ResolvedEvents(events: seq<Event>, product: string, a: AttemptId): (r: seq<Event>)
    ensures |r| == |events|
  {
    seq(|events|, i requires 0 <= i < |events| => Resolved(events[i], product, a))
  }

  function AfterResolution(db: Db, a: AttemptId): Db
    requires a < |db.attempts|
  {
    if db.attempts[a].status.Succeeded?
    then db.(events := ResolvedEvents(db.events, db.attempts[a].product, a))
    else db
  }

  /** resolve_reported_events: a bulk update of the earlier unconfirmed SUCCESS notifications. */
  method ResolveReportedEvents(db: Database, a: AttemptId)
    requires a < |db.attempts|
    modifies db`events
    ensures db.State() == AfterResolution(old(db.State()), a)
  {
    if db.attempts[a].status.Succeeded? {
      db.events := ResolvedEvents(db.events, db.attempts[a].product, a);
    }
  }

  /** An applied success, the resolution of its notifications, and the lifting of a suspension
      for non-payment.  The clock is that of the lifting, which follows at once. */
  function AfterConfirmed(db: Db, a: AttemptId, s: Receipt, clock: Clock): Db
    requires Linked(db) && a < |db.attempts|
  {
    if SuccessOutcome(db, a, s.payment).Raised? then db
    else
      var resolved := AfterResolution(AfterSuccess(db, a, s), a);
      AfterResumption(resolved, db.attempts[a].installment.order, clock)
  }

  method ConfirmPayment(db: Database, a: AttemptId, s: Receipt, clock: Clock) returns (outcome: Outcome)
    requires Linked(db.State()) && a < |db.attempts|
    modifies db
    ensures outcome == SuccessOutcome(old(db.State()), a, s.payment)
    ensures db.State() == AfterConfirmed(old(db.State()), a, s, clock)
  {
    var o := db.attempts[a].installment.order;
    outcome := ApplyVerifiedSuccess(db, a, s);
    if !outcome.Raised? {
      ResolveReportedEvents(db, a);
      var resumed := ResumeIfSettled(db, o, clock);
    }
  }

  // ----- one delivery -----

  datatype Payload = Payload(
    business: string, product: Option<string>, payment: Option<string>, amount: Option<int>, reportsSuccess: bool)

  /** One delivery with everything it meets: its parsed payload (None when the body is
      rejected), the active configuration and Tara's answers, and the customer's address. */
  datatype Delivery = Delivery(
    body: string, payload: Option<Payload>, business: Option<string>, client: Option<Client>, recipient: string,
    clock: Clock)

  predicate Delivered(events: seq<Event>, body: string) {
    exists e | 0 <= e < |events| :: events[e].body == body
  }

  function Opened(body: string, p: Payload): Event {
    Event(body, p.product, p.payment, p.reportsSuccess, Processing.Received, NoFailure, None)
  }

  function WithProduct(attempts: seq<Attempt>, product: Option<string>): (a: Option<AttemptId>)
    ensures a.Some? ==> a.value < |attempts| && Some(attempts[a.value].product) == product
    ensures a.None? ==> forall x | 0 <= x < |attempts| :: Some(attempts[x].product) != product
  {
    if |attempts| == 0 then None
    else
      var front := WithProduct(attempts[..|attempts| - 1], product);
      if front.Some? then front
      else if Some(attempts[|attempts| - 1].product) == product then Some(|attempts| - 1)
      else None
  }

  function Correlated(db: Db, p: Payload): Option<AttemptId> {
    if Present(p.product) then WithProduct(db.attempts, p.product) else None
  }

  predicate Ours(p: Payload, business: Option<string>) {
    business.Some? && p.business == business.value
  }

  /** The result of verifying attempt a for a delivery (or a check, with no preferred id). */
  function Checked(db: Db, a: AttemptId, client: Client, preferred: Option<string>): Result
    requires a < |db.attempts|
  {
    var row := db.attempts[a];
    Meaning(client, row.product, row.expected, Candidates(db.events, row.product, row.payment, preferred))
  }

  /** The success a delivery would apply: Tara's figures, completed by the payload's. */
  function AppliedSuccess(r: Result, p: Payload, recipient: string, clock: Clock): Receipt
    requires r.Verified?
  {
    Receipt(if Present(r.payment) then r.payment else p.payment,
            if r.amount.Some? then r.amount else p.amount, recipient, Day(clock.now))
  }

  function CategoryOf(error: Error): FailureCategory {
    match error
    case PaymentIdConflict => PaymentIdTaken
    case DuplicatePayment => PaidTwice
    case _ => IllegalState
  }

  function WithEvent(db: Db, e: nat, row: Event): Db
    requires e < |db.events|
  {
    db.(events := db.events[e := row])
  }

  function FailedRow(row: Event, failure: FailureCategory): Event {
    row.(processing := Processing.Failed, failure := failure)
  }

  predicate DoubtfulAmount(db: Db, a: AttemptId, r: Result, p: Payload)
    requires a < |db.attempts| && r.Verified?
  {
    r.category.AmountMismatch? || (p.amount.Some? && p.amount.value != db.attempts[a].expected)
  }

  /** The end of _verify_and_apply for the event at e, already attached to attempt a. */
  function AfterVerdict(db: Db, e: nat, a: AttemptId, r: Result, p: Payload, recipient: string, clock: Clock): Db
    requires Linked(db) && a < |db.attempts| && e < |db.events|
  {
    if r.Raised? then WithEvent(db, e, FailedRow(db.events[e], LookupIndeterminate))
    else
      var row := db.events[e].(reportsSuccess := r.raw.Success?);
      var processed := row.(processing := Processing.Processed);
      if r.category.ProductMismatch? then WithEvent(db, e, FailedRow(row, OtherProduct))
      else if r.category.Malformed? then WithEvent(db, e, FailedRow(row, MalformedAnswer))
      else match r.status
        case Success =>
          if DoubtfulAmount(db, a, r, p) then WithEvent(db, e, FailedRow(row, AmountDiffers))
          else
            var s := AppliedSuccess(r, p, recipient, clock);
            var outcome := SuccessOutcome(db, a, s.payment);
            if outcome.Raised? then WithEvent(db, e, FailedRow(row, CategoryOf(outcome.error)))
            else
              var confirmed := AfterConfirmed(db, a, s, clock);
              confirmed.(events := confirmed.events[e := processed])
        case Failure => WithEvent(AfterFailure(db, a), e, processed)
        case _ => WithEvent(db, e, processed)
  }

  /** The row attached to the attempt it names, just before Tara is asked. */
  function AttachedTo(db: Db, d: Delivery, p: Payload, a: AttemptId): Db {
    db.(events := db.events + [Opened(d.body, p).(attempt := Some(a))])
  }

  /** The row of a delivery before Tara is asked. */
  function RecordedRow(db: Db, d: Delivery, p: Payload): Event {
    var row := Opened(d.body, p);
    if !Ours(p, d.business) then row.(processing := Processing.Rejected, failure := BusinessIdMismatch)
    else if Correlated(db, p).None? then
      row.(processing := Processing.Uncorrelated,
        failure := if Present(p.product) then UnknownProductId else NoCorrelation)
    else row.(attempt := Correlated(db, p))
  }

  function AfterRecording(db: Db, d: Delivery): Db {
    if d.payload.None? || Delivered(db.events, d.body) then db
    else db.(events := db.events + [RecordedRow(db, d, d.payload.value)])
  }

  /** The delivery is new and names one of our attempts: Tara will be asked. */
  predicate Inquires(db: Db, d: Delivery) {
    d.payload.Some? && !Delivered(db.events, d.body) && Ours(d.payload.value, d.business)
      && Correlated(db, d.payload.value).Some?
  }

  function AfterDelivery(db: Db, d: Delivery): Db
    requires Linked(db)
  {
    if Inquires(db, d) then
      var p := d.payload.value;
      var a := Correlated(db, p).value;
      var attached := AttachedTo(db, d, p, a);
      var r := if d.client.None? then Result.Raised else Checked(attached, a, d.client.value, p.payment);
      AfterVerdict(attached, |db.events|, a, r, p, d.recipient, d.clock)
    else AfterRecording(db, d)
  }

  /** event.save(): the row as the caller holds it. */
  method SaveEvent(db: Database, e: nat, row: Event)
    requires e < |db.events|
    modifies db`events
    ensures db.State() == WithEvent(old(db.State()), e, row)
  {
    db.events := db.events[e := row];
  }

  /** _verify_and_apply. */
  method VerifyAndApply(db: Database, e: nat, a: AttemptId, client: Option<Client>, p: Payload, recipient: string,
      clock: Clock)
    requires Linked(db.State()) && a < |db.attempts| && e < |db.events|
    modifies db
    ensures db.State() == AfterVerdict(old(db.State()), e, a,
      if client.None? then Result.Raised else Checked(old(db.State()), a, client.value, p.payment), p, recipient, clock)
  {
    var r := Result.Raised;
    if client.Some? {
      var ids := CandidatePaymentIds(db.events, db.attempts[a].product, db.attempts[a].payment, p.payment);
      r := Verify(client.value, db.attempts[a].product, db.attempts[a].expected, ids);
    }
    var row := db.events[e];
    if r.Raised? {
      SaveEvent(db, e, FailedRow(row, LookupIndeterminate));
      return;
    }
    row := row.(reportsSuccess := r.raw.Success?);
    if r.category.ProductMismatch? || r.category.Malformed? {
      row := FailedRow(row, if r.category.Malformed? then MalformedAnswer else OtherProduct);
    } else if r.status.Success? {
      if r.category.AmountMismatch? || (p.amount.Some? && p.amount.value != db.attempts[a].expected) {
        row := FailedRow(row, AmountDiffers);
      } else {
        var outcome := ConfirmPayment(db, a, AppliedSuccess(r, p, recipient, clock), clock);
        row := if outcome.Raised? then FailedRow(row, CategoryOf(outcome.error))
          else row.(processing := Processing.Processed);
      }
    } else {
      if r.status.Failure? {
        ApplyVerifiedFailure(db, a);
      }
      row := row.(processing := Processing.Processed);
    }
    SaveEvent(db, e, row);
  }

  /** process_webhook up to the verification: get_or_create on the deduplication key. */
  method RecordDelivery(db: Database, d: Delivery)
    requires Linked(db.State())
    modifies db`events
    ensures db.State() == AfterRecording(old(db.State()), d)
  {
    if d.payload.None? || Delivered(db.events, d.body) {
      return;
    }
    var p := d.payload.value;
    var e := |db.events|;
    db.events := db.events + [Opened(d.body, p)];
    if !Ours(p, d.business) {
      db.events := db.events[e := db.events[e].(processing := Processing.Rejected, failure := BusinessIdMismatch)];
      return;
    }
    var a := Correlated(db.State(), p);
    if a.None? {
      var failure := if Present(p.product) then UnknownProductId else NoCorrelation;
      db.events := db.events[e := db.events[e].(processing := Processing.Uncorrelated, failure := failure)];
      return;
    }
    db.events := db.events[e := db.events[e].(attempt := a)];
  }

  /** process_webhook: what is recorded first, then verification with Tara. */
  method ProcessWebhook(db: Database, d: Delivery)
    requires Linked(db.State())
    modifies db
    ensures db.State() == AfterDelivery(old(db.State()), d)
  {
    var e := |db.events|;
    var inquires := Inquires(db.State(), d);
    RecordDelivery(db, d);
    if inquires {
      assert db.events == old(AttachedTo(db.State(), d, d.payload.value,
        Correlated(db.State(), d.payload.value).value)).events;
      VerifyAndApply(db, e, db.events[e].attempt.value, d.client, d.payload.value, d.recipient, d.clock);
    }
  }
}
