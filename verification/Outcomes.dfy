/** What a check or a delivery leaves behind, row by row, for every answer of Tara. */
module Outcomes {
  import opened Models
  import opened StateMachines
  import opened Credit
  import opened Collection
  import opened Verification
  import opened Webhooks
  import opened Checks
  import opened Invariants

  // ----- verdicts -----

  /** Attempt a and its installment after a failure that Tara has confirmed: FAILED, if they were
      still open; nothing else has changed, its count of checks included. */
  ghost predicate FailureLands(db: Db, db': Db, a: AttemptId)
    requires Linked(db) && a < |db.attempts|
  {
    var row := db.attempts[a]; var k := row.installment; var due := db.installments[k];
    && db' == db.(attempts := db'.attempts, installments := db'.installments)
    && |db'.attempts| == |db.attempts| && db'.installments.Keys == db.installments.Keys
    && (forall x | 0 <= x < |db.attempts| && x != a :: db'.attempts[x] == db.attempts[x])
    && (forall x | x in db.installments && x != k :: db'.installments[x] == db.installments[x])
    && db'.attempts[a] == row.(status := db'.attempts[a].status)
    && db'.attempts[a].status ==
         (if row.status in {AttemptStatus.Succeeded, AttemptStatus.Expired} then row.status else AttemptStatus.Failed)
    && db'.installments[k] == due.(status := db'.installments[k].status)
    && db'.installments[k].status ==
         (if due.status in {InstallmentStatus.Paid, InstallmentStatus.Waived, InstallmentStatus.Cancelled}
          then due.status else InstallmentStatus.Failed)
  }

  lemma ConfirmedFailureLands(db: Db, a: AttemptId)
    requires Linked(db) && a < |db.attempts|
    ensures FailureLands(db, AfterFailure(db, a), a)
  {
  }

  /** Attempt a has succeeded and its installment is PAID; the attempt's checks are not counted. */
  ghost predicate SuccessLands(db: Db, db': Db, a: AttemptId, s: Receipt)
    requires Linked(db) && a < |db.attempts|
  {
    var row := db.attempts[a]; var k := row.installment;
    && |db'.attempts| == |db.attempts| && k in db'.installments
    && db'.attempts[a].status.Succeeded? && db'.attempts[a].checks == row.checks
    && (Present(s.payment) ==> db'.attempts[a].payment == s.payment)
    && db'.installments[k].status.Paid?
    && (!db.installments[k].status.Paid? ==>
          db'.installments[k].paid == Some(if s.amount.Some? then s.amount.value else db.installments[k].expected))
  }

  lemma ConfirmedSuccessLands(db: Db, a: AttemptId, s: Receipt, clock: Clock)
    requires Linked(db) && a < |db.attempts| && SuccessOutcome(db, a, s.payment).Applied?
    ensures SuccessLands(db, AfterConfirmed(db, a, s, clock), a, s)
  {
    var credited := AfterSuccess(db, a, s);
    assert credited.attempts[a] == CreditedAttempt(db.attempts, a, s.payment, a);
    var resolved := AfterResolution(credited, a);
    assert AfterResumption(resolved, db.attempts[a].installment.order, clock).attempts == credited.attempts;
  }

  // ----- refused successes -----

  predicate AnotherSucceeded(attempts: seq<Attempt>, a: AttemptId)
    requires a < |attempts|
  {
    exists x | 0 <= x < |attempts| ::
      x != a && attempts[x].installment == attempts[a].installment && attempts[x].status.Succeeded?
  }

  /** Why a verified success is refused: money for an installment already paid by another attempt,
      a paymentId that another attempt holds, or a row that cannot be paid. */
  lemma RefusedAs(db: Db, a: AttemptId, payment: Option<string>)
    requires Inv(db) && a < |db.attempts| && !db.attempts[a].status.Succeeded?
    ensures var outcome := SuccessOutcome(db, a, payment); var row := db.attempts[a];
      var closed := row.status in {AttemptStatus.Failed, AttemptStatus.Expired};
      var due := db.installments[row.installment].status;
      var other := AnotherSucceeded(db.attempts, a);
      var taken := payment.Some? && payment.value != "" &&
        exists x | 0 <= x < |db.attempts| :: x != a && db.attempts[x].payment == payment;
      && (outcome == Outcome.Raised(DuplicatePayment) <==> closed && (due.Paid? || other))
      && (outcome == Outcome.Raised(PaymentIdConflict) <==> taken && !(closed && (due.Paid? || other)))
      && (outcome == Outcome.Raised(InvalidTransition) <==>
            && !taken && !(closed && (due.Paid? || other))
            && (row.status.Created? || due in {InstallmentStatus.Waived, InstallmentStatus.Cancelled}))
      && (outcome.Raised? ==> outcome.error in {DuplicatePayment, PaymentIdConflict, InvalidTransition})
  {
    var row := db.attempts[a];
    if AnotherSucceeded(db.attempts, a) {
      var x :| 0 <= x < |db.attempts| && x != a && db.attempts[x].installment == row.installment
        && db.attempts[x].status.Succeeded?;
      assert Siblings(db.attempts, a, x);
    }
    assert row.payment.None?;
  }

  // ----- the hourly check -----

  /** What makes an answer say nothing that may be applied: it was lost or must not be applied, it
      is not final, or it is a success that the database refuses. */
  predicate Inconclusive(db: Db, a: AttemptId, r: Result)
    requires Linked(db) && a < |db.attempts|
  {
    || r.Raised? || !r.category.Clean? || r.status in {Verdict.Pending, Verdict.Unknown}
    || (r.status.Success? && SuccessOutcome(db, a, r.payment).Raised?)
  }

  predicate Asks(status: AttemptStatus) {
    status !in {AttemptStatus.Created, AttemptStatus.Succeeded}
  }

  /** Minutes until the next check, by the checks before this one. */
  predicate Wait(checks: nat, minutes: int) {
    && (checks == 0 ==> minutes == 15) && (checks == 1 ==> minutes == 30) && (checks == 2 ==> minutes == 60)
    && (checks == 3 ==> minutes == 120) && (checks >= 4 ==> minutes == 240)
  }

  /** The check is counted and the next one put off; from the tenth on, PENDING is given up as
      UNKNOWN.  Nothing else has changed. */
  ghost predicate CheckCounted(db: Db, db': Db, a: AttemptId, now: int)
    requires a < |db.attempts|
  {
    && db' == db.(attempts := db'.attempts) && |db'.attempts| == |db.attempts|
    && (forall x | 0 <= x < |db.attempts| && x != a :: db'.attempts[x] == db.attempts[x])
    && var row := db.attempts[a]; var row' := db'.attempts[a];
       && row' == row.(checks := row.checks + 1, nextCheck := row'.nextCheck, status := row'.status)
       && row'.nextCheck.Some? && Wait(row.checks, row'.nextCheck.value - now)
       && (if row.status.Pending? && row.checks >= 9 then row'.status.Unknown? else row'.status == row.status)
  }

  lemma BumpCounts(db: Db, a: AttemptId, now: int)
    requires a < |db.attempts| && Asks(db.attempts[a].status)
    ensures CheckCounted(db, AfterBump(db, a, now), a, now)
  {
  }

  lemma ChecksAre(db: Db, a: AttemptId, q: Inquiry)
    requires Linked(db) && a < |db.attempts| && Asks(db.attempts[a].status) && q.client.Some?
    ensures var r := ResultOf(db, a, q);
      var applied := if Inconclusive(db, a, r) then db
        else if r.status.Success? then AfterConfirmed(db, a, ReceiptOf(r, q), q.clock) else AfterFailure(db, a);
      && AfterStaffCheck(db, a, q) == applied
      && AfterStaleCheck(db, a, q) == if Inconclusive(db, a, r) then AfterBump(db, a, q.clock.now) else applied
  {
  }

  /** The hourly check of an attempt, for every answer: a clean failure lands, a clean success that
      is not refused lands, and anything else is counted. */
  lemma HourlyCheckLands(db: Db, a: AttemptId, q: Inquiry)
    requires Linked(db) && a < |db.attempts| && Asks(db.attempts[a].status) && q.client.Some?
    ensures var r := ResultOf(db, a, q); var db' := AfterStaleCheck(db, a, q);
      && (Inconclusive(db, a, r) ==> CheckCounted(db, db', a, q.clock.now))
      && (!Inconclusive(db, a, r) && r.status.Failure? ==> FailureLands(db, db', a))
      && (!Inconclusive(db, a, r) && r.status.Success? ==> SuccessLands(db, db', a, ReceiptOf(r, q)))
  {
    ChecksAre(db, a, q);
    LandsAsTold(db, a, q);
    BumpCounts(db, a, q.clock.now);
  }

  lemma LandsAsTold(db: Db, a: AttemptId, q: Inquiry)
    requires Linked(db) && a < |db.attempts| && Asks(db.attempts[a].status) && q.client.Some?
    ensures var r := ResultOf(db, a, q);
      && FailureLands(db, AfterFailure(db, a), a)
      && (!Inconclusive(db, a, r) && r.status.Success? ==>
            SuccessLands(db, AfterConfirmed(db, a, ReceiptOf(r, q), q.clock), a, ReceiptOf(r, q)))
  {
    var r := ResultOf(db, a, q);
    ConfirmedFailureLands(db, a);
    if !Inconclusive(db, a, r) && r.status.Success? {
      ConfirmedSuccessLands(db, a, ReceiptOf(r, q), q.clock);
    }
  }

  /** The staff check lands what the hourly check lands, and counts nothing. */
  lemma StaffCheckLands(db: Db, a: AttemptId, q: Inquiry)
    requires Linked(db) && a < |db.attempts| && Asks(db.attempts[a].status) && q.client.Some?
    ensures var r := ResultOf(db, a, q); var db' := AfterStaffCheck(db, a, q);
      && (Inconclusive(db, a, r) ==> db' == db)
      && (!Inconclusive(db, a, r) && r.status.Failure? ==> FailureLands(db, db', a))
      && (!Inconclusive(db, a, r) && r.status.Success? ==> SuccessLands(db, db', a, ReceiptOf(r, q)))
  {
    ChecksAre(db, a, q);
    LandsAsTold(db, a, q);
  }

  /** An attempt that was never sent to Tara, or has succeeded, is not asked about. */
  lemma ChecksAreIdle(db: Db, a: AttemptId, q: Inquiry)
    requires Linked(db) && a < |db.attempts| && (!Asks(db.attempts[a].status) || q.client.None?)
    ensures AfterStaleCheck(db, a, q) == db && AfterStaffCheck(db, a, q) == db
  {
  }

  /** Whom the hourly job selects: attempts sent to Tara and not SUCCEEDED, checked fewer than ten
      times, whose wait is over. */
  lemma SelectedIff(row: Attempt, now: int)
    ensures Selectable(row, now) <==>
      Asks(row.status) && row.checks <= 9 && (row.nextCheck.Some? ==> now >= row.nextCheck.value)
  {
  }

  /** A counted check keeps the attempt out of the selection until its wait is over. */
  lemma SelectionWaits(db: Db, a: AttemptId, now: int, later: int)
    requires a < |db.attempts| && Asks(db.attempts[a].status)
    ensures var attempts := AfterBump(db, a, now).attempts;
      && |attempts| == |db.attempts|
      && (Selectable(attempts[a], later) <==>
            && db.attempts[a].checks <= 8
            && forall minutes | Wait(db.attempts[a].checks, minutes) :: later >= now + minutes)
  {
    var row := AfterBump(db, a, now).attempts[a];
    assert Wait(db.attempts[a].checks, row.nextCheck.value - now);
  }

  // ----- one delivery -----

  /** What keeps a verified answer from being applied. */
  predicate Misfits(r: Result) {
    r.Raised? || r.category.ProductMismatch? || r.category.Malformed?
  }

  /** Tara or the payload names another amount than the attempt's. */
  predicate OtherAmount(row: Attempt, r: Result, p: Payload)
    requires r.Verified?
  {
    r.category.AmountMismatch? || p.amount !in {None, Some(row.expected)}
  }

  /** The success would be credited, or has been: no reason remains to leave it to a person. */
  predicate CanSettle(db: Db, a: AttemptId, r: Result, p: Payload, payment: Option<string>)
    requires Linked(db) && a < |db.attempts| && r.Verified?
  {
    !OtherAmount(db.attempts[a], r, p) && !SuccessOutcome(db, a, payment).Raised?
  }

  /** How the event at e is filed once attempt a has been verified: each failure category, and when
      it is given; without one the event is PROCESSED. */
  ghost predicate Filed(db: Db, e: nat, row: Event, a: AttemptId, r: Result, p: Payload, payment: Option<string>)
    requires Linked(db) && a < |db.attempts| && e < |db.events|
  {
    && row == db.events[e].(processing := row.processing, failure := row.failure, reportsSuccess := row.reportsSuccess)
    && row.processing in {Processing.Processed, Processing.Failed}
    && (row.processing.Processed? <==> row.failure.NoFailure?)
    && (row.failure.LookupIndeterminate? <==> r.Raised?)
    && (row.failure.OtherProduct? <==> r.Verified? && r.category.ProductMismatch?)
    && (row.failure.MalformedAnswer? <==> r.Verified? && r.category.Malformed?)
    && (row.failure.AmountDiffers? <==> !Misfits(r) && r.status.Success? && OtherAmount(db.attempts[a], r, p))
    && (!Misfits(r) && r.status.Success? && !OtherAmount(db.attempts[a], r, p) ==>
          var outcome := SuccessOutcome(db, a, payment);
          && (row.failure.PaidTwice? <==> outcome == Outcome.Raised(DuplicatePayment))
          && (row.failure.PaymentIdTaken? <==> outcome == Outcome.Raised(PaymentIdConflict))
          && (row.failure.IllegalState? <==> outcome == Outcome.Raised(InvalidTransition)))
    && (row.failure in {PaidTwice, PaymentIdTaken, IllegalState} ==>
          !Misfits(r) && r.status.Success? && !CanSettle(db, a, r, p, payment))
    && (r.Verified? ==> (row.reportsSuccess <==> r.raw.Success?))
    && (r.Raised? ==> row.reportsSuccess == db.events[e].reportsSuccess)
  }

  lemma KnownErrors(db: Db, a: AttemptId, payment: Option<string>)
    requires Linked(db) && a < |db.attempts| && SuccessOutcome(db, a, payment).Raised?
    ensures SuccessOutcome(db, a, payment).error in {DuplicatePayment, PaymentIdConflict, InvalidTransition}
  {
  }

  /** The payment a delivery records: the one Tara was asked about, or else the payload's. */
  function PaymentOf(r: Result, p: Payload): Option<string>
    requires r.Verified?
  {
    if r.payment in {None, Some("")} then p.payment else r.payment
  }

  /** What a delivery credits: the amount Tara confirmed, or else the payload's. */
  function ReceiptFor(r: Result, p: Payload, recipient: string, clock: Clock): Receipt
    requires r.Verified?
  {
    Receipt(PaymentOf(r, p), if r.amount.None? then p.amount else r.amount, recipient, clock.now / 1440)
  }

  lemma ReceiptIs(r: Result, p: Payload, recipient: string, clock: Clock)
    requires r.Verified?
    ensures AppliedSuccess(r, p, recipient, clock) == ReceiptFor(r, p, recipient, clock)
  {
    assert Present(r.payment) <==> r.payment !in {None, Some("")};
  }

  /** The delivery leaves the attempt to a person, or has nothing final to apply. */
  predicate Unapplied(db: Db, a: AttemptId, r: Result, p: Payload)
    requires Linked(db) && a < |db.attempts|
  {
    || Misfits(r) || r.status in {Verdict.Pending, Verdict.Unknown}
    || (r.status.Success? && !CanSettle(db, a, r, p, PaymentOf(r, p)))
  }

  lemma DoubtIsOtherAmount(db: Db, a: AttemptId, r: Result, p: Payload)
    requires a < |db.attempts| && r.Verified?
    ensures DoubtfulAmount(db, a, r, p) <==> OtherAmount(db.attempts[a], r, p)
  {
  }

  lemma SuccessApplies(db: Db, e: nat, a: AttemptId, r: Result, p: Payload, recipient: string, clock: Clock)
    requires Linked(db) && a < |db.attempts| && e < |db.events| && !Misfits(r) && r.status.Success?
    ensures var db' := AfterVerdict(db, e, a, r, p, recipient, clock); var s := ReceiptFor(r, p, recipient, clock);
      db'.(events := db.events) ==
        if CanSettle(db, a, r, p, s.payment) then AfterConfirmed(db, a, s, clock).(events := db.events) else db
  {
    ReceiptIs(r, p, recipient, clock);
    DoubtIsOtherAmount(db, a, r, p);
  }

  lemma OthersApply(db: Db, e: nat, a: AttemptId, r: Result, p: Payload, recipient: string, clock: Clock)
    requires Linked(db) && a < |db.attempts| && e < |db.events| && (Misfits(r) || !r.status.Success?)
    ensures var db' := AfterVerdict(db, e, a, r, p, recipient, clock);
      db'.(events := db.events) == if !Misfits(r) && r.status.Failure? then AfterFailure(db, a) else db
  {
  }

  lemma SuccessRow(db: Db, e: nat, a: AttemptId, r: Result, p: Payload, recipient: string, clock: Clock)
    requires Linked(db) && a < |db.attempts| && e < |db.events| && !Misfits(r) && r.status.Success?
    ensures var events := AfterVerdict(db, e, a, r, p, recipient, clock).events;
      var row := db.events[e].(reportsSuccess := r.raw.Success?); var outcome := SuccessOutcome(db, a, PaymentOf(r, p));
      && |events| == |db.events|
      && events[e] == if OtherAmount(db.attempts[a], r, p) then FailedRow(row, AmountDiffers)
        else if outcome.Raised? then FailedRow(row, CategoryOf(outcome.error))
        else row.(processing := Processing.Processed)
  {
    ReceiptIs(r, p, recipient, clock);
    DoubtIsOtherAmount(db, a, r, p);
  }

  lemma SuccessIsFiled(db: Db, e: nat, a: AttemptId, r: Result, p: Payload, recipient: string, clock: Clock)
    requires Linked(db) && a < |db.attempts| && e < |db.events| && db.events[e].failure.NoFailure?
    requires !Misfits(r) && r.status.Success?
    ensures var events := AfterVerdict(db, e, a, r, p, recipient, clock).events;
      |events| == |db.events| && Filed(db, e, events[e], a, r, p, PaymentOf(r, p))
  {
    SuccessRow(db, e, a, r, p, recipient, clock);
    if SuccessOutcome(db, a, PaymentOf(r, p)).Raised? {
      KnownErrors(db, a, PaymentOf(r, p));
    }
  }

  lemma VerdictIsFiled(db: Db, e: nat, a: AttemptId, r: Result, p: Payload, recipient: string, clock: Clock)
    requires Linked(db) && a < |db.attempts| && e < |db.events| && db.events[e].failure.NoFailure?
    ensures var events := AfterVerdict(db, e, a, r, p, recipient, clock).events;
      |events| == |db.events| && Filed(db, e, events[e], a, r, p, if r.Verified? then PaymentOf(r, p) else None)
  {
    if !Misfits(r) && r.status.Success? {
      SuccessIsFiled(db, e, a, r, p, recipient, clock);
    }
  }

  lemma SuccessIsLanded(db: Db, e: nat, a: AttemptId, r: Result, p: Payload, recipient: string, clock: Clock)
    requires Linked(db) && a < |db.attempts| && e < |db.events| && !Misfits(r) && r.status.Success?
    ensures var db' := AfterVerdict(db, e, a, r, p, recipient, clock); var s := ReceiptFor(r, p, recipient, clock);
      && (!CanSettle(db, a, r, p, s.payment) ==> db'.(events := db.events) == db)
      && (CanSettle(db, a, r, p, s.payment) && !db.attempts[a].status.Succeeded? ==> SuccessLands(db, db', a, s))
  {
    SuccessApplies(db, e, a, r, p, recipient, clock);
    var s := ReceiptFor(r, p, recipient, clock);
    if CanSettle(db, a, r, p, s.payment) && !db.attempts[a].status.Succeeded? {
      ConfirmedSuccessLands(db, a, s, clock);
    }
  }

  /** And what it does to the sale: nothing unless the answer is applied; a confirmed failure lands,
      so does a confirmed success, and a pending or unknown answer changes nothing. */
  lemma VerdictLands(db: Db, e: nat, a: AttemptId, r: Result, p: Payload, recipient: string, clock: Clock)
    requires Linked(db) && a < |db.attempts| && e < |db.events|
    ensures var db' := AfterVerdict(db, e, a, r, p, recipient, clock);
      && (Unapplied(db, a, r, p) ==> db'.(events := db.events) == db)
      && (!Unapplied(db, a, r, p) && r.status.Failure? ==> FailureLands(db, db'.(events := db.events), a))
      && (!Unapplied(db, a, r, p) && r.status.Success? && !db.attempts[a].status.Succeeded? ==>
            SuccessLands(db, db', a, ReceiptFor(r, p, recipient, clock)))
  {
    if !Misfits(r) && r.status.Success? {
      SuccessIsLanded(db, e, a, r, p, recipient, clock);
    } else {
      OthersApply(db, e, a, r, p, recipient, clock);
      ConfirmedFailureLands(db, a);
    }
  }

  /** The attempt is the one with the product that the payload names. */
  predicate IsNamed(db: Db, p: Payload, a: AttemptId) {
    a < |db.attempts| && p.product == Some(db.attempts[a].product) && db.attempts[a].product != ""
  }

  ghost predicate NoneNamed(db: Db, p: Payload) {
    forall a: AttemptId :: !IsNamed(db, p, a)
  }

  lemma NamedIff(db: Db, p: Payload)
    requires ProductsDistinct(db.attempts)
    ensures Correlated(db, p).None? <==> NoneNamed(db, p)
    ensures forall a: AttemptId :: Correlated(db, p) == Some(a) <==> IsNamed(db, p, a)
  {
    var found := Correlated(db, p);
    if found.Some? {
      assert IsNamed(db, p, found.value);
    }
  }

  /** A new body becomes one new event: REJECTED when it names another business or none of ours is
      configured, UNCORRELATED when it names no product of ours, and neither changes anything else;
      any other is attached to the attempt it names, and PROCESSED or FAILED. */
  lemma NewBodyIsFiled(db: Db, d: Delivery)
    requires Linked(db) && ProductsDistinct(db.attempts) && d.payload.Some?
    requires forall e | 0 <= e < |db.events| :: db.events[e].body != d.body
    ensures var p := d.payload.value; var db' := AfterDelivery(db, d); var foreign := d.business != Some(p.business);
      && |db'.events| == |db.events| + 1
      && var row := db'.events[|db.events|];
         && row.body == d.body && row.product == p.product && row.payment == p.payment
         && (row.processing.Rejected? <==> foreign)
         && (row.processing.Rejected? ==> row.failure.BusinessIdMismatch?)
         && (row.processing.Uncorrelated? <==> !foreign && NoneNamed(db, p))
         && (row.processing.Uncorrelated? ==>
               row.failure == if p.product in {None, Some("")} then NoCorrelation else UnknownProductId)
         && (foreign || NoneNamed(db, p) ==> row.attempt.None? && db' == db.(events := db.events + [row]))
         && (!foreign ==> forall a: AttemptId | IsNamed(db, p, a) ::
               row.attempt == Some(a) && row.processing in {Processing.Processed, Processing.Failed})
  {
    var p := d.payload.value;
    NamedIff(db, p);
    if Inquires(db, d) {
      var a := Correlated(db, p).value;
      var attached := AttachedTo(db, d, p, a);
      var r := if d.client.None? then Result.Raised else Checked(attached, a, d.client.value, p.payment);
      VerdictIsFiled(attached, |db.events|, a, r, p, d.recipient, d.clock);
    }
  }

  /** The attached body: Tara is asked with the payload's paymentId first, and the verdict is filed
      and lands as told above; without a client nothing is known and nothing changes. */
  lemma NamedBodyLands(db: Db, d: Delivery, a: AttemptId)
    requires Linked(db) && ProductsDistinct(db.attempts) && d.payload.Some?
    requires forall e | 0 <= e < |db.events| :: db.events[e].body != d.body
    requires d.business == Some(d.payload.value.business) && IsNamed(db, d.payload.value, a)
    ensures var p := d.payload.value; var row := db.attempts[a];
      var attached := db.(events := db.events +
        [Event(d.body, p.product, p.payment, p.reportsSuccess, Processing.Received, NoFailure, Some(a))]);
      var r := if d.client.None? then Result.Raised
        else Meaning(d.client.value, row.product, row.expected,
                     Candidates(attached.events, row.product, row.payment, p.payment));
      AfterDelivery(db, d) == AfterVerdict(attached, |db.events|, a, r, p, d.recipient, d.clock)
  {
    NamedIff(db, d.payload.value);
    assert !Delivered(db.events, d.body);
  }
}
