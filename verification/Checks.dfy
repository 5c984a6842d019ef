/** Verification outside webhooks: the staff check of one attempt, the attribution of an
    unmatched notification, and the hourly check of a stale attempt. */
module Checks {
  import opened Models
  import opened StateMachines
  import opened Credit
  import opened Collection
  import opened Verification
  import opened Webhooks
  import opened Checkout

  /** CHECKABLE_ATTEMPT_STATUSES, and the statuses the hourly run verifies. */
  predicate Checkable(s: AttemptStatus) {
    s.LinkCreated? || s.Pending? || s.Unknown? || s.Failed? || s.Expired?
  }

  /** What asking Tara about an attempt needs: a client (None when it cannot be built), the
      customer's address and the instant. */
  datatype Inquiry = Inquiry(client: Option<Client>, recipient: string, clock: Clock)

  function ResultOf(db: Db, a: AttemptId, q: Inquiry): Result
    requires a < |db.attempts|
  {
    if q.client.None? then Result.Raised else Checked(db, a, q.client.value, None)
  }

  function ReceiptOf(r: Result, q: Inquiry): Receipt
    requires r.Verified?
  {
    Receipt(r.payment, r.amount, q.recipient, Day(q.clock.now))
  }

  // ----- check_tara_status -----

  function AfterStaffCheck(db: Db, a: AttemptId, q: Inquiry): Db
    requires Linked(db) && a < |db.attempts|
  {
    var r := ResultOf(db, a, q);
    if !Checkable(db.attempts[a].status) || r.Raised? || !r.category.Clean? then db
    else match r.status
      case Success => AfterConfirmed(db, a, ReceiptOf(r, q), q.clock)
      case Failure => AfterFailure(db, a)
      case _ => db
  }

  method CheckTaraStatus(db: Database, a: AttemptId, q: Inquiry)
    requires Linked(db.State()) && a < |db.attempts|
    modifies db
    ensures db.State() == AfterStaffCheck(old(db.State()), a, q)
  {
    if !Checkable(db.attempts[a].status) || q.client.None? {
      return;
    }
    var ids := CandidatePaymentIds(db.events, db.attempts[a].product, db.attempts[a].payment, None);
    var r := Verify(q.client.value, db.attempts[a].product, db.attempts[a].expected, ids);
    if r.Raised? || !r.category.Clean? {
      return;
    }
    if r.status.Success? {
      var outcome := ConfirmPayment(db, a, ReceiptOf(r, q), q.clock);
    } else if r.status.Failure? {
      ApplyVerifiedFailure(db, a);
    }
  }

  // ----- attribute_webhook_event -----

  /** A staff decision: this amount was received for installment k through event e.  A new
      attempt, should one be needed, draws the given productId. */
  datatype Attribution = Attribution(event: nat, key: InstallmentKey, amount: int, product: string, recipient: string,
    today: int)

  predicate Attributable(db: Db, d: Attribution)
    requires d.event < |db.events| && d.key in db.installments
  {
    && db.events[d.event].processing.Uncorrelated?
    && IsOpen(db.installments[d.key].status)
    && d.amount >= db.installments[d.key].expected
  }

  /** The newest non-terminal attempt of k among the first n. */
  function LatestOpen(attempts: seq<Attempt>, k: InstallmentKey, n: nat): (r: Option<AttemptId>)
    requires n <= |attempts|
    ensures r.Some? ==> r.value < n && attempts[r.value].installment == k && IsNonTerminal(attempts[r.value].status)
    ensures forall x | (if r.Some? then r.value + 1 else 0) <= x < n ::
      !(attempts[x].installment == k && IsNonTerminal(attempts[x].status))
  {
    if n == 0 then None
    else if attempts[n - 1].installment == k && IsNonTerminal(attempts[n - 1].status) then Some(n - 1)
    else LatestOpen(attempts, k, n - 1)
  }

  /** The attempt to credit, and the database holding it. */
  function Carrier(db: Db, d: Attribution): (r: (AttemptId, Db))
    requires Linked(db) && d.key in db.installments
    ensures r.0 < |r.1.attempts| && r.1.attempts[r.0].installment == d.key && Linked(r.1)
    ensures r.1.events == db.events
  {
    var open := LatestOpen(db.attempts, d.key, |db.attempts|);
    if open.Some? then (open.value, db)
    else
      var row := NewAttempt(d.key, db.installments[d.key].expected, d.product, AttemptStatus.Pending);
      (|db.attempts|, db.(attempts := db.attempts + [row]))
  }

  function AttributedReceipt(db: Db, d: Attribution): Receipt
    requires d.event < |db.events|
  {
    Receipt(db.events[d.event].payment, Some(d.amount), d.recipient, d.today)
  }

  /** The attribution reaches the crediting of an attempt. */
  predicate Carried(db: Db, d: Attribution)
    requires d.event < |db.events| && d.key in db.installments
  {
    && Attributable(db, d)
    && (LatestOpen(db.attempts, d.key, |db.attempts|).Some? || !HasActive(db.attempts, d.key))
  }

  function AfterAttribution(db: Db, d: Attribution): Db
    requires Linked(db) && d.event < |db.events| && d.key in db.installments
  {
    if !Carried(db, d) then db
    else
      var (a, carried) := Carrier(db, d);
      var receipt := AttributedReceipt(db, d);
      match SuccessOutcome(carried, a, receipt.payment)
      case Raised(error) => if error.PaymentIdConflict? then carried else db
      case _ =>
        var credited := AfterSuccess(carried, a, receipt);
        WithEvent(credited, d.event,
          db.events[d.event].(processing := Processing.Processed, failure := NoFailure, attempt := Some(a)))
  }

  /** attribute_webhook_event.  A paymentId conflict is caught inside the transaction, so an
      attempt created for it stays; any other exception undoes everything. */
  method AttributeWebhookEvent(db: Database, d: Attribution)
    requires Linked(db.State()) && d.event < |db.events| && d.key in db.installments
    modifies db
    ensures db.State() == AfterAttribution(old(db.State()), d)
  {
    var saved := db.State();
    if !Attributable(db.State(), d) {
      return;
    }
    var open := LatestOpen(db.attempts, d.key, |db.attempts|);
    var a: AttemptId;
    if open.Some? {
      a := open.value;
    } else {
      if HasActive(db.attempts, d.key) {
        return;
      }
      a := |db.attempts|;
      db.attempts := db.attempts +
        [NewAttempt(d.key, db.installments[d.key].expected, d.product, AttemptStatus.Pending)];
    }
    assert db.State() == Carrier(saved, d).1;
    var receipt := AttributedReceipt(db.State(), d);
    var outcome := ApplyVerifiedSuccess(db, a, receipt);
    if outcome.Raised? {
      if !outcome.error.PaymentIdConflict? {
        db.Rollback(saved);
      }
      return;
    }
    db.events := db.events[d.event :=
      db.events[d.event].(processing := Processing.Processed, failure := NoFailure, attempt := Some(a))];
  }

  // ----- the hourly check -----

  const MAX_CHECKS := 10
  const BACKOFF: seq<int> := [15, 30, 60, 120, 240]

  function Min(x: int, y: int): int {
    if x <= y then x else y
  }

  /** Row after one more inconclusive check: from the tenth on, PENDING becomes UNKNOWN. */
  function Bumped(row: Attempt, now: int): Attempt {
    row.(checks := row.checks + 1,
         nextCheck := Some(now + BACKOFF[Min(row.checks, |BACKOFF| - 1)]),
         status := if row.checks + 1 >= MAX_CHECKS && row.status.Pending? then AttemptStatus.Unknown else row.status)
  }

  function AfterBump(db: Db, a: AttemptId, now: int): Db
    requires a < |db.attempts|
  {
    if Checkable(db.attempts[a].status) then db.(attempts := db.attempts[a := Bumped(db.attempts[a], now)]) else db
  }

  /** _bump_check_count; the backoff table is never indexed out of range. */
  method BumpCheckCount(db: Database, a: AttemptId, now: int)
    requires a < |db.attempts|
    modifies db`attempts
    ensures db.State() == AfterBump(old(db.State()), a, now)
  {
    if !Checkable(db.attempts[a].status) {
      return;
    }
    var count := db.attempts[a].checks + 1;
    var index := Min(count - 1, |BACKOFF| - 1);
    db.attempts := db.attempts[a := db.attempts[a].(checks := count, nextCheck := Some(now + BACKOFF[index]))];
    if count >= MAX_CHECKS && db.attempts[a].status.Pending? {
      var refused := TransitionAttempt(db, a, AttemptStatus.Unknown);
      assert refused.None?;
    }
  }

  /** The attempt may be selected by _verify_stale_attempts at this instant, as far as its own
      bookkeeping goes (its age and its notifications only narrow the selection). */
  predicate Selectable(row: Attempt, now: int) {
    Checkable(row.status) && (row.nextCheck.None? || row.nextCheck.value <= now) && row.checks < MAX_CHECKS
  }

  function AfterStaleCheck(db: Db, a: AttemptId, q: Inquiry): Db
    requires Linked(db) && a < |db.attempts|
  {
    var r := ResultOf(db, a, q);
    if !Checkable(db.attempts[a].status) || q.client.None? then db
    else if r.Raised? || !r.category.Clean? then AfterBump(db, a, q.clock.now)
    else match r.status
      case Success =>
        if SuccessOutcome(db, a, r.payment).Raised? then AfterBump(db, a, q.clock.now)
        else AfterConfirmed(db, a, ReceiptOf(r, q), q.clock)
      case Failure => AfterFailure(db, a)
      case _ => AfterBump(db, a, q.clock.now)
  }

  /** _verify_one_attempt. */
  method VerifyOneAttempt(db: Database, a: AttemptId, q: Inquiry)
    requires Linked(db.State()) && a < |db.attempts|
    modifies db
    ensures db.State() == AfterStaleCheck(old(db.State()), a, q)
  {
    if !Checkable(db.attempts[a].status) || q.client.None? {
      return;
    }
    var ids := CandidatePaymentIds(db.events, db.attempts[a].product, db.attempts[a].payment, None);
    var r := Verify(q.client.value, db.attempts[a].product, db.attempts[a].expected, ids);
    if r.Raised? || !r.category.Clean? {
      BumpCheckCount(db, a, q.clock.now);
    } else if r.status.Success? {
      var outcome := ConfirmPayment(db, a, ReceiptOf(r, q), q.clock);
      if outcome.Raised? {
        BumpCheckCount(db, a, q.clock.now);
      }
    } else if r.status.Failure? {
      ApplyVerifiedFailure(db, a);
    } else {
      BumpCheckCount(db, a, q.clock.now);
    }
  }
}
