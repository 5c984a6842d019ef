/** PaymentCreditService: the one place where a verified verdict changes a sale. */
module Credit {
  import opened Models
  import opened StateMachines
  import opened FollowUps

  datatype Outcome = Applied | AlreadyApplied | Raised(error: Error)

  /** What one verified success is made of: the paymentId and the amount Tara confirmed
      (each may be absent), the customer's e-mail address and the business date. */
  datatype Receipt = Receipt(payment: Option<string>, amount: Option<int>, recipient: string, today: int)

  // ----- order status -----

  /** The status a recomputation must end in, whatever path it takes through the table. */
  function Recomputed(
    status: OrderStatus, installments: map<InstallmentKey, Installment>, o: OrderId, count: nat,
    today: int): OrderStatus
  {
    if status.Cancelled? || status.Suspended? then status
    else if AllSettled(installments, o, count) then OrderStatus.Completed
    else if (status.Pending? || status.Expired?) && AnyPaid(installments, o, count) then OrderStatus.Active
    else if status.PastDue? && !StillLate(installments, o, count, today) then OrderStatus.Active
    else status
  }

  function WithRecomputed(db: Db, o: OrderId, today: int): seq<Order>
    requires o < |db.orders|
  {
    var order := db.orders[o];
    db.orders[o := order.(status := Recomputed(order.status, db.installments, o, order.count, today))]
  }

  /** Never raises: each transition it asks for is in the table. */
  method UpdateOrderStatus(db: Database, o: OrderId, today: int)
    requires o < |db.orders|
    modifies db`orders
    ensures db.orders == WithRecomputed(old(db.State()), o, today)
  {
    var status := db.orders[o].status;
    if status.Cancelled? || status.Suspended? {
      return;
    }
    var count := db.orders[o].count;
    var anyPaid := AnyPaid(db.installments, o, count);
    var allSettled := AllSettled(db.installments, o, count);
    if (anyPaid || allSettled) && (status.Pending? || status.Expired?) {
      var error := TransitionOrder(db, o, OrderStatus.Active);
      assert error.None?;
    }
    var stillLate := StillLate(db.installments, o, count, today);
    if db.orders[o].status.PastDue? && !stillLate && !allSettled {
      var error := TransitionOrder(db, o, OrderStatus.Active);
      assert error.None?;
    }
    if allSettled && !db.orders[o].status.Completed? {
      var error := TransitionOrder(db, o, OrderStatus.Completed);
      assert error.None?;
    }
  }

  // ----- verified success -----

  predicate Siblings(attempts: seq<Attempt>, a: AttemptId, x: AttemptId)
    requires a < |attempts| && x < |attempts|
  {
    x != a && attempts[x].installment == attempts[a].installment
  }

  predicate SucceededSibling(attempts: seq<Attempt>, a: AttemptId)
    requires a < |attempts|
  {
    exists x | 0 <= x < |attempts| :: Siblings(attempts, a, x) && attempts[x].status.Succeeded?
  }

  predicate PaymentTaken(attempts: seq<Attempt>, a: AttemptId, payment: Option<string>) {
    exists x | 0 <= x < |attempts| :: x != a && attempts[x].payment == payment
  }

  predicate PaymentConflict(attempts: seq<Attempt>, a: AttemptId, payment: Option<string>)
    requires a < |attempts|
  {
    Present(payment) &&
    (PaymentTaken(attempts, a, payment) || (Present(attempts[a].payment) && attempts[a].payment != payment))
  }

  function SuccessOutcome(db: Db, a: AttemptId, payment: Option<string>): Outcome
    requires a < |db.attempts| && db.attempts[a].installment in db.installments
  {
    var attempt := db.attempts[a];
    var installment := db.installments[attempt.installment].status;
    if attempt.status.Succeeded? then AlreadyApplied
    else if IsClosed(attempt.status) && (installment.Paid? || SucceededSibling(db.attempts, a))
      then Raised(DuplicatePayment)
    else if PaymentConflict(db.attempts, a, payment) then Raised(PaymentIdConflict)
    else if attempt.status.Created? || installment.Cancelled? || installment.Waived? then Raised(InvalidTransition)
    else Applied
  }

  /** Row x after attempt a has been credited: the late success of a closes the attempts
      that were opened meanwhile, and every other row is as it was. */
  function CreditedAttempt(attempts: seq<Attempt>, a: AttemptId, payment: Option<string>, x: AttemptId): Attempt
    requires a < |attempts| && x < |attempts|
  {
    if x == a then
      attempts[a].(status := AttemptStatus.Succeeded,
        payment := if Present(payment) then payment else attempts[a].payment)
    else if IsClosed(attempts[a].status) && Siblings(attempts, a, x) && IsNonTerminal(attempts[x].status) then
      attempts[x].(status := AttemptStatus.Expired)
    else attempts[x]
  }

  function CreditedAttempts(attempts: seq<Attempt>, a: AttemptId, payment: Option<string>): (r: seq<Attempt>)
    requires a < |attempts|
    ensures |r| == |attempts|
  {
    seq(|attempts|, x requires 0 <= x < |attempts| => CreditedAttempt(attempts, a, payment, x))
  }

  /** The database after a verified success that was applied. */
  function Credited(db: Db, a: AttemptId, s: Receipt): Db
    requires Linked(db) && a < |db.attempts|
  {
    var k := db.attempts[a].installment;
    var paid := db.(
      attempts := CreditedAttempts(db.attempts, a, s.payment),
      installments := db.installments[k := InstallmentAfter(db.installments[k], InstallmentStatus.Paid, s.amount)]);
    var updated := paid.(
      orders := WithRecomputed(paid, k.order, s.today),
      confirmations := WithConfirmation(db.confirmations, a, s.recipient));
    if Eligible(updated, k.order) then
      updated.(requests := WithRequest(db.requests, k.order, db.orders[k.order]))
    else updated
  }

  function AfterSuccess(db: Db, a: AttemptId, s: Receipt): Db
    requires Linked(db) && a < |db.attempts|
  {
    if SuccessOutcome(db, a, s.payment).Applied? then Credited(db, a, s) else db
  }

  /** Attempts on the way to CreditedAttempts: siblings from index n on are already closed. */
  ghost predicate Reopening(before: seq<Attempt>, now: seq<Attempt>, a: AttemptId, n: nat)
    requires a < |before|
  {
    && |now| == |before|
    && forall x | 0 <= x < |before| :: now[x] ==
         if x >= n && Siblings(before, a, x) && IsNonTerminal(before[x].status)
         then before[x].(status := AttemptStatus.Expired) else before[x]
  }

  /** _reopen_for_late_success: closes the newer open attempts, newest first, then reopens
      this one as UNKNOWN.  May leave the tables half changed when it raises. */
  method ReopenForLateSuccess(db: Database, a: AttemptId) returns (error: Option<Error>)
    requires a < |db.attempts| && db.attempts[a].installment in db.installments
    requires IsClosed(db.attempts[a].status)
    modifies db`attempts
    ensures error.Some? <==>
      old(db.installments[db.attempts[a].installment].status.Paid? || SucceededSibling(db.attempts, a))
    ensures error.Some? ==> error.value == DuplicatePayment
    ensures var others := old(CreditedAttempts(db.attempts, a, None));
      error.None? ==> db.attempts == others[a := old(db.attempts[a]).(status := AttemptStatus.Unknown)]
  {
    if db.installments[db.attempts[a].installment].status.Paid? {
      return Some(DuplicatePayment);
    }
    ghost var before := db.attempts;
    for x := |db.attempts| downto 0
      invariant Reopening(before, db.attempts, a, x)
      invariant forall y | x <= y < |before| && Siblings(before, a, y) :: !before[y].status.Succeeded?
    {
      if Siblings(db.attempts, a, x) && IsActive(db.attempts[x].status) {
        if db.attempts[x].status.Succeeded? {
          return Some(DuplicatePayment);
        }
        var refused := TransitionAttempt(db, x, AttemptStatus.Expired);
        assert refused.None?;
      }
    }
    var refused := TransitionAttempt(db, a, AttemptStatus.Unknown);
    assert refused.None?;
    return None;
  }

  /** The paymentId part of apply_verified_success. */
  method RecordPayment(db: Database, a: AttemptId, payment: Option<string>) returns (error: Option<Error>)
    requires a < |db.attempts|
    modifies db`attempts
    ensures var held := old(db.attempts[a]).payment;
      error == if Present(payment) && (PaymentTaken(old(db.attempts), a, payment) || (Present(held) && held != payment))
        then Some(PaymentIdConflict) else None
    ensures error.None? ==>
      var row := old(db.attempts[a]);
      db.attempts == old(db.attempts)[a := row.(payment := if Present(payment) then payment else row.payment)]
  {
    if Present(payment) {
      if PaymentTaken(db.attempts, a, payment) {
        return Some(PaymentIdConflict);
      }
      if Present(db.attempts[a].payment) && db.attempts[a].payment != payment {
        return Some(PaymentIdConflict);
      }
      if !Present(db.attempts[a].payment) {
        db.attempts := db.attempts[a := db.attempts[a].(payment := payment)];
      }
    }
    return None;
  }

  /** What the attempt rows look like when the first half of apply_verified_success is done. */
  lemma ReopenedConflicts(attempts: seq<Attempt>, now: seq<Attempt>, a: AttemptId, payment: Option<string>)
    requires a < |attempts| == |now|
    requires forall x | 0 <= x < |attempts| :: now[x].payment == attempts[x].payment
    ensures PaymentConflict(now, a, payment) == PaymentConflict(attempts, a, payment)
  {
    if PaymentTaken(attempts, a, payment) {
      var x :| 0 <= x < |attempts| && x != a && attempts[x].payment == payment;
      assert now[x].payment == payment;
    }
  }

  /** The attempt's side of apply_verified_success, up to and including SUCCEEDED. */
  method SettleAttempt(db: Database, a: AttemptId, payment: Option<string>) returns (error: Option<Error>)
    requires a < |db.attempts| && db.attempts[a].installment in db.installments
    requires !db.attempts[a].status.Succeeded?
    modifies db`attempts
    ensures var attempt := old(db.attempts[a]);
      error == if IsClosed(attempt.status)
        && (db.installments[attempt.installment].status.Paid? || SucceededSibling(old(db.attempts), a))
                 then Some(DuplicatePayment)
               else if PaymentConflict(old(db.attempts), a, payment) then Some(PaymentIdConflict)
               else if attempt.status.Created? then Some(InvalidTransition)
               else None
    ensures error.None? ==> db.attempts == CreditedAttempts(old(db.attempts), a, payment)
  {
    ghost var before := db.attempts;
    if IsClosed(db.attempts[a].status) {
      error := ReopenForLateSuccess(db, a);
      if error.Some? {
        return;
      }
    }
    ReopenedConflicts(before, db.attempts, a, payment);
    error := RecordPayment(db, a, payment);
    if error.Some? {
      return;
    }
    error := TransitionAttempt(db, a, AttemptStatus.Succeeded);
    if error.None? {
      assert db.attempts == CreditedAttempts(before, a, payment);
    }
  }

  /** apply_verified_success: one transaction, rolled back whenever a step raises. */
  method ApplyVerifiedSuccess(db: Database, a: AttemptId, s: Receipt) returns (outcome: Outcome)
    requires Linked(db.State()) && a < |db.attempts|
    modifies db
    ensures outcome == SuccessOutcome(old(db.State()), a, s.payment)
    ensures db.State() == AfterSuccess(old(db.State()), a, s)
  {
    var saved := db.State();
    var k := db.attempts[a].installment;
    if db.attempts[a].status.Succeeded? {
      return AlreadyApplied;
    }
    var error := SettleAttempt(db, a, s.payment);
    if error.None? {
      error := TransitionInstallment(db, k, InstallmentStatus.Paid, s.amount);
    }
    if error.Some? {
      db.Rollback(saved);
      return Raised(error.value);
    }
    UpdateOrderStatus(db, k.order, s.today);
    CreateConfirmation(db, a, s.recipient);
    if Eligible(db.State(), k.order) {
      CreateRequest(db, k.order);
    }
    return Applied;
  }

  // ----- verified failure -----

  function AfterFailure(db: Db, a: AttemptId): Db
    requires Linked(db) && a < |db.attempts|
  {
    var attempt := db.attempts[a];
    var k := attempt.installment;
    var installment := db.installments[k];
    db.(attempts := if IsNonTerminal(attempt.status)
                      then db.attempts[a := attempt.(status := AttemptStatus.Failed)] else db.attempts,
        installments := if IsOpen(installment.status)
                          then db.installments[k := installment.(status := InstallmentStatus.Failed)]
                          else db.installments)
  }

  /** apply_verified_failure: never raises, and never touches a SUCCEEDED attempt, a settled
      or cancelled installment, or the order. */
  method ApplyVerifiedFailure(db: Database, a: AttemptId)
    requires Linked(db.State()) && a < |db.attempts|
    modifies db`attempts, db`installments
    ensures db.State() == AfterFailure(old(db.State()), a)
  {
    var k := db.attempts[a].installment;
    var swallowed := TransitionAttempt(db, a, AttemptStatus.Failed);
    swallowed := TransitionInstallment(db, k, InstallmentStatus.Failed, None);
    ghost var before := old(db.State());
    assert db.attempts == AfterFailure(before, a).attempts;
    assert db.installments == AfterFailure(before, a).installments;
  }
}
