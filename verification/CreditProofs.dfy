/** What a verified success does to the database, and when it is refused. */
module CreditProofs {
  import opened Models
  import opened StateMachines
  import opened Credit
  import opened FollowUps
  import opened Administration
  import opened Invariants
  import opened Checks
  import opened Preservation

  // ----- when it is refused -----

  /** An attempt that holds a paymentId is SUCCEEDED, so the branch for an attempt linked to a
      different paymentId is never taken: a conflict is always with another attempt. */
  lemma ConflictIsWithAnother(db: Db, a: AttemptId, payment: Option<string>)
    requires Inv(db) && a < |db.attempts| && !db.attempts[a].status.Succeeded?
    ensures db.attempts[a].payment.None?
    ensures PaymentConflict(db.attempts, a, payment) <==> Present(payment) && PaymentTaken(db.attempts, a, payment)
  {
  }

  /** An attempt that is still active belongs to an installment that is not PAID. */
  lemma ActiveIsUnpaid(db: Db, a: AttemptId)
    requires Inv(db) && a < |db.attempts| && IsNonTerminal(db.attempts[a].status)
    ensures !db.installments[db.attempts[a].installment].status.Paid? && !SucceededSibling(db.attempts, a)
  {
    forall x | 0 <= x < |db.attempts| && Siblings(db.attempts, a, x)
      ensures !db.attempts[x].status.Succeeded?
    {
      assert x < a || a < x;
    }
  }

  /** A verified success is applied exactly when the attempt was sent to Tara and is not yet
      credited, its installment is still open, no sibling has succeeded and the paymentId is
      not another attempt's. */
  lemma AppliedIff(db: Db, a: AttemptId, payment: Option<string>)
    requires Inv(db) && a < |db.attempts|
    ensures SuccessOutcome(db, a, payment).Applied? <==>
      && Checkable(db.attempts[a].status)
      && IsOpen(db.installments[db.attempts[a].installment].status)
      && !SucceededSibling(db.attempts, a)
      && !(Present(payment) && PaymentTaken(db.attempts, a, payment))
  {
    if !db.attempts[a].status.Succeeded? {
      ConflictIsWithAnother(db, a, payment);
      if IsNonTerminal(db.attempts[a].status) {
        ActiveIsUnpaid(db, a);
      }
    }
  }

  // ----- what it changes -----

  /** The attempts after a credit: a is SUCCEEDED, its open siblings are closed along a
      transition of the table, so that none is active, and no other row changes. */
  lemma CreditClosesSiblings(attempts: seq<Attempt>, a: AttemptId, payment: Option<string>)
    requires OneActive(attempts) && a < |attempts| && Checkable(attempts[a].status) && !SucceededSibling(attempts, a)
    ensures var attempts' := CreditedAttempts(attempts, a, payment);
      && attempts'[a].status.Succeeded?
      && (forall x | 0 <= x < |attempts| && x != a && attempts[x] != attempts'[x] ::
            && attempts[x].installment == attempts[a].installment && IsNonTerminal(attempts[x].status)
            && AttemptStatus.Expired in AttemptTransitions(attempts[x].status)
            && attempts'[x] == attempts[x].(status := AttemptStatus.Expired))
      && (forall x | 0 <= x < |attempts| && x != a && attempts[x].installment == attempts[a].installment ::
            !IsActive(attempts'[x].status))
  {
    forall x | 0 <= x < |attempts| && x != a && attempts[x].installment == attempts[a].installment
      ensures !IsActive(CreditedAttempt(attempts, a, payment, x).status)
    {
      assert Siblings(attempts, a, x);
      assert x < a || a < x;
    }
  }

  /** Everything else after a credit: its installment is PAID with the amount received, its
      order recomputed, one confirmation and perhaps one request added. */
  lemma CreditPaysOnce(db: Db, a: AttemptId, s: Receipt)
    requires Linked(db) && a < |db.attempts| && IsOpen(db.installments[db.attempts[a].installment].status)
    ensures var k := db.attempts[a].installment; var db' := Credited(db, a, s);
      && db'.installments[k].status.Paid?
      && db'.installments[k].paid == Some(if s.amount.Some? then s.amount.value else db.installments[k].expected)
      && (forall j | j in db.installments && j != k :: db'.installments[j] == db.installments[j])
      && |db'.orders| == |db.orders|
      && (forall o | 0 <= o < |db.orders| && o != k.order :: db'.orders[o] == db.orders[o])
      && db'.confirmations.Keys == db.confirmations.Keys + {ConfirmationKey(a, s.recipient)}
      && (forall c | c in db.confirmations :: db'.confirmations[c] == db.confirmations[c])
      && db.requests <= db'.requests && |db'.requests| <= |db.requests| + 1 && db'.events == db.events
  {
  }

  /** Only rows of the credited installment change: its attempt, its open siblings (closed,
      along a transition of the table), the installment itself and the status of its order. */
  lemma CreditTouchesOneInstallment(db: Db, a: AttemptId, s: Receipt)
    requires Inv(db) && a < |db.attempts| && SuccessOutcome(db, a, s.payment).Applied?
    ensures var k := db.attempts[a].installment; var db' := AfterSuccess(db, a, s);
      && db'.attempts == CreditedAttempts(db.attempts, a, s.payment) && db'.attempts[a].status.Succeeded?
      && db'.installments[k].status.Paid?
      && db'.installments[k].paid == Some(if s.amount.Some? then s.amount.value else db.installments[k].expected)
      && (forall x | 0 <= x < |db.attempts| && x != a && db.attempts[x] != db'.attempts[x] ::
            && db.attempts[x].installment == k && IsNonTerminal(db.attempts[x].status)
            && AttemptStatus.Expired in AttemptTransitions(db.attempts[x].status)
            && db'.attempts[x] == db.attempts[x].(status := AttemptStatus.Expired))
      && (forall x | 0 <= x < |db.attempts| && x != a && db.attempts[x].installment == k ::
        !IsActive(db'.attempts[x].status))
      && (forall j | j in db.installments && j != k :: db'.installments[j] == db.installments[j])
      && |db'.orders| == |db.orders|
      && (forall o | 0 <= o < |db.orders| && o != k.order :: db'.orders[o] == db.orders[o])
      && db'.confirmations.Keys == db.confirmations.Keys + {ConfirmationKey(a, s.recipient)}
      && (forall c | c in db.confirmations :: db'.confirmations[c] == db.confirmations[c])
      && db.requests <= db'.requests && |db'.requests| <= |db.requests| + 1 && db'.events == db.events
  {
    AppliedIff(db, a, s.payment);
    CreditClosesSiblings(db.attempts, a, s.payment);
    CreditPaysOnce(db, a, s);
  }

  /** What crediting a leaves of row x. */
  lemma CreditedRow(attempts: seq<Attempt>, a: AttemptId, payment: Option<string>, x: AttemptId)
    requires OneActive(attempts) && PaymentsFinal(attempts) && a < |attempts| && x < |attempts| && x != a
    requires Checkable(attempts[a].status) && !SucceededSibling(attempts, a)
    requires !(Present(payment) && PaymentTaken(attempts, a, payment))
    ensures var row := CreditedAttempt(attempts, a, payment, x);
      && row == attempts[x].(status := row.status)
      && (row.status.Succeeded? <==> attempts[x].status.Succeeded?)
      && (IsActive(row.status) ==> IsActive(attempts[x].status))
      && (row.installment == attempts[a].installment ==> !IsActive(row.status))
      && (row.payment.Some? ==> row.payment != CreditedAttempt(attempts, a, payment, a).payment)
  {
    assert attempts[a].payment.None?;
    if attempts[x].installment == attempts[a].installment {
      assert Siblings(attempts, a, x);
      assert x < a || a < x;
    }
    if attempts[x].payment.Some? && Present(payment) {
      assert attempts[x].payment != payment;
    }
  }

  lemma CreditedAttemptsOk(attempts: seq<Attempt>, a: AttemptId, payment: Option<string>)
    requires AttemptsOk(attempts) && a < |attempts|
    requires Checkable(attempts[a].status) && !SucceededSibling(attempts, a)
    requires !(Present(payment) && PaymentTaken(attempts, a, payment))
    ensures AttemptsOk(CreditedAttempts(attempts, a, payment))
  {
    var attempts' := CreditedAttempts(attempts, a, payment);
    forall x | 0 <= x < |attempts| && x != a
      ensures attempts'[x] == attempts[x].(status := attempts'[x].status)
      ensures attempts'[x].status.Succeeded? <==> attempts[x].status.Succeeded?
      ensures IsActive(attempts'[x].status) ==> IsActive(attempts[x].status)
      ensures attempts'[x].installment == attempts[a].installment ==> !IsActive(attempts'[x].status)
      ensures attempts'[x].payment.Some? ==> attempts'[x].payment != attempts'[a].payment
    {
      CreditedRow(attempts, a, payment, x);
    }
    assert attempts'[a] == CreditedAttempt(attempts, a, payment, a);
    ExceptOneOk(attempts, attempts', a);
  }

  /** The properties of pairs of attempts, when all rows but a behave as before. */
  lemma ExceptOneOk(attempts: seq<Attempt>, attempts': seq<Attempt>, a: AttemptId)
    requires AttemptsOk(attempts) && a < |attempts| == |attempts'|
    requires attempts'[a].product == attempts[a].product
    requires attempts'[a].installment == attempts[a].installment
    requires attempts'[a].payment.Some? ==> Present(attempts'[a].payment) && attempts'[a].status.Succeeded?
    requires forall x | 0 <= x < |attempts| && x != a ::
      && attempts'[x] == attempts[x].(status := attempts'[x].status)
      && (attempts'[x].status.Succeeded? <==> attempts[x].status.Succeeded?)
      && (IsActive(attempts'[x].status) ==> IsActive(attempts[x].status))
      && (attempts'[x].installment == attempts[a].installment ==> !IsActive(attempts'[x].status))
      && (attempts'[x].payment.Some? ==> attempts'[x].payment != attempts'[a].payment)
    ensures AttemptsOk(attempts')
  {
    assert OneActive(attempts');
    assert PaymentsFinal(attempts');
  }

  function PaidRow(db: Db, a: AttemptId, s: Receipt): Installment
    requires Linked(db) && a < |db.attempts|
  {
    InstallmentAfter(db.installments[db.attempts[a].installment], InstallmentStatus.Paid, s.amount)
  }

  lemma CreditedIs(db: Db, a: AttemptId, s: Receipt)
    requires Linked(db) && a < |db.attempts|
    ensures Credited(db, a, s) ==
      Settling(db.(attempts := CreditedAttempts(db.attempts, a, s.payment)), db.attempts[a].installment,
        PaidRow(db, a, s), s.today)
        .(confirmations := WithConfirmation(db.confirmations, a, s.recipient))
  {
  }

  lemma CreditedAttemptsGrow(db: Db, a: AttemptId, payment: Option<string>)
    requires AttemptsOk(db.attempts) && a < |db.attempts| && !db.attempts[a].status.Succeeded?
    ensures var attempts := CreditedAttempts(db.attempts, a, payment);
      Grows(db, db.(attempts := attempts)) && HasSucceeded(attempts, db.attempts[a].installment)
  {
    var attempts := CreditedAttempts(db.attempts, a, payment);
    forall x | 0 <= x < |db.attempts|
      ensures AttemptGrows(db.attempts[x], attempts[x])
    {
    }
    assert attempts[a].status.Succeeded?;
  }

  /** The attempts are credited before the installment is. */
  lemma StillBacked(db: Db, db': Db)
    requires PaidBacked(db.installments, db.attempts) && Grows(db, db')
    ensures PaidBacked(db.installments, db'.attempts)
  {
    forall k | k in db.installments && db.installments[k].status.Paid?
      ensures HasSucceeded(db'.attempts, k)
    {
      HasSucceededGrows(db, db', k);
    }
  }

  lemma CreditedAmountsOk(db: Db, a: AttemptId, payment: Option<string>)
    requires a < |db.attempts| && AttemptAmountsOk(db.attempts, db.installments)
    ensures AttemptAmountsOk(CreditedAttempts(db.attempts, a, payment), db.installments)
  {
  }

  lemma CreditedConfirmationsOk(db: Db, a: AttemptId, payment: Option<string>)
    requires a < |db.attempts| && ConfirmationsOk(db.confirmations, db.attempts) && AttemptsOk(db.attempts)
    requires !db.attempts[a].status.Succeeded?
    ensures ConfirmationsOk(db.confirmations, CreditedAttempts(db.attempts, a, payment))
  {
  }

  lemma HalfCredited(db: Db, a: AttemptId, payment: Option<string>)
    requires Inv(db) && a < |db.attempts| && SuccessOutcome(db, a, payment).Applied?
    ensures var db' := db.(attempts := CreditedAttempts(db.attempts, a, payment));
      Inv(db') && Grows(db, db') && HasSucceeded(db'.attempts, db.attempts[a].installment)
  {
    AppliedIff(db, a, payment);
    CreditedAttemptsOk(db.attempts, a, payment);
    CreditedAttemptsGrow(db, a, payment);
    CreditedAmountsOk(db, a, payment);
    CreditedConfirmationsOk(db, a, payment);
    StillBacked(db, db.(attempts := CreditedAttempts(db.attempts, a, payment)));
  }

  lemma PaidRowSettles(db: Db, a: AttemptId, s: Receipt)
    requires Inv(db) && a < |db.attempts|
    requires IsOpen(db.installments[db.attempts[a].installment].status)
    ensures Settles(db, db.attempts[a].installment, PaidRow(db, a, s))
  {
    var k := db.attempts[a].installment;
    assert AmountOk(db.installments[k], db.orders[k.order]);
  }

  /** The second half of a credit: the installment, its order and the follow-up work. */
  lemma SecondHalf(db: Db, a: AttemptId, row: Installment, s: Receipt)
    requires Inv(db) && a < |db.attempts| && db.attempts[a].status.Succeeded?
    requires Settles(db, db.attempts[a].installment, row)
    requires forall c | c in db.confirmations :: c.attempt != a
    ensures var db' := Settling(db, db.attempts[a].installment, row, s.today)
        .(confirmations := WithConfirmation(db.confirmations, a, s.recipient));
      Inv(db') && Grows(db, db')
  {
    var k := db.attempts[a].installment;
    SettlingKeeps(db, k, row, s.today);
    SettlingGrows(db, k, row, s.today);
    ConfirmationStep(Settling(db, k, row, s.today), db, a, s.recipient);
  }

  lemma AppliedKeeps(db: Db, a: AttemptId, s: Receipt)
    requires Inv(db) && a < |db.attempts| && SuccessOutcome(db, a, s.payment).Applied?
    ensures Inv(Credited(db, a, s)) && Grows(db, Credited(db, a, s))
  {
    AppliedIff(db, a, s.payment);
    CreditedIs(db, a, s);
    PaidRowSettles(db, a, s);
    HalfCredited(db, a, s.payment);
    var half := db.(attempts := CreditedAttempts(db.attempts, a, s.payment));
    assert half.attempts[a].status.Succeeded? && half.attempts[a].installment == db.attempts[a].installment;
    SecondHalf(half, a, PaidRow(db, a, s), s);
    GrowsTransitive(db, half, Credited(db, a, s));
  }

  lemma CreditKeeps(db: Db, a: AttemptId, s: Receipt)
    requires Inv(db) && a < |db.attempts|
    ensures Inv(AfterSuccess(db, a, s)) && Grows(db, AfterSuccess(db, a, s))
  {
    if SuccessOutcome(db, a, s.payment).Applied? {
      AppliedKeeps(db, a, s);
    } else {
      UnchangedIsQuiet(db);
    }
  }

  lemma SettlingGrows(db: Db, k: InstallmentKey, row: Installment, today: int)
    requires Settles(db, k, row)
    ensures var db' := Settling(db, k, row, today);
      Grows(db, db') && db'.confirmations == db.confirmations && db'.attempts == db.attempts
  {
  }

  lemma FirstConfirmation(confirmations: map<ConfirmationKey, Confirmation>, attempts: seq<Attempt>, a: AttemptId,
      recipient: string)
    requires ConfirmationsOk(confirmations, attempts) && a < |attempts| && attempts[a].status.Succeeded?
    requires forall c | c in confirmations :: c.attempt != a
    ensures ConfirmationsOk(WithConfirmation(confirmations, a, recipient), attempts)
  {
  }

  lemma OnlyConfirmations(earlier: Db, db: Db, confirmations: map<ConfirmationKey, Confirmation>)
    requires Grows(earlier, db)
    ensures Quiet(db, db.(confirmations := confirmations)) && Grows(earlier, db.(confirmations := confirmations))
  {
  }

  /** A SUCCEEDED attempt without a confirmation gets one. */
  lemma ConfirmationStep(db: Db, earlier: Db, a: AttemptId, recipient: string)
    requires Inv(db) && Grows(earlier, db) && db.confirmations == earlier.confirmations
    requires a < |db.attempts| && db.attempts[a].status.Succeeded?
    requires forall c | c in db.confirmations :: c.attempt != a
    ensures var db' := db.(confirmations := WithConfirmation(earlier.confirmations, a, recipient));
      Inv(db') && Quiet(db, db') && Grows(earlier, db')
  {
    FirstConfirmation(db.confirmations, db.attempts, a, recipient);
    OnlyConfirmations(earlier, db, WithConfirmation(earlier.confirmations, a, recipient));
  }
}
