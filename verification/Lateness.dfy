/** Expiring an unpaid order loses no payment: a success verified afterwards ends where it
    would have ended without the expiry. */
module Lateness {
  import opened Models
  import opened StateMachines
  import opened Credit
  import opened Expiry
  import opened Invariants
  import opened Preservation
  import opened CreditProofs

  /** Two databases agree on everything but the attempts of other installments. */
  ghost predicate AgreeOn(k: InstallmentKey, db: Db, db': Db) {
    && db'.orders == db.orders && db'.installments == db.installments && db'.confirmations == db.confirmations
    && db'.requests == db.requests && db'.events == db.events && |db'.attempts| == |db.attempts|
    && forall x | 0 <= x < |db.attempts| && db.attempts[x].installment == k :: db'.attempts[x] == db.attempts[x]
  }

  lemma ExpiredRow(db: Db, o: OrderId, x: AttemptId)
    requires Linked(db) && o < |db.orders| && Expirable(db, o) && x < |db.attempts|
    ensures AfterExpiry(db, o).attempts[x] ==
      if db.attempts[x].installment.order == o && (db.attempts[x].status.Created? || db.attempts[x].status.LinkCreated?)
      then db.attempts[x].(status := AttemptStatus.Expired) else db.attempts[x]
  {
    var k := db.attempts[x].installment;
    assert k in db.installments && k == InstallmentKey(k.order, k.sequence);
    assert k in KeysOf(o, db.orders[o].count) <==> k.order == o;
  }

  /** Nobody can have paid on the order: each of its attempts is CREATED, LINK_CREATED, FAILED or
      EXPIRED. */
  predicate NeverPaidOn(attempts: seq<Attempt>, o: OrderId) {
    forall a | 0 <= a < |attempts| && attempts[a].installment.order == o ::
      attempts[a].status in
        {AttemptStatus.Created, AttemptStatus.LinkCreated, AttemptStatus.Failed, AttemptStatus.Expired}
  }

  lemma ExpirableIff(db: Db, o: OrderId)
    requires o < |db.orders|
    ensures Expirable(db, o) <==> db.orders[o].status.Pending? && NeverPaidOn(db.attempts, o)
  {
    if AnyMightBePaid(db.attempts, o) {
      var a :| 0 <= a < |db.attempts| && db.attempts[a].installment.order == o && MightBePaid(db.attempts[a].status);
      assert !NeverPaidOn(db.attempts, o);
    }
  }

  /** When an order expires: exactly when it is PENDING and nobody can have paid on it.  Then its
      open attempts are EXPIRED with it and nothing else changes; otherwise nothing does. */
  lemma ExpiredIff(db: Db, o: OrderId)
    requires Linked(db) && o < |db.orders|
    ensures var db' := AfterExpiry(db, o); var abandoned := db.orders[o].status.Pending? && NeverPaidOn(db.attempts, o);
      && |db'.orders| == |db.orders| && |db'.attempts| == |db.attempts|
      && (db'.orders[o].status.Expired? <==> abandoned || db.orders[o].status.Expired?)
      && (!abandoned ==> db' == db)
      && (abandoned ==>
            && db' == db.(orders := db.orders[o := db.orders[o].(status := OrderStatus.Expired)],
                          attempts := db'.attempts)
            && forall x | 0 <= x < |db.attempts| :: db'.attempts[x] ==
                 if db.attempts[x].installment.order == o
                   && db.attempts[x].status in {AttemptStatus.Created, AttemptStatus.LinkCreated}
                 then db.attempts[x].(status := AttemptStatus.Expired) else db.attempts[x])
  {
    ExpirableIff(db, o);
    if Expirable(db, o) {
      forall x | 0 <= x < |db.attempts|
        ensures AfterExpiry(db, o).attempts[x] ==
          if db.attempts[x].installment.order == o
            && (db.attempts[x].status.Created? || db.attempts[x].status.LinkCreated?)
          then db.attempts[x].(status := AttemptStatus.Expired) else db.attempts[x]
      {
        ExpiredRow(db, o, x);
      }
    }
  }

  lemma ExpiryKeepsUnpaid(db: Db, o: OrderId, a: AttemptId)
    requires Inv(db) && o < |db.orders| && Expirable(db, o)
    requires a < |db.attempts| && db.attempts[a].installment.order == o
    ensures !SucceededSibling(db.attempts, a) && !SucceededSibling(AfterExpiry(db, o).attempts, a)
  {
    var expired := AfterExpiry(db, o);
    forall x | 0 <= x < |db.attempts|
      ensures Siblings(db.attempts, a, x) ==>
        !db.attempts[x].status.Succeeded? && !expired.attempts[x].status.Succeeded?
      ensures expired.attempts[x].installment == db.attempts[x].installment
    {
      ExpiredRow(db, o, x);
      assert db.attempts[x].installment.order == o ==> !MightBePaid(db.attempts[x].status);
    }
  }

  lemma ExpiryKeepsPayments(db: Db, o: OrderId, a: AttemptId, payment: Option<string>)
    requires Linked(db) && o < |db.orders| && Expirable(db, o) && a < |db.attempts|
    ensures PaymentTaken(AfterExpiry(db, o).attempts, a, payment) <==> PaymentTaken(db.attempts, a, payment)
  {
    var expired := AfterExpiry(db, o);
    forall x | 0 <= x < |db.attempts|
      ensures expired.attempts[x].payment == db.attempts[x].payment
    {
      ExpiredRow(db, o, x);
    }
    if PaymentTaken(db.attempts, a, payment) {
      var x :| 0 <= x < |db.attempts| && x != a && db.attempts[x].payment == payment;
      assert expired.attempts[x].payment == payment;
    }
    if PaymentTaken(expired.attempts, a, payment) {
      var x :| 0 <= x < |db.attempts| && x != a && expired.attempts[x].payment == payment;
      assert db.attempts[x].payment == payment;
    }
  }

  lemma ExpiryKeepsSiblings(db: Db, o: OrderId, a: AttemptId, payment: Option<string>)
    requires Inv(db) && o < |db.orders| && Expirable(db, o)
    requires a < |db.attempts| && db.attempts[a].installment.order == o
    ensures !SucceededSibling(db.attempts, a) && !SucceededSibling(AfterExpiry(db, o).attempts, a)
    ensures PaymentTaken(AfterExpiry(db, o).attempts, a, payment) <==> PaymentTaken(db.attempts, a, payment)
  {
    ExpiryKeepsUnpaid(db, o, a);
    ExpiryKeepsPayments(db, o, a, payment);
  }

  /** A success verified after the expiry is applied exactly when it would have been applied
      without it, but for one case: on a CREATED attempt only the expiry makes it legal. */
  lemma ExpiryDecidesOnlyCreated(db: Db, o: OrderId, a: AttemptId, payment: Option<string>)
    requires Inv(db) && o < |db.orders| && Expirable(db, o)
    requires a < |db.attempts| && db.attempts[a].installment.order == o
    ensures var k := db.attempts[a].installment;
      SuccessOutcome(AfterExpiry(db, o), a, payment).Applied? <==>
        || SuccessOutcome(db, a, payment).Applied?
        || (db.attempts[a].status.Created? && IsOpen(db.installments[k].status)
            && !(Present(payment) && PaymentTaken(db.attempts, a, payment)))
  {
    ExpiryKeeps(db, o);
    ExpiryKeepsSiblings(db, o, a, payment);
    ExpiredRow(db, o, a);
    assert !MightBePaid(db.attempts[a].status);
    AppliedIff(db, a, payment);
    AppliedIff(AfterExpiry(db, o), a, payment);
  }

  /** The attempts of the credited installment end alike with and without the expiry. */
  lemma CreditedAfterExpiry(db: Db, o: OrderId, a: AttemptId, payment: Option<string>, x: AttemptId)
    requires Inv(db) && o < |db.orders| && Expirable(db, o)
    requires a < |db.attempts| && db.attempts[a].installment.order == o && !db.attempts[a].status.Created?
    requires x < |db.attempts| && db.attempts[x].installment == db.attempts[a].installment
    ensures CreditedAttempt(AfterExpiry(db, o).attempts, a, payment, x) == CreditedAttempt(db.attempts, a, payment, x)
  {
    ExpiredRow(db, o, a);
    ExpiredRow(db, o, x);
    assert !MightBePaid(db.attempts[a].status) && !MightBePaid(db.attempts[x].status);
    assert x < a || x == a || a < x;
  }

  lemma PaidIsAnyPaid(installments: map<InstallmentKey, Installment>, k: InstallmentKey, count: nat)
    requires k in installments && installments[k].status.Paid? && 1 <= k.sequence <= count
    ensures AnyPaid(installments, k.order, count)
  {
    assert k == InstallmentKey(k.order, k.sequence);
  }

  lemma CreditedOrders(db: Db, o: OrderId, a: AttemptId, s: Receipt)
    requires Linked(db) && o < |db.orders| && Expirable(db, o) && Linked(AfterExpiry(db, o))
    requires a < |db.attempts| && db.attempts[a].installment.order == o
    requires IsOpen(db.installments[db.attempts[a].installment].status)
    ensures var expired := Credited(AfterExpiry(db, o), a, s); var straight := Credited(db, a, s);
      && expired.orders == straight.orders && expired.installments == straight.installments
      && expired.confirmations == straight.confirmations && expired.requests == straight.requests
      && expired.events == straight.events
  {
    var k := db.attempts[a].installment;
    ExpiredRow(db, o, a);
    var expired := AfterExpiry(db, o);
    var paid := db.installments[k := InstallmentAfter(db.installments[k], InstallmentStatus.Paid, s.amount)];
    PaidIsAnyPaid(paid, k, db.orders[o].count);
    assert expired.orders[o := db.orders[o]] == db.orders;
    assert Credited(expired, a, s).installments == paid && Credited(db, a, s).installments == paid;
    assert Credited(expired, a, s).orders == Credited(db, a, s).orders;
  }

  /** Expire-then-success and success alone agree on the order, on every installment, on the
      follow-up work and on every attempt of the credited installment. */
  lemma ExpiryLosesNothing(db: Db, o: OrderId, a: AttemptId, s: Receipt)
    requires Inv(db) && o < |db.orders| && Expirable(db, o)
    requires a < |db.attempts| && db.attempts[a].installment.order == o && !db.attempts[a].status.Created?
    ensures SuccessOutcome(AfterExpiry(db, o), a, s.payment).Applied? <==> SuccessOutcome(db, a, s.payment).Applied?
    ensures SuccessOutcome(db, a, s.payment).Applied? ==>
      Linked(AfterExpiry(db, o)) &&
      AgreeOn(db.attempts[a].installment, AfterSuccess(db, a, s), AfterSuccess(AfterExpiry(db, o), a, s))
  {
    ExpiryDecidesOnlyCreated(db, o, a, s.payment);
    if SuccessOutcome(db, a, s.payment).Applied? {
      ExpiryKeeps(db, o);
      AppliedIff(db, a, s.payment);
      CreditedOrders(db, o, a, s);
      var expired := AfterExpiry(db, o);
      forall x | 0 <= x < |db.attempts| && db.attempts[x].installment == db.attempts[a].installment
        ensures CreditedAttempt(expired.attempts, a, s.payment, x) == CreditedAttempt(db.attempts, a, s.payment, x)
      {
        CreditedAfterExpiry(db, o, a, s.payment, x);
      }
      CreditedTogether(db, expired, a, s);
    }
  }

  lemma CreditedTogether(db: Db, expired: Db, a: AttemptId, s: Receipt)
    requires Linked(db) && Linked(expired) && a < |db.attempts| == |expired.attempts|
    requires var db1 := Credited(db, a, s); var db2 := Credited(expired, a, s);
      && db2.orders == db1.orders && db2.installments == db1.installments && db2.confirmations == db1.confirmations
      && db2.requests == db1.requests && db2.events == db1.events
    requires forall x | 0 <= x < |db.attempts| && db.attempts[x].installment == db.attempts[a].installment ::
      CreditedAttempt(expired.attempts, a, s.payment, x) == CreditedAttempt(db.attempts, a, s.payment, x)
    ensures AgreeOn(db.attempts[a].installment, Credited(db, a, s), Credited(expired, a, s))
  {
    assert Credited(db, a, s).attempts == CreditedAttempts(db.attempts, a, s.payment);
    assert Credited(expired, a, s).attempts == CreditedAttempts(expired.attempts, a, s.payment);
  }
}
