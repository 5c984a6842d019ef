/** What holds at every transaction boundary, and the relation between the databases before
    and after any transaction that credits nothing. */
module Invariants {
  import opened Models
  import opened FollowUps
  import opened Administration

  // ----- attempts -----

  ghost predicate OneActive(attempts: seq<Attempt>) {
    forall x, y | 0 <= x < y < |attempts| ::
      attempts[x].installment == attempts[y].installment ==>
        !(IsActive(attempts[x].status) && IsActive(attempts[y].status))
  }

  /** Every PAID installment has its SUCCEEDED attempt. */
  ghost predicate PaidBacked(installments: map<InstallmentKey, Installment>, attempts: seq<Attempt>) {
    forall k | k in installments && installments[k].status.Paid? :: HasSucceeded(attempts, k)
  }

  /** Every SUCCEEDED attempt has paid its installment: kept by all steps but the checkout recheck. */
  ghost predicate SucceededPaid(installments: map<InstallmentKey, Installment>, attempts: seq<Attempt>) {
    forall a | 0 <= a < |attempts| && attempts[a].status.Succeeded? ::
      attempts[a].installment in installments && installments[attempts[a].installment].status.Paid?
  }

  /** Only a SUCCEEDED attempt holds a paymentId, and no two hold the same. */
  ghost predicate PaymentsFinal(attempts: seq<Attempt>) {
    && (forall a | 0 <= a < |attempts| && attempts[a].payment.Some? ::
      Present(attempts[a].payment) && attempts[a].status.Succeeded?)
    && (forall x, y | 0 <= x < y < |attempts| && attempts[x].payment.Some? ::
      attempts[x].payment != attempts[y].payment)
  }

  ghost predicate ProductsDistinct(attempts: seq<Attempt>) {
    forall x, y | 0 <= x < y < |attempts| :: attempts[x].product != attempts[y].product
  }

  // ----- money -----

  ghost predicate AmountOk(row: Installment, order: Order) {
    && row.expected == order.amount
    && (row.paid.Some? <==> row.status.Paid?)
  }

  ghost predicate AmountsOk(orders: seq<Order>, installments: map<InstallmentKey, Installment>) {
    && (forall o | 0 <= o < |orders| :: orders[o].amount > 0 && orders[o].total == orders[o].amount * orders[o].count)
    && (forall k | k in installments :: k.order < |orders| && AmountOk(installments[k], orders[k.order]))
  }

  ghost predicate AttemptAmountsOk(attempts: seq<Attempt>, installments: map<InstallmentKey, Installment>) {
    forall a | 0 <= a < |attempts| ::
      attempts[a].installment in installments && attempts[a].expected == installments[attempts[a].installment].expected
  }

  // ----- orders -----

  predicate NoneOpen(installments: map<InstallmentKey, Installment>, o: OrderId, count: nat) {
    forall s: nat | 1 <= s <= count ::
      InstallmentKey(o, s) in installments ==> !IsOpen(installments[InstallmentKey(o, s)].status)
  }

  /** The order's status agrees with its installments. */
  ghost predicate Matches(status: OrderStatus, installments: map<InstallmentKey, Installment>, o: OrderId, count: nat) {
    match status
    case Completed => AllSettled(installments, o, count)
    case Cancelled => NoneOpen(installments, o, count)
    case Pending => !AnyPaid(installments, o, count) && !AllSettled(installments, o, count)
    case Expired => !AnyPaid(installments, o, count) && !AllSettled(installments, o, count)
    case _ => AnyPaid(installments, o, count)
  }

  ghost predicate OrdersMatch(orders: seq<Order>, installments: map<InstallmentKey, Installment>) {
    forall o | 0 <= o < |orders| :: Matches(orders[o].status, installments, o, orders[o].count)
  }

  // ----- follow-up work -----

  /** At most one confirmation per attempt, and only for SUCCEEDED ones. */
  ghost predicate ConfirmationsOk(confirmations: map<ConfirmationKey, Confirmation>, attempts: seq<Attempt>) {
    && (forall c | c in confirmations :: c.attempt < |attempts| && attempts[c.attempt].status.Succeeded?)
    && (forall c, d | c in confirmations && d in confirmations && c.attempt == d.attempt :: c == d)
  }

  ghost predicate RequestsDistinct(requests: seq<Request>) {
    forall x, y | 0 <= x < y < |requests| && !requests[x].status.Cancelled? && !requests[y].status.Cancelled? ::
      requests[x].contact != requests[y].contact || requests[x].course != requests[y].course
  }

  /** Every request stems from an eligible sale to that very customer. */
  ghost predicate Justified(q: Request, orders: seq<Order>, installments: map<InstallmentKey, Installment>) {
    && q.order < |orders| && Grants(orders[q.order], installments, q.order)
    && q.contact == orders[q.order].customer && q.course == orders[q.order].course
  }

  ghost predicate RequestsJustified(
    requests: seq<Request>, orders: seq<Order>, installments: map<InstallmentKey, Installment>)
  {
    forall r | 0 <= r < |requests| :: Justified(requests[r], orders, installments)
  }

  ghost predicate EligibleServed(requests: seq<Request>, orders: seq<Order>,
      installments: map<InstallmentKey, Installment>)
  {
    forall o | 0 <= o < |orders| && Grants(orders[o], installments, o) ::
      HasRequest(requests, orders[o].customer, orders[o].course)
  }

  ghost predicate AttemptsOk(attempts: seq<Attempt>) {
    OneActive(attempts) && PaymentsFinal(attempts) && ProductsDistinct(attempts)
  }

  ghost predicate RequestsOk(requests: seq<Request>, orders: seq<Order>,
      installments: map<InstallmentKey, Installment>)
  {
    && RequestsDistinct(requests)
    && RequestsJustified(requests, orders, installments)
    && EligibleServed(requests, orders, installments)
  }

  ghost predicate Inv(db: Db) {
    && Linked(db)
    && AttemptsOk(db.attempts)
    && AttemptAmountsOk(db.attempts, db.installments)
    && PaidBacked(db.installments, db.attempts)
    && AmountsOk(db.orders, db.installments)
    && OrdersMatch(db.orders, db.installments)
    && ConfirmationsOk(db.confirmations, db.attempts)
    && RequestsOk(db.requests, db.orders, db.installments)
  }

  // ----- what every step keeps -----

  ghost predicate SameTerms(row: Order, row': Order) {
    row' == row.(status := row'.status, nonpayment := row'.nonpayment)
  }

  /** A terminal installment never changes; an open one keeps its terms. */
  ghost predicate InstallmentGrows(row: Installment, row': Installment) {
    row' == row || (IsOpen(row.status) && row'.expected == row.expected && row'.due == row.due)
  }

  /** An attempt keeps its identity; SUCCEEDED is final, with its paymentId. */
  ghost predicate AttemptGrows(row: Attempt, row': Attempt) {
    && row'.installment == row.installment && row'.product == row.product && row'.expected == row.expected
    && (row.status.Succeeded? ==> row'.status.Succeeded? && row'.payment == row.payment)
  }

  ghost predicate RequestGrows(row: Request, row': Request) {
    && row'.order == row.order && row'.contact == row.contact && row'.course == row.course
    && (row.status.Cancelled? <==> row'.status.Cancelled?)
    && (row.access.Some? ==> row'.access.Some?)
  }

  ghost predicate Grows(db: Db, db': Db) {
    && |db.orders| <= |db'.orders| && |db.attempts| <= |db'.attempts| && |db.requests| <= |db'.requests|
    && db.installments.Keys <= db'.installments.Keys
    && (forall o | 0 <= o < |db.orders| :: SameTerms(db.orders[o], db'.orders[o]))
    && (forall k | k in db.installments :: InstallmentGrows(db.installments[k], db'.installments[k]))
    && (forall a | 0 <= a < |db.attempts| :: AttemptGrows(db.attempts[a], db'.attempts[a]))
    && (forall r | 0 <= r < |db.requests| :: RequestGrows(db.requests[r], db'.requests[r]))
  }

  lemma GrowsTransitive(db0: Db, db1: Db, db2: Db)
    requires Grows(db0, db1) && Grows(db1, db2)
    ensures Grows(db0, db2)
  {
    forall k | k in db0.installments
      ensures InstallmentGrows(db0.installments[k], db2.installments[k])
    {
      assert k in db1.installments;
    }
  }

  /** Access eligibility is never revoked. */
  lemma EligibilityIsMonotone(db: Db, db': Db, o: OrderId)
    requires Linked(db) && Grows(db, db') && o < |db.orders| && Eligible(db, o)
    ensures Eligible(db', o)
  {
    var count := db.orders[o].count;
    assert SameTerms(db.orders[o], db'.orders[o]);
    forall s: nat | 1 <= s <= count
      ensures var k := InstallmentKey(o, s);
        k in db.installments && k in db'.installments && InstallmentGrows(db.installments[k], db'.installments[k])
    {
    }
  }

  /** A transaction that credits nothing: no installment becomes PAID, no attempt SUCCEEDED. */
  ghost predicate Quiet(db: Db, db': Db) {
    && Grows(db, db')
    && (forall k | k in db.installments && db.installments[k] != db'.installments[k] ::
          !db'.installments[k].status.Paid? && db'.installments[k].paid == db.installments[k].paid)
    && (forall a | 0 <= a < |db.attempts| ::
          db'.attempts[a].payment == db.attempts[a].payment
          && (db'.attempts[a].status.Succeeded? ==> db.attempts[a].status.Succeeded?))
    && (forall a | |db.attempts| <= a < |db'.attempts| ::
      db'.attempts[a].payment.None? && !db'.attempts[a].status.Succeeded?)
    && (forall k | k in db'.installments && k !in db.installments :: !db'.installments[k].status.Paid?)
  }

  lemma HasSucceededGrows(db: Db, db': Db, k: InstallmentKey)
    requires Grows(db, db') && HasSucceeded(db.attempts, k)
    ensures HasSucceeded(db'.attempts, k)
  {
    var x :| 0 <= x < |db.attempts| && db.attempts[x].installment == k && db.attempts[x].status.Succeeded?;
    assert AttemptGrows(db.attempts[x], db'.attempts[x]);
  }

  /** Quiet steps keep the links between PAID, SUCCEEDED and paymentIds. */
  lemma QuietKeepsCredit(db: Db, db': Db)
    requires Quiet(db, db') && PaidBacked(db.installments, db.attempts) && PaymentsFinal(db.attempts)
    ensures PaidBacked(db'.installments, db'.attempts) && PaymentsFinal(db'.attempts)
    ensures SucceededPaid(db.installments, db.attempts) ==> SucceededPaid(db'.installments, db'.attempts)
  {
    forall k | k in db'.installments && db'.installments[k].status.Paid?
      ensures HasSucceeded(db'.attempts, k)
    {
      assert k in db.installments && db.installments[k] == db'.installments[k];
      HasSucceededGrows(db, db', k);
    }
    forall a | 0 <= a < |db'.attempts| && db'.attempts[a].payment.Some?
      ensures Present(db'.attempts[a].payment) && db'.attempts[a].status.Succeeded?
    {
      assert a < |db.attempts| && AttemptGrows(db.attempts[a], db'.attempts[a]);
    }
    if SucceededPaid(db.installments, db.attempts) {
      forall a | 0 <= a < |db'.attempts| && db'.attempts[a].status.Succeeded?
        ensures db'.attempts[a].installment in db'.installments
        ensures db'.installments[db'.attempts[a].installment].status.Paid?
      {
        assert a < |db.attempts| && AttemptGrows(db.attempts[a], db'.attempts[a]);
        var k := db.attempts[a].installment;
        assert InstallmentGrows(db.installments[k], db'.installments[k]);
      }
    }
  }
}
