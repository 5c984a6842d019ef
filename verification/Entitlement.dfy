/** What holds for orders and their follow-up work after every run. */
module Entitlement {
  import opened Models
  import opened StateMachines
  import opened Credit
  import opened FollowUps
  import opened Invariants
  import opened Steps
  import P = Provisioning
  import R = Runs

  // ----- order status -----

  lemma MatchesMeans(status: OrderStatus, installments: map<InstallmentKey, Installment>, o: OrderId, count: nat)
    requires Matches(status, installments, o, count)
    ensures var anyPaid := AnyPaid(installments, o, count); var allSettled := AllSettled(installments, o, count);
      && (status.Completed? ==> allSettled)
      && (status.Pending? || status.Expired? ==> !anyPaid && !allSettled)
      && (status.Active? || status.PastDue? || status.Suspended? ==> anyPaid)
      && (status.Cancelled? ==> NoneOpen(installments, o, count))
  {
  }

  /** After every run: COMPLETED means all settled, PENDING and EXPIRED that nothing was paid
      and something is still open, CANCELLED that nothing is open, and any other status that
      some installment was paid. */
  lemma StatusAgrees(db: Db, steps: seq<Step>)
    requires Inv(db)
    ensures var db' := R.Run(db, steps);
      forall o | 0 <= o < |db'.orders| ::
        var status := db'.orders[o].status; var count := db'.orders[o].count;
        && (status.Completed? ==> AllSettled(db'.installments, o, count))
        && (status.Pending? || status.Expired? ==>
          !AnyPaid(db'.installments, o, count) && !AllSettled(db'.installments, o, count))
        && (status.Active? || status.PastDue? || status.Suspended? ==> AnyPaid(db'.installments, o, count))
        && (status.Cancelled? ==> NoneOpen(db'.installments, o, count))
  {
    var db' := R.Run(db, steps);
    forall o | 0 <= o < |db'.orders|
      ensures Matches(db'.orders[o].status, db'.installments, o, db'.orders[o].count)
    {
    }
  }

  /** A recomputation goes along the transition table, through ACTIVE if need be, and ends in
      COMPLETED exactly when everything is settled, but for orders that are CANCELLED or
      SUSPENDED (or COMPLETED already). */
  lemma RecomputationIsLegal(
    status: OrderStatus, installments: map<InstallmentKey, Installment>, o: OrderId, count: nat, today: int)
    ensures var r := Recomputed(status, installments, o, count, today);
      && (r == status || r in OrderTransitions(status)
          || (OrderStatus.Active in OrderTransitions(status) && r in OrderTransitions(OrderStatus.Active)))
      && (!status.Cancelled? && !status.Suspended? && !status.Completed? ==>
        (r.Completed? <==> AllSettled(installments, o, count)))
      && (status.Cancelled? || status.Suspended? || status.Completed? ==> r == status)
  {
  }

  // ----- access -----

  /** Once a sale gives access it always does, and there is then exactly one request in force
      for its customer and course. */
  lemma EligibleForEver(db: Db, steps: seq<Step>, o: OrderId) returns (r: RequestId)
    requires Inv(db) && o < |db.orders| && Eligible(db, o)
    ensures var db' := R.Run(db, steps);
      && o < |db'.orders| && Eligible(db', o)
      && r < |db'.requests| && Serves(db'.requests[r], db.orders[o].customer, db.orders[o].course)
      && forall x | 0 <= x < |db'.requests| && Serves(db'.requests[x], db.orders[o].customer, db.orders[o].course) ::
        x == r
  {
    R.RunGrows(db, steps);
    var db' := R.Run(db, steps);
    EligibilityIsMonotone(db, db', o);
    assert SameTerms(db.orders[o], db'.orders[o]);
    r := TheRequest(db', o);
  }

  lemma TheRequest(db: Db, o: OrderId) returns (r: RequestId)
    requires Inv(db) && o < |db.orders| && Eligible(db, o)
    ensures r < |db.requests| && Serves(db.requests[r], db.orders[o].customer, db.orders[o].course)
    ensures forall x | 0 <= x < |db.requests| && Serves(db.requests[x], db.orders[o].customer, db.orders[o].course) ::
      x == r
  {
    assert HasRequest(db.requests, db.orders[o].customer, db.orders[o].course);
    r :| 0 <= r < |db.requests| && Serves(db.requests[r], db.orders[o].customer, db.orders[o].course);
    forall x | 0 <= x < |db.requests| && Serves(db.requests[x], db.orders[o].customer, db.orders[o].course)
      ensures x == r
    {
      assert !(x < r) && !(r < x);
    }
  }

  /** Two sales of one course to one customer share the request. */
  lemma RequestIsShared(db: Db, steps: seq<Step>)
    requires Inv(db)
    ensures var db' := R.Run(db, steps);
      forall r, q | 0 <= r < |db'.requests| && 0 <= q < |db'.requests|
        && db'.requests[r].contact == db'.requests[q].contact && db'.requests[r].course == db'.requests[q].course
        && !db'.requests[r].status.Cancelled? && !db'.requests[q].status.Cancelled? :: r == q
  {
    var db' := R.Run(db, steps);
    forall r, q | 0 <= r < |db'.requests| && 0 <= q < |db'.requests|
        && db'.requests[r].contact == db'.requests[q].contact && db'.requests[r].course == db'.requests[q].course
        && !db'.requests[r].status.Cancelled? && !db'.requests[q].status.Cancelled?
      ensures r == q
    {
      assert !(r < q) && !(q < r);
    }
  }

  /** The order behind any request is eligible: a staff retry is never refused for that. */
  lemma RetryFindsEligible(db: Db, steps: seq<Step>)
    requires Inv(db)
    ensures var db' := R.Run(db, steps);
      forall r | 0 <= r < |db'.requests| :: var row := db'.requests[r];
        && row.order < |db'.orders| && Eligible(db', row.order)
        && (P.Retriable(row, Eligible(db', row.order)) <==> row.status.Failed? || row.status.ManualReview?)
  {
    var db' := R.Run(db, steps);
    forall r | 0 <= r < |db'.requests|
      ensures Justified(db'.requests[r], db'.orders, db'.installments)
    {
    }
  }

  /** Each attempt has at most one confirmation, and only SUCCEEDED attempts have one. */
  lemma ConfirmedOnce(db: Db, steps: seq<Step>)
    requires Inv(db)
    ensures var db' := R.Run(db, steps);
      && (forall c, d | c in db'.confirmations && d in db'.confirmations && c.attempt == d.attempt :: c == d)
      && (forall c | c in db'.confirmations :: c.attempt < |db'.attempts| && db'.attempts[c.attempt].status.Succeeded?)
  {
    assert ConfirmationsOk(R.Run(db, steps).confirmations, R.Run(db, steps).attempts);
  }

  // ----- verified payments stand -----

  /** Once credited, a payment is out of reach of every later step: its order is never EXPIRED
      or PENDING again and its installment never counts as late or overdue. */
  lemma CreditStands(db: Db, db': Db, a: AttemptId)
    requires Inv(db) && Inv(db') && Grows(db, db') && a < |db.attempts| && db.attempts[a].status.Succeeded?
    requires db.installments[db.attempts[a].installment].status.Paid?
    ensures a < |db'.attempts| && db'.attempts[a].status.Succeeded?
    ensures var k := db.attempts[a].installment;
      && k in db'.installments && db'.installments[k] == db.installments[k]
      && k.order < |db'.orders| && !db'.orders[k.order].status.Expired? && !db'.orders[k.order].status.Pending?
  {
    var k := db.attempts[a].installment;
    assert AttemptGrows(db.attempts[a], db'.attempts[a]);
    assert InstallmentGrows(db.installments[k], db'.installments[k]);
    assert k == InstallmentKey(k.order, k.sequence);
    assert AnyPaid(db'.installments, k.order, db'.orders[k.order].count);
    MatchesMeans(db'.orders[k.order].status, db'.installments, k.order, db'.orders[k.order].count);
  }

  lemma VerifiedPaymentStands(db: Db, a: AttemptId, steps: seq<Step>)
    requires Inv(db) && a < |db.attempts| && db.attempts[a].status.Succeeded?
    requires db.installments[db.attempts[a].installment].status.Paid?
    ensures var db' := R.Run(db, steps); var k := db.attempts[a].installment;
      && a < |db'.attempts| && db'.attempts[a].status.Succeeded?
      && k in db'.installments && db'.installments[k] == db.installments[k] && !IsOpen(db'.installments[k].status)
      && k.order < |db'.orders| && !db'.orders[k.order].status.Expired? && !db'.orders[k.order].status.Pending?
  {
    R.RunGrows(db, steps);
    CreditStands(db, R.Run(db, steps), a);
  }
}
