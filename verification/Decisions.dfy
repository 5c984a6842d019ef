/** What staff decisions leave behind, row by row. */
module Decisions {
  import opened Models
  import opened Credit
  import opened FollowUps
  import opened Administration
  import opened Closing
  import opened Access
  import opened Webhooks
  import opened Checks
  import opened Checkout
  import opened Invariants
  import opened Preservation
  import opened CreditProofs
  import opened Composites
  import U = Suspension

  // ----- one installment -----

  /** Installment k ends with the target status and its open attempts EXPIRED; no other
      installment or attempt has changed. */
  ghost predicate ClosesOnly(db: Db, db': Db, k: InstallmentKey, target: InstallmentStatus)
    requires k in db.installments
  {
    && db'.installments == db.installments[k := db.installments[k].(status := target)]
    && |db'.attempts| == |db.attempts|
    && (forall a | 0 <= a < |db.attempts| :: db'.attempts[a] ==
          if db.attempts[a].installment == k && IsNonTerminal(db.attempts[a].status)
          then db.attempts[a].(status := AttemptStatus.Expired) else db.attempts[a])
    && db'.confirmations == db.confirmations && db'.events == db.events
  }

  /** cancel_installment goes through exactly for an open installment without a succeeded
      attempt.  When it does not, no installment, order or request changes, but the open attempts
      of a WAIVED installment are EXPIRED all the same. */
  lemma CancelInstallmentIsExact(db: Db, k: InstallmentKey)
    requires Inv(db) && k in db.installments
    ensures InstallmentDecision(db, k, InstallmentStatus.Cancelled).Done? <==>
      IsOpen(db.installments[k].status) && !HasSucceeded(db.attempts, k)
    ensures var db' := AfterCancelInstallment(db, k);
      db'.orders == db.orders && db'.requests == db.requests &&
      if InstallmentDecision(db, k, InstallmentStatus.Cancelled).Done?
      then ClosesOnly(db, db', k, InstallmentStatus.Cancelled)
      else if db.installments[k].status.Waived? && !HasSucceeded(db.attempts, k)
      then ClosesOnly(db, db', k, InstallmentStatus.Waived)
      else db' == db
  {
  }

  /** When a decision on one installment goes through, is done already, or is refused. */
  lemma DecidedIff(db: Db, k: InstallmentKey, target: InstallmentStatus)
    requires k in db.installments && target in {InstallmentStatus.Cancelled, InstallmentStatus.Waived}
    ensures var status := db.installments[k].status; var decision := InstallmentDecision(db, k, target);
      var succeeded := exists x | 0 <= x < |db.attempts| ::
        db.attempts[x].installment == k && db.attempts[x].status.Succeeded?;
      && (decision.AlreadyDone? <==> status == target)
      && (decision.Done? <==>
            !succeeded && status !in {InstallmentStatus.Paid, InstallmentStatus.Waived, InstallmentStatus.Cancelled})
  {
  }

  /** Some attempt of k is still open. */
  predicate HasOpen(attempts: seq<Attempt>, k: InstallmentKey) {
    exists x | 0 <= x < |attempts| :: attempts[x].installment == k && IsNonTerminal(attempts[x].status)
  }

  /** A refused cancellation or waiving leaves something behind if and only if it gets past the
      first refusals and finds an attempt still open. */
  lemma RefusalClosesIff(db: Db, k: InstallmentKey, target: InstallmentStatus)
    requires k in db.installments && !InstallmentDecision(db, k, target).Done?
    ensures AfterInstallmentClosed(db, k, target) != db <==>
      && db.installments[k].status != target && !db.installments[k].status.Paid?
      && !HasSucceeded(db.attempts, k) && HasOpen(db.attempts, k)
  {
    var attempts := ClosedAttempts(db.attempts, {k});
    if HasOpen(db.attempts, k) {
      var x :| 0 <= x < |db.attempts| && db.attempts[x].installment == k && IsNonTerminal(db.attempts[x].status);
      assert attempts[x] != db.attempts[x];
    } else {
      assert attempts == db.attempts;
    }
  }

  /** waive_installment goes through in the same cases.  The order is then COMPLETED exactly
      when everything is settled (unless CANCELLED or SUSPENDED), no other order changes, and
      a sale that gives access has its one request. */
  lemma WaiveIsExact(db: Db, k: InstallmentKey, today: int)
    requires Inv(db) && k in db.installments && InstallmentDecision(db, k, InstallmentStatus.Waived).Done?
    ensures IsOpen(db.installments[k].status) && !HasSucceeded(db.attempts, k)
    ensures var db' := AfterWaive(db, k, today); var order := db.orders[k.order];
      && ClosesOnly(db, db', k, InstallmentStatus.Waived)
      && |db'.orders| == |db.orders|
      && (forall o | 0 <= o < |db.orders| && o != k.order :: db'.orders[o] == db.orders[o])
      && (!order.status.Cancelled? && !order.status.Suspended? ==>
            (db'.orders[k.order].status.Completed? <==> AllSettled(db'.installments, k.order, order.count)))
      && (order.status.Cancelled? || order.status.Suspended? ==> db'.orders[k.order] == order)
      && (Eligible(db', k.order) ==> HasRequest(db'.requests, order.customer, order.course))
  {
    WaiveIs(db, k, today);
    assert Matches(db.orders[k.order].status, db.installments, k.order, db.orders[k.order].count);
    SettlingHere(db.installments, k, db.installments[k].(status := InstallmentStatus.Waived), db.orders[k.order].count);
    HasRequestGrows(db.requests, k.order, db.orders[k.order], db.orders[k.order].customer, db.orders[k.order].course);
  }

  // ----- attribution -----

  predicate PaymentUsed(attempts: seq<Attempt>, payment: Option<string>) {
    Present(payment) && exists x | 0 <= x < |attempts| :: attempts[x].payment == payment
  }

  lemma CarrierPayments(db: Db, d: Attribution)
    requires Inv(db) && d.event < |db.events| && d.key in db.installments && Carried(db, d)
    ensures var (a, carried) := Carrier(db, d); var payment := db.events[d.event].payment;
      && IsNonTerminal(carried.attempts[a].status) && carried.attempts[a].payment.None?
      && (Present(payment) && PaymentTaken(carried.attempts, a, payment) <==> PaymentUsed(db.attempts, payment))
  {
    var (a, carried) := Carrier(db, d);
    var payment := db.events[d.event].payment;
    assert carried.attempts[a].payment.None?;
    if PaymentUsed(db.attempts, payment) {
      var x :| 0 <= x < |db.attempts| && db.attempts[x].payment == payment;
      assert x != a && carried.attempts[x].payment == payment;
    }
  }

  lemma OpenExcludesSucceeded(attempts: seq<Attempt>, a: AttemptId)
    requires OneActive(attempts) && a < |attempts| && IsNonTerminal(attempts[a].status)
    ensures !HasSucceeded(attempts, attempts[a].installment)
  {
    forall x | 0 <= x < |attempts| && attempts[x].installment == attempts[a].installment
      ensures !attempts[x].status.Succeeded?
    {
      assert x < a || x == a || a < x;
    }
  }

  lemma CarriedIff(db: Db, d: Attribution)
    requires Inv(db) && d.event < |db.events| && d.key in db.installments
    ensures Carried(db, d) <==> Attributable(db, d) && !HasSucceeded(db.attempts, d.key)
  {
    var open := LatestOpen(db.attempts, d.key, |db.attempts|);
    if open.Some? {
      OpenExcludesSucceeded(db.attempts, open.value);
    } else if HasSucceeded(db.attempts, d.key) {
      var x :| 0 <= x < |db.attempts| && db.attempts[x].installment == d.key && db.attempts[x].status.Succeeded?;
      assert HasActive(db.attempts, d.key);
    }
  }

  lemma CarrierApplies(carried: Db, a: AttemptId, payment: Option<string>)
    requires Inv(carried) && a < |carried.attempts| && IsNonTerminal(carried.attempts[a].status)
    ensures SuccessOutcome(carried, a, payment).Applied? <==>
      && IsOpen(carried.installments[carried.attempts[a].installment].status)
      && !carried.attempts[a].status.Created?
      && !(Present(payment) && PaymentTaken(carried.attempts, a, payment))
  {
    ActiveIsUnpaid(carried, a);
    AppliedIff(carried, a, payment);
  }

  /** An attribution is credited if and only if the event is unmatched, the installment open,
      the amount enough, none of its attempts SUCCEEDED, its open attempt (if it has one) was
      sent to Tara, and the event's paymentId is nobody's. */
  lemma AttributionIff(db: Db, d: Attribution)
    requires Inv(db) && d.event < |db.events| && d.key in db.installments && FreshProduct(db, d.product)
    ensures var open := LatestOpen(db.attempts, d.key, |db.attempts|);
      AttributionCrediting(db, d).Some? <==>
        && db.events[d.event].processing.Uncorrelated? && IsOpen(db.installments[d.key].status)
        && d.amount >= db.installments[d.key].expected && !HasSucceeded(db.attempts, d.key)
        && (open.Some? ==> !db.attempts[open.value].status.Created?)
        && !PaymentUsed(db.attempts, db.events[d.event].payment)
  {
    CarriedIff(db, d);
    if Carried(db, d) {
      CarrierKeeps(db, d);
      CarrierPayments(db, d);
      var (a, carried) := Carrier(db, d);
      CarrierApplies(carried, a, db.events[d.event].payment);
    }
  }

  /** An attribution that credits nothing leaves something behind, a new PENDING attempt, if and
      only if it could be made, had to create its attempt, and met a paymentId in use. */
  lemma RefusedAttributionIff(db: Db, d: Attribution)
    requires Inv(db) && d.event < |db.events| && d.key in db.installments && FreshProduct(db, d.product)
    requires AttributionCrediting(db, d).None?
    ensures AfterAttribution(db, d) != db <==>
      && db.events[d.event].processing.Uncorrelated? && IsOpen(db.installments[d.key].status)
      && d.amount >= db.installments[d.key].expected && !HasActive(db.attempts, d.key)
      && PaymentUsed(db.attempts, db.events[d.event].payment)
    ensures AfterAttribution(db, d) != db ==>
      AfterAttribution(db, d) == db.(attempts := db.attempts +
        [NewAttempt(d.key, db.installments[d.key].expected, d.product, AttemptStatus.Pending)])
  {
    CarriedIff(db, d);
    if Carried(db, d) {
      CarrierKeeps(db, d);
      CarrierPayments(db, d);
      RefusedCarrier(db, d);
    }
  }

  /** What stops an attribution once it has its attempt: the paymentId, or an attempt that was
      never sent to Tara. */
  lemma RefusedCarrier(db: Db, d: Attribution)
    requires Linked(db) && d.event < |db.events| && d.key in db.installments && Carried(db, d)
    requires AttributionCrediting(db, d).None?
    requires var (a, carried) := Carrier(db, d);
      && IsNonTerminal(carried.attempts[a].status) && carried.attempts[a].payment.None?
    ensures var (a, carried) := Carrier(db, d); var payment := db.events[d.event].payment;
      && (carried == db || LatestOpen(db.attempts, d.key, |db.attempts|).None?)
      && (AfterAttribution(db, d) ==
            if Present(payment) && PaymentTaken(carried.attempts, a, payment) then carried else db)
      && (LatestOpen(db.attempts, d.key, |db.attempts|).None? ==>
        Present(payment) && PaymentTaken(carried.attempts, a, payment))
  {
  }

  lemma AttributedIs(db: Db, d: Attribution)
    requires Linked(db) && d.event < |db.events| && d.key in db.installments && AttributionCrediting(db, d).Some?
    ensures var (a, carried) := Carrier(db, d);
      && carried.installments == db.installments
      && AfterAttribution(db, d) == Credited(carried, a, AttributedReceipt(db, d)).(events :=
           db.events[d.event :=
             db.events[d.event].(processing := Processing.Processed, failure := NoFailure, attempt := Some(a))])
  {
  }

  /** It then credits the amount staff entered to that installment and marks the event, and
      no other, PROCESSED for the attempt credited. */
  lemma AttributionCredits(db: Db, d: Attribution)
    requires Linked(db) && d.event < |db.events| && d.key in db.installments && AttributionCrediting(db, d).Some?
    requires IsOpen(db.installments[d.key].status)
    ensures var db' := AfterAttribution(db, d); var a := Carrier(db, d).0;
      && d.key in db'.installments && db'.installments[d.key].status.Paid?
      && db'.installments[d.key].paid == Some(d.amount)
      && a < |db'.attempts| && db'.attempts[a].installment == d.key && db'.attempts[a].status.Succeeded?
      && |db'.events| == |db.events| && db'.events[d.event].processing.Processed?
      && db'.events[d.event].attempt == Some(a)
      && (forall e | 0 <= e < |db.events| && e != d.event :: db'.events[e] == db.events[e])
  {
    AttributedIs(db, d);
    var (a, carried) := Carrier(db, d);
    assert Credited(carried, a, AttributedReceipt(db, d)).attempts[a].status.Succeeded?;
  }

  // ----- freezing and restoring -----

  /** A freeze that is followed by a restore gives the order back its access and nothing else
      changes, but for PAST_DUE orders, which come back ACTIVE. */
  lemma FreezeThenRestore(db: Db, o: OrderId, answers: bool)
    requires o < |db.orders| && Switchable(db, o, true, answers)
    ensures var frozen := AfterSwitch(db, o, true, answers);
      && |frozen.orders| == |db.orders| && frozen.orders[o].status.Suspended?
      && frozen.orders[o].nonpayment == db.orders[o].nonpayment
      && (var r := OpenAccess(db, o).value;
          AfterSwitch(frozen, o, false, true) ==
            db.(requests := db.requests[r := db.requests[r].(access := Some(false))],
                orders := db.orders[o := db.orders[o].(status := OrderStatus.Active)]))
  {
    var r := OpenAccess(db, o).value;
    var frozen := AfterSwitch(db, o, true, answers);
    U.SameLatest(db.requests, frozen.requests, db.orders[o].customer, db.orders[o].course, |db.requests|);
    assert OpenAccess(frozen, o) == Some(r);
    var restored := AfterSwitch(frozen, o, false, true);
    assert restored.requests == db.requests[r := db.requests[r].(access := Some(false))];
    assert restored.orders == db.orders[o := db.orders[o].(status := OrderStatus.Active)];
  }

  // ----- notifications -----

  /** Once an attempt is SUCCEEDED and resolved, none of its reported successes is left to
      handle, and no other notification has changed. */
  lemma ResolutionLeavesNone(db: Db, a: AttemptId)
    requires a < |db.attempts| && db.attempts[a].status.Succeeded?
    ensures var db' := AfterResolution(db, a);
      && |db'.events| == |db.events|
      && (forall e | 0 <= e < |db.events| && db.events[e].product == Some(db.attempts[a].product)
        && db.events[e].reportsSuccess ::
            && db'.events[e].processing.Processed?
            && (db.events[e].processing.Processed? ==> db'.events[e] == db.events[e])
            && (!db.events[e].processing.Processed? ==> db'.events[e].attempt == Some(a)))
      && (forall e | 0 <= e < |db.events|
        && (db.events[e].product != Some(db.attempts[a].product) || !db.events[e].reportsSuccess) ::
            db'.events[e] == db.events[e])
  {
    var events := ResolvedEvents(db.events, db.attempts[a].product, a);
    assert forall e | 0 <= e < |db.events| :: events[e] == Resolved(db.events[e], db.attempts[a].product, a);
  }

  // ----- an order -----

  /** cancel_order goes through for every order but a COMPLETED one, and is done already for a
      CANCELLED one. */
  lemma CancelledIff(db: Db, o: OrderId)
    requires o < |db.orders|
    ensures var db' := AfterCancelOrder(db, o);
      && |db'.orders| == |db.orders|
      && (db'.orders[o].status.Cancelled? <==> !db.orders[o].status.Completed?)
      && (db.orders[o].status in {OrderStatus.Completed, OrderStatus.Cancelled} ==> db' == db)
  {
  }

  /** The access of a sale is open: the newest request in force for its customer and course has an
      enrollment. */
  predicate AccessIs(db: Db, o: OrderId, r: RequestId)
    requires o < |db.orders|
  {
    && r < |db.requests| && db.requests[r].access.Some? && !db.requests[r].status.Cancelled?
    && db.requests[r].contact == db.orders[o].customer && db.requests[r].course == db.orders[o].course
    && forall x | r < x < |db.requests| && !db.requests[x].status.Cancelled? ::
      db.requests[x].contact != db.orders[o].customer || db.requests[x].course != db.orders[o].course
  }

  /** Staff freeze an ACTIVE or PAST_DUE order with an open access, and restore a SUSPENDED one, if
      ClickFunnels answers or has nothing to change; then the access and the order follow. */
  lemma SwitchedIff(db: Db, o: OrderId, suspended: bool, answers: bool, r: RequestId)
    requires o < |db.orders| && AccessIs(db, o, r)
    ensures var db' := AfterSwitch(db, o, suspended, answers); var status := db.orders[o].status;
      var goes := (if suspended then status in {OrderStatus.Active, OrderStatus.PastDue} else status.Suspended?)
        && (answers || db.requests[r].access == Some(suspended));
      && (!goes ==> db' == db)
      && (goes ==> db' == db.(
            requests := db.requests[r := db.requests[r].(access := Some(suspended))],
            orders := db.orders[o := db.orders[o].(status :=
              if suspended then OrderStatus.Suspended else OrderStatus.Active)]))
  {
    var found := LatestRequest(db.requests, db.orders[o].customer, db.orders[o].course, |db.requests|);
    assert Serves(db.requests[r], db.orders[o].customer, db.orders[o].course);
    assert found == Some(r);
  }

  /** Without an open access nothing can be frozen or restored. */
  lemma UnopenedIsNotSwitched(db: Db, o: OrderId, suspended: bool, answers: bool)
    requires o < |db.orders| && forall r: RequestId :: !AccessIs(db, o, r)
    ensures AfterSwitch(db, o, suspended, answers) == db
  {
    var found := LatestRequest(db.requests, db.orders[o].customer, db.orders[o].course, |db.requests|);
    if found.Some? && db.requests[found.value].access.Some? {
      assert AccessIs(db, o, found.value);
    }
  }
}
