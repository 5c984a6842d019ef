/** Every suspended order has an open access behind it, and what a call has checked before it
    asks ClickFunnels still holds when it commits. */
module Enrollments {
  import opened Models
  import opened Credit
  import opened FollowUps
  import opened Access
  import opened Collection
  import opened Verification
  import opened Webhooks
  import opened Checks
  import opened Invariants
  import opened Preservation
  import opened Composites
  import opened Steps
  import opened Suspension
  import F = Effects
  import R = Runs

  // ----- an open access stays open -----

  /** The access found for an order is the same in every later database. */
  lemma AccessStaysOpen(db: Db, db': Db, o: OrderId)
    requires RequestsDistinct(db'.requests) && Grows(db, db') && o < |db.orders| && OpenAccess(db, o).Some?
    ensures OpenAccess(db', o) == OpenAccess(db, o)
  {
    var order := db.orders[o];
    assert SameTerms(order, db'.orders[o]);
    var r := LatestRequest(db.requests, order.customer, order.course, |db.requests|).value;
    assert RequestGrows(db.requests[r], db'.requests[r]);
    var x := LatestRequest(db'.requests, order.customer, order.course, |db'.requests|);
    assert Serves(db'.requests[r], order.customer, order.course);
    assert !(r < x.value) && !(x.value < r);
  }

  lemma StaysStarted(db: Db, db': Db, o: OrderId)
    requires Inv(db) && Inv(db') && Grows(db, db') && o < |db.orders|
    requires db.orders[o].status.Active? || db.orders[o].status.PastDue? || db.orders[o].status.Suspended?
    ensures o < |db'.orders| && Started(db'.orders[o].status)
  {
    assert SameTerms(db.orders[o], db'.orders[o]);
    assert Matches(db.orders[o].status, db.installments, o, db.orders[o].count);
    PaidStaysPaid(db, db', o);
    assert Matches(db'.orders[o].status, db'.installments, o, db'.orders[o].count);
  }

  /** An order that was in collection or suspended is never PENDING or EXPIRED again. */
  lemma StartedForEver(db: Db, steps: seq<Step>, o: OrderId)
    requires Inv(db) && o < |db.orders|
    requires db.orders[o].status.Active? || db.orders[o].status.PastDue? || db.orders[o].status.Suspended?
    ensures o < |R.Run(db, steps).orders| && Started(R.Run(db, steps).orders[o].status)
  {
    R.RunGrows(db, steps);
    StaysStarted(db, R.Run(db, steps), o);
  }

  lemma PaidStaysPaid(db: Db, db': Db, o: OrderId)
    requires Grows(db, db') && o < |db.orders| && AnyPaid(db.installments, o, db.orders[o].count)
    ensures AnyPaid(db'.installments, o, db.orders[o].count)
  {
    var s: nat :| 1 <= s <= db.orders[o].count && InstallmentKey(o, s) in db.installments
      && db.installments[InstallmentKey(o, s)].status.Paid?;
    assert InstallmentGrows(db.installments[InstallmentKey(o, s)], db'.installments[InstallmentKey(o, s)]);
  }

  /** Whatever happens while ClickFunnels is asked, the commits of the call can follow: their
      steps are possible in every later database. */
  lemma CommitsCanFollow(db: Db, steps: seq<Step>, o: OrderId, suspended: bool)
    requires Inv(db) && o < |db.orders| && OpenAccess(db, o).Some?
    requires db.orders[o].status.Active? || db.orders[o].status.PastDue? || db.orders[o].status.Suspended?
    ensures Possible(R.Run(db, steps), Flag(OpenAccess(db, o).value, suspended))
    ensures Possible(R.Run(db, steps), Mirror(o, suspended))
  {
    R.RunGrows(db, steps);
    StartedForEver(db, steps, o);
    AccessStaysOpen(db, R.Run(db, steps), o);
  }

  // ----- who suspends -----

  /** No order becomes SUSPENDED. */
  ghost predicate NoneSuspended(orders: seq<Order>, orders': seq<Order>) {
    forall o | 0 <= o < |orders'| && orders'[o].status.Suspended? :: o < |orders| && orders[o].status.Suspended?
  }

  lemma SuccessSuspendsNone(db: Db, a: AttemptId, s: Receipt)
    requires Linked(db) && a < |db.attempts|
    ensures NoneSuspended(db.orders, AfterSuccess(db, a, s).orders)
  {
  }

  lemma ResumptionSuspendsNone(db: Db, o: OrderId, clock: Clock)
    requires o < |db.orders|
    ensures NoneSuspended(db.orders, AfterResumption(db, o, clock).orders)
  {
    if Resumable(db, o, clock) {
      ResumptionIs(db, o, clock);
    }
  }

  lemma ConfirmedSuspendsNone(db: Db, a: AttemptId, s: Receipt, clock: Clock)
    requires Linked(db) && a < |db.attempts|
    ensures NoneSuspended(db.orders, AfterConfirmed(db, a, s, clock).orders)
  {
    if !SuccessOutcome(db, a, s.payment).Raised? {
      SuccessSuspendsNone(db, a, s);
      var resolved := AfterResolution(AfterSuccess(db, a, s), a);
      assert resolved.orders == AfterSuccess(db, a, s).orders;
      ResumptionSuspendsNone(resolved, db.attempts[a].installment.order, clock);
    }
  }

  lemma DeliverySuspendsNone(db: Db, d: Delivery)
    requires Linked(db)
    ensures NoneSuspended(db.orders, AfterDelivery(db, d).orders)
  {
    if Inquires(db, d) {
      var p := d.payload.value;
      var a := Correlated(db, p).value;
      var middle := AttachedTo(db, d, p, a);
      var r := if d.client.None? then Result.Raised else Checked(middle, a, d.client.value, p.payment);
      if r.Verified? && r.status.Success? {
        SuccessIsCleanOrMismatch(middle, a, d.client, p.payment, r);
      }
      VerdictIs(middle, |db.events|, a, r, p, d.recipient, d.clock);
      if Convincing(middle, a, r, p) {
        ConfirmedSuspendsNone(middle, a, AppliedSuccess(r, p, d.recipient, d.clock), d.clock);
      }
    }
  }

  lemma CheckSuspendsNone(db: Db, a: AttemptId, q: Inquiry)
    requires Linked(db) && a < |db.attempts|
    ensures NoneSuspended(db.orders, AfterStaffCheck(db, a, q).orders)
    ensures NoneSuspended(db.orders, AfterStaleCheck(db, a, q).orders)
  {
    var r := ResultOf(db, a, q);
    StaffCheckIs(db, a, q);
    StaleCheckIs(db, a, q);
    if r.Verified? {
      ConfirmedSuspendsNone(db, a, ReceiptOf(r, q), q.clock);
    }
  }

  lemma AttributionSuspendsNone(db: Db, d: Attribution)
    requires Linked(db) && d.event < |db.events| && d.key in db.installments
    ensures NoneSuspended(db.orders, AfterAttribution(db, d).orders)
  {
    var (a, carried) := Carrier(db, d);
    AttributionIs(db, d);
    SuccessSuspendsNone(carried, a, AttributedReceipt(db, d));
  }

  lemma VerdictSuspendsNone(db: Db, step: Step)
    requires Linked(db) && OnVerdict(step) && VerdictPossible(db, step)
    ensures NoneSuspended(db.orders, AfterVerdictStep(db, step).orders)
  {
    match step
    case Webhook(d) => DeliverySuspendsNone(db, d);
    case Record(d) => assert AfterRecording(db, d).orders == db.orders;
    case StaffCheck(a, q) => CheckSuspendsNone(db, a, q);
    case StaleCheck(a, q) => CheckSuspendsNone(db, a, q);
    case Attribute(d) => AttributionSuspendsNone(db, d);
  }

  lemma PartSuspendsNone(db: Db, step: Step)
    requires Linked(db) && IsPart(step) && PartPossible(db, step)
    ensures NoneSuspended(db.orders, AfterPart(db, step).orders)
  {
    if step.Credit? {
      SuccessSuspendsNone(db, step.attempt, step.receipt);
    }
  }

  lemma JobSuspendsNone(db: Db, step: Step)
    requires Linked(db) && ByJob(step) && JobPossible(db, step) && !step.Suspend?
    ensures NoneSuspended(db.orders, AfterJobStep(db, step).orders)
  {
    if step.Resume? {
      ResumptionSuspendsNone(db, step.order, step.clock);
    }
  }

  lemma StaffSuspendsNone(db: Db, step: Step)
    requires Linked(db) && ByStaff(step) && StaffPossible(db, step) && !step.Freeze?
    ensures NoneSuspended(db.orders, AfterStaffStep(db, step).orders)
  {
  }

  lemma AccessSuspendsNone(db: Db, step: Step)
    requires OnAccess(step) && AccessPossible(db, step) && (step.Mirror? ==> !step.suspended)
    ensures NoneSuspended(db.orders, AfterAccessStep(db, step).orders)
  {
  }

  lemma CheckoutSuspendsNone(db: Db, step: Step)
    requires Linked(db) && AtCheckout(step) && CheckoutPossible(db, step)
    ensures NoneSuspended(db.orders, AfterCheckoutStep(db, step).orders)
  {
  }

  lemma FollowUpSuspendsNone(db: Db, step: Step)
    requires OnFollowUps(step) && FollowUpPossible(db, step)
    ensures NoneSuspended(db.orders, AfterFollowUpStep(db, step).orders)
  {
  }

  predicate Suspends(step: Step) {
    step.Suspend? || step.Freeze? || (step.Mirror? && step.suspended)
  }

  lemma OthersSuspendNone(db: Db, step: Step)
    requires Linked(db) && Possible(db, step) && !Suspends(step)
    ensures NoneSuspended(db.orders, Apply(db, step).orders)
  {
    if AtCheckout(step) {
      F.CheckoutStepDoes(db, step);
      CheckoutSuspendsNone(db, step);
    } else if OnVerdict(step) {
      F.VerdictStepDoes(db, step);
      VerdictSuspendsNone(db, step);
    } else if IsPart(step) {
      F.PartStepDoes(db, step);
      PartSuspendsNone(db, step);
    } else if OnAccess(step) {
      F.AccessStepDoes(db, step);
      AccessSuspendsNone(db, step);
    } else if ByStaff(step) {
      F.StaffStepDoes(db, step);
      StaffSuspendsNone(db, step);
    } else if ByJob(step) {
      F.JobStepDoes(db, step);
      JobSuspendsNone(db, step);
    } else {
      F.FollowUpStepDoes(db, step);
      FollowUpSuspendsNone(db, step);
    }
  }

  lemma SuspendersHaveAccess(db: Db, step: Step, o: OrderId)
    requires Linked(db) && Possible(db, step) && Suspends(step)
    requires o < |Apply(db, step).orders| && Apply(db, step).orders[o].status.Suspended?
    ensures o < |db.orders| && (db.orders[o].status.Suspended? || OpenAccess(db, o).Some?)
  {
  }

  /** An order becomes SUSPENDED only by a step that has found its open access. */
  lemma SuspendedByAccess(db: Db, step: Step, o: OrderId)
    requires Linked(db) && o < |Apply(db, step).orders| && Apply(db, step).orders[o].status.Suspended?
    ensures o < |db.orders| && (db.orders[o].status.Suspended? || OpenAccess(db, o).Some?)
  {
    if !Possible(db, step) {
    } else if Suspends(step) {
      SuspendersHaveAccess(db, step, o);
    } else {
      OthersSuspendNone(db, step);
    }
  }

  lemma StepKeepsAccessOpen(db: Db, step: Step)
    requires Inv(db) && AccessOpen(db)
    ensures AccessOpen(Apply(db, step))
  {
    R.StepGrows(db, step);
    forall o | 0 <= o < |Apply(db, step).orders| && Apply(db, step).orders[o].status.Suspended?
      ensures OpenAccess(Apply(db, step), o).Some?
    {
      SuspendedByAccess(db, step, o);
      AccessStaysOpen(db, Apply(db, step), o);
    }
  }

  /** In every run each suspended order has an open access behind it, so that a suspension can
      always be lifted. */
  lemma {:induction false} SuspendedHasAccess(db: Db, steps: seq<Step>)
    requires Inv(db) && AccessOpen(db)
    ensures AccessOpen(R.Run(db, steps))
    decreases |steps|
  {
    if steps == [] {
    } else {
      R.StepIsGood(db, steps[0]);
      StepKeepsAccessOpen(db, steps[0]);
      SuspendedHasAccess(Apply(db, steps[0]), steps[1..]);
    }
  }
}
