/** Whether the course access behind a suspended order is itself suspended.  Two orders of one
    customer for one course share their access, so lifting the one opens it for both. */
module Coverage {
  import opened Models
  import opened StateMachines
  import opened Credit
  import opened FollowUps
  import opened Administration
  import opened Access
  import opened Collection
  import opened Verification
  import opened Webhooks
  import opened Checks
  import opened Expiry
  import opened Invariants
  import opened Preservation
  import opened CreditProofs
  import opened Composites
  import opened Steps
  import opened Enrollments
  import F = Effects
  import R = Runs
  import U = Suspension

  /** The flag of the access behind the order. */
  function FlagOf(db: Db, o: OrderId): Option<bool>
    requires o < |db.orders|
  {
    if OpenAccess(db, o).Some? then db.requests[OpenAccess(db, o).value].access else None
  }

  /** Every SUSPENDED order has its access suspended. */
  ghost predicate Covered(db: Db) {
    forall o | 0 <= o < |db.orders| && db.orders[o].status.Suspended? :: FlagOf(db, o) == Some(true)
  }

  /** An access on record comes from a success on record. */
  ghost predicate Earned(requests: seq<Request>) {
    forall r | 0 <= r < |requests| && requests[r].access.Some? :: requests[r].successes > 0
  }

  predicate Shares(db: Db, o: OrderId, x: OrderId)
    requires o < |db.orders| && x < |db.orders|
  {
    db.orders[o].customer == db.orders[x].customer && db.orders[o].course == db.orders[x].course
  }

  /** Another order, still SUSPENDED, shares the access of order o. */
  predicate SharedWithSuspended(db: Db, o: OrderId)
    requires o < |db.orders|
  {
    exists x | 0 <= x < |db.orders| :: x != o && db.orders[x].status.Suspended? && Shares(db, o, x)
  }

  // ----- what a lifting changes -----

  /** From db to db' at most one suspension is lifted, that of l, and its access with it; nothing
      else happens to suspended orders and to accesses on record. */
  ghost predicate LiftsOnly(db: Db, db': Db, l: Option<OrderId>) {
    && |db.orders| <= |db'.orders| && |db.requests| <= |db'.requests|
    && (forall o | 0 <= o < |db'.orders| :: db'.orders[o].status.Suspended?
          <==> o < |db.orders| && db.orders[o].status.Suspended? && l != Some(o))
    && (l.Some? ==> l.value < |db.orders| && db.orders[l.value].status.Suspended? && OpenAccess(db, l.value).Some?)
    && (forall r | 0 <= r < |db.requests| && db.requests[r].access.Some? ::
          db'.requests[r].access == if l.Some? && OpenAccess(db, l.value) == Some(r) then Some(false)
                                    else db.requests[r].access)
  }

  ghost predicate Lifts(db: Db, db': Db, l: Option<OrderId>) {
    LiftsOnly(db, db', l) && Earned(db'.requests)
  }

  lemma SharedAccess(db: Db, o: OrderId, x: OrderId)
    requires o < |db.orders| && x < |db.orders| && OpenAccess(db, o).Some? && OpenAccess(db, x).Some?
    ensures OpenAccess(db, o) == OpenAccess(db, x) <==> Shares(db, o, x)
  {
    assert Serves(db.requests[OpenAccess(db, o).value], db.orders[o].customer, db.orders[o].course);
    assert Serves(db.requests[OpenAccess(db, x).value], db.orders[x].customer, db.orders[x].course);
  }

  lemma FlagAfterLifting(db: Db, db': Db, l: Option<OrderId>, o: OrderId)
    requires RequestsDistinct(db'.requests) && Grows(db, db') && LiftsOnly(db, db', l)
    requires o < |db.orders| && OpenAccess(db, o).Some?
    ensures FlagOf(db', o) == if l.Some? && Shares(db, o, l.value) then Some(false) else FlagOf(db, o)
  {
    AccessStaysOpen(db, db', o);
    if l.Some? {
      SharedAccess(db, o, l.value);
    }
  }

  /** A lifting leaves every suspended order covered unless another one shares its access. */
  lemma LiftingCoversIff(db: Db, db': Db, l: Option<OrderId>)
    requires Covered(db) && RequestsDistinct(db'.requests) && Grows(db, db') && LiftsOnly(db, db', l)
    ensures Covered(db') <==> !(l.Some? && SharedWithSuspended(db, l.value))
  {
    forall o | 0 <= o < |db.orders| && db.orders[o].status.Suspended?
      ensures FlagOf(db', o) == if l.Some? && Shares(db, o, l.value) then Some(false) else Some(true)
    {
      FlagAfterLifting(db, db', l, o);
    }
    if l.Some? && SharedWithSuspended(db, l.value) {
      var x :| 0 <= x < |db.orders| && x != l.value && db.orders[x].status.Suspended? && Shares(db, l.value, x);
      assert FlagOf(db', x) == Some(false) && db'.orders[x].status.Suspended?;
    }
  }

  lemma LiftsNone(db: Db, db': Db)
    requires db'.requests == db.requests && |db'.orders| == |db.orders|
    requires forall o | 0 <= o < |db.orders| :: db'.orders[o].status.Suspended? <==> db.orders[o].status.Suspended?
    ensures LiftsOnly(db, db', None)
  {
  }

  lemma LiftsThen(db: Db, middle: Db, db': Db, l: Option<OrderId>)
    requires Covered(db) && RequestsDistinct(middle.requests) && Grows(db, middle)
    requires LiftsOnly(db, middle, None) && LiftsOnly(middle, db', l)
    ensures LiftsOnly(db, db', l)
  {
    if l.Some? {
      assert db.orders[l.value].status.Suspended?;
      AccessStaysOpen(db, middle, l.value);
    }
    forall r | 0 <= r < |db.requests| && db.requests[r].access.Some?
      ensures db'.requests[r].access == if l.Some? && OpenAccess(db, l.value) == Some(r) then Some(false)
                                        else db.requests[r].access
    {
      assert middle.requests[r].access == db.requests[r].access;
    }
  }

  // ----- verdicts -----

  lemma SuccessLiftsNone(db: Db, a: AttemptId, s: Receipt)
    requires Linked(db) && a < |db.attempts|
    ensures LiftsOnly(db, AfterSuccess(db, a, s), None)
    ensures Earned(db.requests) ==> Earned(AfterSuccess(db, a, s).requests)
  {
  }

  lemma ResumptionLifts(db: Db, o: OrderId, clock: Clock)
    requires o < |db.orders|
    ensures var db' := AfterResumption(db, o, clock);
      && LiftsOnly(db, db', if Resumable(db, o, clock) then Some(o) else None)
      && (Earned(db.requests) ==> Earned(db'.requests))
  {
    if Resumable(db, o, clock) {
      ResumptionIs(db, o, clock);
    }
  }

  /** The suspension that the end of a confirmed payment lifts. */
  function ConfirmedLift(db: Db, a: AttemptId, s: Receipt, clock: Clock): Option<OrderId>
    requires Linked(db) && a < |db.attempts|
  {
    var o := db.attempts[a].installment.order;
    if !SuccessOutcome(db, a, s.payment).Raised? && Resumable(AfterResolution(AfterSuccess(db, a, s), a), o, clock)
    then Some(o) else None
  }

  lemma ConfirmedLifts(db: Db, a: AttemptId, s: Receipt, clock: Clock)
    requires Inv(db) && Covered(db) && a < |db.attempts|
    ensures var db' := AfterConfirmed(db, a, s, clock);
      && LiftsOnly(db, db', ConfirmedLift(db, a, s, clock))
      && (Earned(db.requests) ==> Earned(db'.requests))
  {
    if SuccessOutcome(db, a, s.payment).Raised? {
      LiftsNone(db, db);
    } else {
      CreditKeeps(db, a, s);
      SuccessLiftsNone(db, a, s);
      var credited := AfterSuccess(db, a, s);
      var resolved := AfterResolution(credited, a);
      ResumptionLifts(resolved, db.attempts[a].installment.order, clock);
      LiftsThen(db, resolved, AfterConfirmed(db, a, s, clock), ConfirmedLift(db, a, s, clock));
    }
  }

  /** A step changes nothing but events of the accesses and suspensions. */
  lemma EventsLiftSame(db: Db, db': Db, events: seq<Event>, l: Option<OrderId>)
    requires LiftsOnly(db, db', l)
    ensures LiftsOnly(db, db'.(events := events), l)
  {
    forall r | 0 <= r < |db.requests| && db.requests[r].access.Some?
      ensures db'.(events := events).requests[r].access == db'.requests[r].access
    {
    }
  }

  lemma FailureLiftsNone(db: Db, a: AttemptId)
    requires Linked(db) && a < |db.attempts|
    ensures LiftsOnly(db, AfterFailure(db, a), None) && AfterFailure(db, a).requests == db.requests
  {
    LiftsNone(db, AfterFailure(db, a));
  }

  function VerdictLift(db: Db, a: AttemptId, r: Result, p: Payload, recipient: string, clock: Clock): Option<OrderId>
    requires Linked(db) && a < |db.attempts|
  {
    if Convincing(db, a, r, p) then ConfirmedLift(db, a, AppliedSuccess(r, p, recipient, clock), clock) else None
  }

  lemma VerdictLifts(db: Db, e: nat, a: AttemptId, r: Result, p: Payload, recipient: string, clock: Clock)
    requires Inv(db) && Covered(db) && Earned(db.requests) && a < |db.attempts| && e < |db.events|
    requires r.Verified? && r.status.Success? ==> r.category.Clean? || r.category.AmountMismatch?
    ensures var db' := AfterVerdict(db, e, a, r, p, recipient, clock);
      LiftsOnly(db, db', VerdictLift(db, a, r, p, recipient, clock)) && Earned(db'.requests)
  {
    var db' := AfterVerdict(db, e, a, r, p, recipient, clock);
    VerdictIs(db, e, a, r, p, recipient, clock);
    if Convincing(db, a, r, p) {
      var s := AppliedSuccess(r, p, recipient, clock);
      ConfirmedLifts(db, a, s, clock);
      EventsLiftSame(db, AfterConfirmed(db, a, s, clock), db'.events, ConfirmedLift(db, a, s, clock));
    } else if r.Verified? && (r.category.Clean? || r.category.AmountMismatch?) && r.status.Failure? {
      FailureLiftsNone(db, a);
      EventsLiftSame(db, AfterFailure(db, a), db'.events, None);
    } else {
      LiftsNone(db, db');
    }
  }

  function DeliveryLift(db: Db, d: Delivery): Option<OrderId>
    requires Linked(db)
  {
    if Inquires(db, d) then
      var p := d.payload.value;
      var a := Correlated(db, p).value;
      var attached := AttachedTo(db, d, p, a);
      var r := if d.client.None? then Result.Raised else Checked(attached, a, d.client.value, p.payment);
      VerdictLift(attached, a, r, p, d.recipient, d.clock)
    else None
  }

  lemma AttachedIsSame(db: Db, d: Delivery, p: Payload, a: AttemptId)
    requires Inv(db) && Covered(db) && a < |db.attempts|
    ensures Inv(AttachedTo(db, d, p, a)) && Covered(AttachedTo(db, d, p, a))
  {
    var attached := AttachedTo(db, d, p, a);
    EventsStep(db, attached.events);
    forall o | 0 <= o < |db.orders|
      ensures FlagOf(attached, o) == FlagOf(db, o)
    {
    }
  }

  lemma AttachedLiftsSame(db: Db, d: Delivery, p: Payload, a: AttemptId, db': Db, l: Option<OrderId>)
    requires a < |db.attempts| && LiftsOnly(AttachedTo(db, d, p, a), db', l)
    ensures LiftsOnly(db, db', l)
  {
  }

  lemma DeliveryLifts(db: Db, d: Delivery)
    requires Inv(db) && Covered(db) && Earned(db.requests)
    ensures Lifts(db, AfterDelivery(db, d), DeliveryLift(db, d))
  {
    if Inquires(db, d) {
      var p := d.payload.value;
      var a := Correlated(db, p).value;
      var attached := AttachedTo(db, d, p, a);
      var r := if d.client.None? then Result.Raised else Checked(attached, a, d.client.value, p.payment);
      if r.Verified? && r.status.Success? {
        SuccessIsCleanOrMismatch(attached, a, d.client, p.payment, r);
      }
      AttachedIsSame(db, d, p, a);
      VerdictLifts(attached, |db.events|, a, r, p, d.recipient, d.clock);
      AttachedLiftsSame(db, d, p, a, AfterDelivery(db, d), DeliveryLift(db, d));
    } else {
      LiftsNone(db, AfterRecording(db, d));
    }
  }

  function CheckLift(db: Db, a: AttemptId, q: Inquiry): Option<OrderId>
    requires Linked(db) && a < |db.attempts|
  {
    var r := ResultOf(db, a, q);
    if Checkable(db.attempts[a].status) && Accepts(r) then ConfirmedLift(db, a, ReceiptOf(r, q), q.clock) else None
  }

  lemma StaffCheckLifts(db: Db, a: AttemptId, q: Inquiry)
    requires Inv(db) && Covered(db) && Earned(db.requests) && a < |db.attempts|
    ensures Lifts(db, AfterStaffCheck(db, a, q), CheckLift(db, a, q))
  {
    var r := ResultOf(db, a, q);
    StaffCheckIs(db, a, q);
    LiftsNone(db, db);
    FailureLiftsNone(db, a);
    if Checkable(db.attempts[a].status) && Accepts(r) {
      ConfirmedLifts(db, a, ReceiptOf(r, q), q.clock);
    }
  }

  /** When only the count goes up, the staff check would have lifted nothing either. */
  lemma BumpLiftsNone(db: Db, a: AttemptId, q: Inquiry)
    requires Linked(db) && a < |db.attempts| && AfterStaleCheck(db, a, q) != AfterStaffCheck(db, a, q)
    ensures CheckLift(db, a, q).None? && AfterStaleCheck(db, a, q) == AfterBump(db, a, q.clock.now)
  {
  }

  lemma StaleCheckLifts(db: Db, a: AttemptId, q: Inquiry)
    requires Inv(db) && Covered(db) && Earned(db.requests) && a < |db.attempts|
    ensures Lifts(db, AfterStaleCheck(db, a, q), CheckLift(db, a, q))
  {
    if AfterStaleCheck(db, a, q) == AfterStaffCheck(db, a, q) {
      StaffCheckLifts(db, a, q);
    } else {
      BumpLiftsNone(db, a, q);
      LiftsNone(db, AfterBump(db, a, q.clock.now));
    }
  }

  lemma AttributionLiftsNone(db: Db, d: Attribution)
    requires Linked(db) && Earned(db.requests) && d.event < |db.events| && d.key in db.installments
    ensures Lifts(db, AfterAttribution(db, d), None)
  {
    var (a, carried) := Carrier(db, d);
    AttributionIs(db, d);
    SuccessLiftsNone(carried, a, AttributedReceipt(db, d));
  }

  function LiftOnVerdict(db: Db, step: Step): Option<OrderId>
    requires Linked(db) && OnVerdict(step) && VerdictPossible(db, step)
  {
    match step
    case Webhook(d) => DeliveryLift(db, d)
    case StaffCheck(a, q) => CheckLift(db, a, q)
    case StaleCheck(a, q) => CheckLift(db, a, q)
    case _ => None
  }

  lemma DeliveryStepLifts(db: Db, step: Step)
    requires Inv(db) && Covered(db) && Earned(db.requests) && (step.Webhook? || step.Record?)
    ensures Lifts(db, AfterVerdictStep(db, step), LiftOnVerdict(db, step))
  {
    match step
    case Webhook(d) => DeliveryLifts(db, d);
    case Record(d) => LiftsNone(db, AfterRecording(db, d));
  }

  lemma StaffCheckStepIs(db: Db, step: Step)
    requires Linked(db) && step.StaffCheck? && VerdictPossible(db, step)
    ensures AfterVerdictStep(db, step) == AfterStaffCheck(db, step.attempt, step.inquiry)
  {
  }

  lemma StaleCheckStepIs(db: Db, step: Step)
    requires Linked(db) && step.StaleCheck? && VerdictPossible(db, step)
    ensures AfterVerdictStep(db, step) == AfterStaleCheck(db, step.attempt, step.inquiry)
  {
  }

  lemma StaffCheckLift(db: Db, step: Step)
    requires Linked(db) && step.StaffCheck? && VerdictPossible(db, step)
    ensures LiftOnVerdict(db, step) == CheckLift(db, step.attempt, step.inquiry)
  {
  }

  lemma StaleCheckLift(db: Db, step: Step)
    requires Linked(db) && step.StaleCheck? && VerdictPossible(db, step)
    ensures LiftOnVerdict(db, step) == CheckLift(db, step.attempt, step.inquiry)
  {
  }

  lemma CheckStepLifts(db: Db, step: Step)
    requires Inv(db) && Covered(db) && Earned(db.requests) && (step.StaffCheck? || step.StaleCheck?)
    requires VerdictPossible(db, step)
    ensures Lifts(db, AfterVerdictStep(db, step), LiftOnVerdict(db, step))
  {
    if step.StaffCheck? {
      StaffCheckLift(db, step);
      StaffCheckStepIs(db, step);
      StaffCheckLifts(db, step.attempt, step.inquiry);
    } else {
      StaleCheckLift(db, step);
      StaleCheckStepIs(db, step);
      StaleCheckLifts(db, step.attempt, step.inquiry);
    }
  }

  lemma AttributionStepLifts(db: Db, step: Step)
    requires Linked(db) && Earned(db.requests) && step.Attribute? && VerdictPossible(db, step)
    ensures Lifts(db, AfterVerdictStep(db, step), LiftOnVerdict(db, step))
  {
    AttributionLiftsNone(db, step.attribution);
  }

  lemma VerdictStepLifts(db: Db, step: Step)
    requires Inv(db) && Covered(db) && Earned(db.requests) && OnVerdict(step) && VerdictPossible(db, step)
    ensures Lifts(db, AfterVerdictStep(db, step), LiftOnVerdict(db, step))
  {
    if step.Webhook? || step.Record? {
      DeliveryStepLifts(db, step);
    } else if step.Attribute? {
      AttributionStepLifts(db, step);
    } else {
      CheckStepLifts(db, step);
    }
  }

  // ----- the other services -----

  lemma CheckoutLiftsNone(db: Db, step: Step)
    requires Linked(db) && Earned(db.requests) && AtCheckout(step) && CheckoutPossible(db, step)
    ensures Lifts(db, AfterCheckoutStep(db, step), None)
  {
  }

  lemma PartLiftsNone(db: Db, step: Step)
    requires Linked(db) && Earned(db.requests) && IsPart(step) && PartPossible(db, step)
    ensures Lifts(db, AfterPart(db, step), None)
  {
    match step
    case Credit(a, _, s) => SuccessLiftsNone(db, a, s);
    case Fail(a, _) => FailureLiftsNone(db, a);
    case Resolve(_) => LiftsNone(db, AfterPart(db, step));
    case SaveEvent(_, _) => LiftsNone(db, AfterPart(db, step));
    case Bump(_, _) => LiftsNone(db, AfterPart(db, step));
  }

  /** An access on record has its success on record, so no worker writes it again. */
  lemma FollowUpLiftsNone(db: Db, step: Step)
    requires Earned(db.requests) && OnFollowUps(step) && FollowUpPossible(db, step)
    ensures Lifts(db, AfterFollowUpStep(db, step), None)
  {
  }

  /** Restoring by staff; freezing and the decisions lift nothing. */
  function LiftByStaff(db: Db, step: Step): Option<OrderId>
    requires ByStaff(step) && StaffPossible(db, step)
  {
    match step
    case Restore(o, answers) => if Switchable(db, o, false, answers) then Some(o) else None
    case _ => None
  }

  function LiftByJob(db: Db, step: Step): Option<OrderId>
    requires ByJob(step) && JobPossible(db, step)
  {
    match step
    case Resume(o, clock) => if Resumable(db, o, clock) then Some(o) else None
    case _ => None
  }

  lemma WaiveLiftsNone(db: Db, k: InstallmentKey, today: int)
    requires Linked(db) && Earned(db.requests) && k in db.installments
    ensures LiftsOnly(db, AfterWaive(db, k, today), None) && Earned(AfterWaive(db, k, today).requests)
  {
  }

  /** But for freezing and cancelling orders, whose effect on suspensions is their own. */
  lemma StaffStepLifts(db: Db, step: Step)
    requires Linked(db) && Earned(db.requests) && ByStaff(step) && StaffPossible(db, step)
    requires step.CancelInstallment? || step.Waive? || step.Restore?
    ensures Lifts(db, AfterStaffStep(db, step), LiftByStaff(db, step))
  {
    if step.Waive? {
      WaiveLiftsNone(db, step.installment, step.today);
    }
  }

  lemma JobStepLifts(db: Db, step: Step)
    requires Linked(db) && Earned(db.requests) && ByJob(step) && JobPossible(db, step) && !step.Suspend?
    ensures Lifts(db, AfterJobStep(db, step), LiftByJob(db, step))
  {
    match step
    case Select(_, _) => LiftsNone(db, db);
    case Expire(o) => LiftsNone(db, AfterExpiry(db, o));
    case MarkDue(today) => LiftsNone(db, AfterMarkDue(db, today));
    case MarkLate(today) => LiftsNone(db, AfterMarkLate(db, today));
    case Resume(o, clock) => ResumptionLifts(db, o, clock);
  }

  // ----- suspending -----

  lemma SwitchCovers(db: Db, o: OrderId, row: Order)
    requires RequestsDistinct(db.requests) && Covered(db) && Earned(db.requests)
    requires o < |db.orders| && OpenAccess(db, o).Some? && SameTerms(db.orders[o], row)
    ensures var db' := AfterFlag(db, OpenAccess(db, o).value, true).(orders := db.orders[o := row]);
      Covered(db') && Earned(db'.requests)
  {
    var r := OpenAccess(db, o).value;
    var db' := AfterFlag(db, r, true).(orders := db.orders[o := row]);
    forall x | 0 <= x < |db.orders|
      ensures OpenAccess(db', x) == OpenAccess(db, x)
    {
      U.SameLatest(db.requests, db'.requests, db.orders[x].customer, db.orders[x].course, |db.requests|);
    }
  }

  lemma CancellationCovers(db: Db, o: OrderId)
    requires Linked(db) && Covered(db) && o < |db.orders|
    ensures Covered(AfterCancelOrder(db, o)) && AfterCancelOrder(db, o).requests == db.requests
  {
    var db' := AfterCancelOrder(db, o);
    forall x | 0 <= x < |db.orders|
      ensures OpenAccess(db', x) == OpenAccess(db, x)
    {
    }
  }

  // ----- one step -----

  /** The suspension that the step lifts. */
  function LiftedBy(db: Db, step: Step): Option<OrderId>
    requires Linked(db) && Possible(db, step)
  {
    if OnVerdict(step) then LiftOnVerdict(db, step)
    else if ByStaff(step) then LiftByStaff(db, step)
    else if ByJob(step) then LiftByJob(db, step)
    else None
  }

  /** A commit under way takes an access away from a suspended order: the flag of its access is
      cleared, or the order is mirrored while the flag is not set. */
  predicate AccessUncovers(db: Db, step: Step)
    requires OnAccess(step) && AccessPossible(db, step)
  {
    match step
    case Flag(r, suspended) =>
      !suspended && exists o | 0 <= o < |db.orders| :: db.orders[o].status.Suspended? && OpenAccess(db, o) == Some(r)
    case Mirror(o, suspended) =>
      && suspended && !db.orders[o].status.Suspended?
      && OrderTransitionError(db.orders[o].status, OrderStatus.Suspended).None? && FlagOf(db, o) != Some(true)
    case _ => false
  }

  /** The step leaves some suspended order with an open access: it lifts another order of the same
      customer and course, or it is such a commit. */
  predicate Uncovers(db: Db, step: Step)
    requires Linked(db)
  {
    && Possible(db, step)
    && (OnAccess(step) ==> AccessUncovers(db, step))
    && (!OnAccess(step) ==> (
          && LiftedBy(db, step).Some? && LiftedBy(db, step).value < |db.orders|
          && SharedWithSuspended(db, LiftedBy(db, step).value)))
  }

  lemma SameOpenAccess(db: Db, db': Db, o: OrderId)
    requires U.SameAccess(db.requests, db'.requests) && o < |db.orders| && o < |db'.orders|
    requires SameTerms(db.orders[o], db'.orders[o])
    ensures OpenAccess(db', o) == OpenAccess(db, o)
  {
    U.SameLatest(db.requests, db'.requests, db.orders[o].customer, db.orders[o].course, |db.requests|);
  }

  lemma FlagCoversIff(db: Db, r: RequestId, suspended: bool)
    requires Covered(db) && AccessPossible(db, Flag(r, suspended))
    ensures Covered(AfterFlag(db, r, suspended)) <==> !AccessUncovers(db, Flag(r, suspended))
    ensures Earned(db.requests) ==> Earned(AfterFlag(db, r, suspended).requests)
  {
    var db' := AfterFlag(db, r, suspended);
    forall o | 0 <= o < |db.orders| && db.orders[o].status.Suspended?
      ensures FlagOf(db', o) == if OpenAccess(db, o) == Some(r) then Some(suspended) else Some(true)
    {
      SameOpenAccess(db, db', o);
    }
    if AccessUncovers(db, Flag(r, suspended)) {
      var o :| 0 <= o < |db.orders| && db.orders[o].status.Suspended? && OpenAccess(db, o) == Some(r);
      assert FlagOf(db', o) == Some(false);
    }
  }

  lemma MirrorCoversIff(db: Db, o: OrderId, suspended: bool)
    requires Covered(db) && AccessPossible(db, Mirror(o, suspended))
    ensures Covered(AfterMirror(db, o, suspended)) <==> !AccessUncovers(db, Mirror(o, suspended))
  {
    var db' := AfterMirror(db, o, suspended);
    forall x | 0 <= x < |db.orders|
      ensures FlagOf(db', x) == FlagOf(db, x)
    {
      SameOpenAccess(db, db', x);
    }
    if AccessUncovers(db, Mirror(o, suspended)) {
      assert db'.orders[o].status.Suspended?;
    }
  }

  lemma MarkLiftsNone(db: Db, step: Step)
    requires (step.Mark? || step.Unmark?) && AccessPossible(db, step)
    ensures LiftsOnly(db, AfterAccessStep(db, step), None) && AfterAccessStep(db, step).requests == db.requests
  {
    LiftsNone(db, AfterAccessStep(db, step));
  }

  lemma MarkCovers(db: Db, step: Step)
    requires Inv(db) && Covered(db) && (step.Mark? || step.Unmark?) && AccessPossible(db, step)
    ensures Covered(AfterAccessStep(db, step))
  {
    R.AccessStepKeeps(db, step);
    MarkLiftsNone(db, step);
    LiftingCoversIff(db, AfterAccessStep(db, step), None);
  }

  lemma AccessCoversIff(db: Db, step: Step)
    requires Inv(db) && Covered(db) && Earned(db.requests) && OnAccess(step) && AccessPossible(db, step)
    ensures Covered(AfterAccessStep(db, step)) <==> !AccessUncovers(db, step)
    ensures Earned(AfterAccessStep(db, step).requests)
  {
    match step
    case Flag(r, suspended) => FlagCoversIff(db, r, suspended);
    case Mirror(o, suspended) => MirrorCoversIff(db, o, suspended);
    case Mark(_, _) => MarkCovers(db, step); MarkLiftsNone(db, step);
    case Unmark(_, _) => MarkCovers(db, step); MarkLiftsNone(db, step);
  }

  lemma FreezeCovers(db: Db, o: OrderId, answers: bool)
    requires RequestsDistinct(db.requests) && Covered(db) && Earned(db.requests) && o < |db.orders|
    ensures Covered(AfterSwitch(db, o, true, answers)) && Earned(AfterSwitch(db, o, true, answers).requests)
  {
    if Switchable(db, o, true, answers) {
      SwitchCovers(db, o, db.orders[o].(status := OrderStatus.Suspended));
    }
  }

  lemma SuspensionCovers(db: Db, o: OrderId, clock: Clock)
    requires RequestsDistinct(db.requests) && Covered(db) && Earned(db.requests) && o < |db.orders|
    ensures Covered(AfterSuspension(db, o, clock)) && Earned(AfterSuspension(db, o, clock).requests)
  {
    if Overdue(db, o, clock) && Switchable(db, o, true, o in clock.answers) {
      var row := db.orders[o].(status := OrderStatus.Suspended, nonpayment := Some(clock.now));
      SwitchCovers(db, o, row);
      assert AfterSuspension(db, o, clock).orders == db.orders[o := row];
    }
  }

  /** Freezing and suspending cover what they suspend, cancelling suspends nothing. */
  predicate SuspendsOrCancels(step: Step) {
    step.Freeze? || step.Suspend? || step.CancelOrder?
  }

  lemma StaffCovers(db: Db, step: Step)
    requires Inv(db) && Covered(db) && Earned(db.requests) && (step.Freeze? || step.CancelOrder?)
    requires StaffPossible(db, step)
    ensures Covered(AfterStaffStep(db, step)) && Earned(AfterStaffStep(db, step).requests)
  {
    match step
    case Freeze(o, answers) => FreezeCovers(db, o, answers);
    case CancelOrder(o) => CancellationCovers(db, o);
  }

  lemma SuspendingCovers(db: Db, step: Step)
    requires Inv(db) && Covered(db) && Earned(db.requests) && Possible(db, step) && SuspendsOrCancels(step)
    ensures Covered(Apply(db, step)) && Earned(Apply(db, step).requests)
  {
    if step.Suspend? {
      F.SuspendDoes(db, step.order, step.clock);
      SuspensionCovers(db, step.order, step.clock);
    } else {
      F.StaffStepDoes(db, step);
      StaffCovers(db, step);
    }
  }

  lemma CheckoutApplied(db: Db, step: Step)
    requires Linked(db) && Earned(db.requests) && Possible(db, step) && AtCheckout(step)
    ensures Lifts(db, Apply(db, step), None)
  {
    F.CheckoutStepDoes(db, step);
    CheckoutLiftsNone(db, step);
  }

  lemma VerdictApplied(db: Db, step: Step)
    requires Inv(db) && Covered(db) && Earned(db.requests) && Possible(db, step) && OnVerdict(step)
    ensures VerdictPossible(db, step) && Lifts(db, Apply(db, step), LiftOnVerdict(db, step))
  {
    F.VerdictStepDoes(db, step);
    VerdictStepLifts(db, step);
  }

  lemma PartApplied(db: Db, step: Step)
    requires Linked(db) && Earned(db.requests) && Possible(db, step) && IsPart(step)
    ensures Lifts(db, Apply(db, step), None)
  {
    F.PartStepDoes(db, step);
    PartLiftsNone(db, step);
  }

  lemma StaffApplied(db: Db, step: Step)
    requires Linked(db) && Earned(db.requests) && Possible(db, step) && ByStaff(step) && !SuspendsOrCancels(step)
    ensures StaffPossible(db, step) && Lifts(db, Apply(db, step), LiftByStaff(db, step))
  {
    F.StaffStepDoes(db, step);
    StaffStepLifts(db, step);
  }

  lemma JobApplied(db: Db, step: Step)
    requires Linked(db) && Earned(db.requests) && Possible(db, step) && ByJob(step) && !SuspendsOrCancels(step)
    ensures JobPossible(db, step) && Lifts(db, Apply(db, step), LiftByJob(db, step))
  {
    F.JobStepDoes(db, step);
    JobStepLifts(db, step);
  }

  lemma FollowUpApplied(db: Db, step: Step)
    requires Linked(db) && Earned(db.requests) && Possible(db, step) && OnFollowUps(step)
    ensures Lifts(db, Apply(db, step), None)
  {
    F.FollowUpStepDoes(db, step);
    FollowUpLiftsNone(db, step);
  }

  lemma QuietApplied(db: Db, step: Step)
    requires Linked(db) && Earned(db.requests) && Possible(db, step)
    requires AtCheckout(step) || IsPart(step) || OnFollowUps(step)
    ensures Lifts(db, Apply(db, step), None)
  {
    if AtCheckout(step) {
      CheckoutApplied(db, step);
    } else if IsPart(step) {
      PartApplied(db, step);
    } else {
      FollowUpApplied(db, step);
    }
  }

  lemma LiftedOnVerdict(db: Db, step: Step)
    requires Linked(db) && Possible(db, step) && OnVerdict(step)
    ensures VerdictPossible(db, step) && LiftedBy(db, step) == LiftOnVerdict(db, step)
  {
  }

  lemma LiftedByStaff(db: Db, step: Step)
    requires Linked(db) && Possible(db, step) && ByStaff(step)
    ensures StaffPossible(db, step) && LiftedBy(db, step) == LiftByStaff(db, step)
  {
  }

  lemma LiftedByJob(db: Db, step: Step)
    requires Linked(db) && Possible(db, step) && ByJob(step)
    ensures JobPossible(db, step) && LiftedBy(db, step) == LiftByJob(db, step)
  {
  }

  lemma LiftedByNone(db: Db, step: Step)
    requires Linked(db) && Possible(db, step) && !OnVerdict(step) && !ByStaff(step) && !ByJob(step)
    ensures LiftedBy(db, step) == None
  {
  }

  lemma StepLifts(db: Db, step: Step)
    requires Inv(db) && Covered(db) && Earned(db.requests)
    requires Possible(db, step) && !OnAccess(step) && !SuspendsOrCancels(step)
    ensures Lifts(db, Apply(db, step), LiftedBy(db, step))
  {
    if OnVerdict(step) {
      LiftedOnVerdict(db, step);
      VerdictApplied(db, step);
    } else if ByStaff(step) {
      LiftedByStaff(db, step);
      StaffApplied(db, step);
    } else if ByJob(step) {
      LiftedByJob(db, step);
      JobApplied(db, step);
    } else {
      LiftedByNone(db, step);
      QuietApplied(db, step);
    }
  }

  lemma LiftingStepCovers(db: Db, step: Step)
    requires Inv(db) && Covered(db) && Earned(db.requests)
    requires Possible(db, step) && !OnAccess(step) && !SuspendsOrCancels(step)
    ensures Covered(Apply(db, step)) <==> !Uncovers(db, step)
    ensures Earned(Apply(db, step).requests)
  {
    R.StepGrows(db, step);
    StepLifts(db, step);
    LiftingCoversIff(db, Apply(db, step), LiftedBy(db, step));
  }

  lemma AccessStepCovers(db: Db, step: Step)
    requires Inv(db) && Covered(db) && Earned(db.requests) && Possible(db, step) && OnAccess(step)
    ensures Covered(Apply(db, step)) <==> !Uncovers(db, step)
    ensures Earned(Apply(db, step).requests)
  {
    F.AccessStepDoes(db, step);
    AccessCoversIff(db, step);
  }

  lemma SuspendingLiftsNone(db: Db, step: Step)
    requires Linked(db) && Possible(db, step) && SuspendsOrCancels(step)
    ensures !Uncovers(db, step)
  {
  }

  /** A step keeps every suspended order covered if and only if it does not uncover one. */
  lemma StepCoversIff(db: Db, step: Step)
    requires Inv(db) && Covered(db) && Earned(db.requests)
    ensures Covered(Apply(db, step)) <==> !Uncovers(db, step)
    ensures Earned(Apply(db, step).requests)
  {
    if !Possible(db, step) {
    } else if OnAccess(step) {
      AccessStepCovers(db, step);
    } else if SuspendsOrCancels(step) {
      SuspendingCovers(db, step);
      SuspendingLiftsNone(db, step);
    } else {
      LiftingStepCovers(db, step);
    }
  }

  // ----- over every run -----

  ghost predicate CoveredAt(db: Db, steps: seq<Step>, n: nat)
    requires Inv(db) && n <= |steps|
  {
    Covered(R.Before(db, steps, n))
  }

  ghost predicate UncoversAt(db: Db, steps: seq<Step>, i: nat)
    requires Inv(db) && i < |steps|
  {
    Uncovers(R.Before(db, steps, i), steps[i])
  }

  lemma CoveredNext(db: Db, steps: seq<Step>, i: nat)
    requires Inv(db) && i < |steps| && CoveredAt(db, steps, i) && Earned(R.Before(db, steps, i).requests)
    ensures CoveredAt(db, steps, i + 1) <==> !UncoversAt(db, steps, i)
    ensures Earned(R.Before(db, steps, i + 1).requests)
  {
    R.BeforeStep(db, steps, i);
    StepCoversIff(R.Before(db, steps, i), steps[i]);
  }

  lemma {:induction false} CoveredUntil(db: Db, steps: seq<Step>, n: nat)
    requires Inv(db) && Covered(db) && Earned(db.requests) && n <= |steps|
    requires forall i | 0 <= i < n :: CoveredAt(db, steps, i) ==> !UncoversAt(db, steps, i)
    ensures CoveredAt(db, steps, n) && Earned(R.Before(db, steps, n).requests)
  {
    if n == 0 {
      R.BeforeFirst(db, steps);
    } else {
      CoveredUntil(db, steps, n - 1);
      CoveredNext(db, steps, n - 1);
    }
  }

  lemma {:induction false} EarnedUntil(db: Db, steps: seq<Step>, n: nat)
    requires Inv(db) && Earned(db.requests) && n <= |steps|
    requires forall i | 0 <= i <= n :: CoveredAt(db, steps, i)
    ensures Earned(R.Before(db, steps, n).requests)
  {
    if n == 0 {
      R.BeforeFirst(db, steps);
    } else {
      EarnedUntil(db, steps, n - 1);
      assert CoveredAt(db, steps, n - 1);
      CoveredNext(db, steps, n - 1);
    }
  }

  /** All through a run every SUSPENDED order has its access suspended if and only if no step of
      the run, when its turn comes, lifts, restores or unflags an access that another suspended
      order shares, or mirrors an order whose flag has been cleared. */
  lemma CoveredIff(db: Db, steps: seq<Step>)
    requires Inv(db) && Covered(db) && Earned(db.requests)
    ensures (forall n | 0 <= n <= |steps| :: CoveredAt(db, steps, n))
      <==> (forall i | 0 <= i < |steps| :: !UncoversAt(db, steps, i))
  {
    if forall n | 0 <= n <= |steps| :: CoveredAt(db, steps, n) {
      forall i | 0 <= i < |steps|
        ensures !UncoversAt(db, steps, i)
      {
        assert CoveredAt(db, steps, i) && CoveredAt(db, steps, i + 1);
        EarnedUntil(db, steps, i);
        CoveredNext(db, steps, i);
      }
    }
    if forall i | 0 <= i < |steps| :: !UncoversAt(db, steps, i) {
      forall n | 0 <= n <= |steps|
        ensures CoveredAt(db, steps, n)
      {
        CoveredUntil(db, steps, n);
      }
    }
  }
}
