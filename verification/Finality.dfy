/** Order statuses that hold: COMPLETED and CANCELLED for ever, a staff suspension until staff
    end it; and what cancelling an order closes. */
module Finality {
  import opened Models
  import opened Credit
  import opened Administration
  import opened Access
  import opened Collection
  import opened Verification
  import opened Webhooks
  import opened Checks
  import opened Invariants
  import opened Preservation
  import opened CreditProofs
  import opened Composites
  import opened Steps
  import F = Effects
  import R = Runs
  import M = Money
  import U = Suspension

  // ----- rows that hold -----

  /** Suspended by staff: no marker of an automatic suspension. */
  predicate StaffSuspended(row: Order) {
    row.status.Suspended? && row.nonpayment.None?
  }

  predicate Over(row: Order) {
    row.status.Completed? || row.status.Cancelled?
  }

  /** No verdict, job or customer changes such a row. */
  predicate Held(row: Order) {
    Over(row) || StaffSuspended(row)
  }

  lemma ResumptionHolds(db: Db, o: OrderId, clock: Clock, x: OrderId)
    requires o < |db.orders| && x < |db.orders| && Held(db.orders[x])
    ensures x < |AfterResumption(db, o, clock).orders| && AfterResumption(db, o, clock).orders[x] == db.orders[x]
  {
    if Resumable(db, o, clock) {
      ResumptionIs(db, o, clock);
    }
  }

  lemma SuccessHolds(db: Db, a: AttemptId, s: Receipt, x: OrderId)
    requires Linked(db) && a < |db.attempts| && x < |db.orders| && Held(db.orders[x])
    ensures var orders := AfterSuccess(db, a, s).orders; x < |orders| && orders[x] == db.orders[x]
  {
  }

  lemma ConfirmedHolds(db: Db, a: AttemptId, s: Receipt, clock: Clock, x: OrderId)
    requires Linked(db) && a < |db.attempts| && x < |db.orders| && Held(db.orders[x])
    ensures var orders := AfterConfirmed(db, a, s, clock).orders; x < |orders| && orders[x] == db.orders[x]
  {
    if !SuccessOutcome(db, a, s.payment).Raised? {
      SuccessHolds(db, a, s, x);
      var resolved := AfterResolution(AfterSuccess(db, a, s), a);
      assert resolved.orders == AfterSuccess(db, a, s).orders;
      ResumptionHolds(resolved, db.attempts[a].installment.order, clock, x);
    }
  }

  lemma VerdictHolds(db: Db, e: nat, a: AttemptId, r: Result, p: Payload, recipient: string, clock: Clock, x: OrderId)
    requires Linked(db) && a < |db.attempts| && e < |db.events| && x < |db.orders| && Held(db.orders[x])
    requires r.Verified? && r.status.Success? ==> r.category.Clean? || r.category.AmountMismatch?
    ensures var orders := AfterVerdict(db, e, a, r, p, recipient, clock).orders;
      x < |orders| && orders[x] == db.orders[x]
  {
    VerdictIs(db, e, a, r, p, recipient, clock);
    if Convincing(db, a, r, p) {
      ConfirmedHolds(db, a, AppliedSuccess(r, p, recipient, clock), clock, x);
    }
  }

  lemma DeliveryHolds(db: Db, d: Delivery, x: OrderId)
    requires Linked(db) && x < |db.orders| && Held(db.orders[x])
    ensures var orders := AfterDelivery(db, d).orders; x < |orders| && orders[x] == db.orders[x]
  {
    if Inquires(db, d) {
      var p := d.payload.value;
      var a := Correlated(db, p).value;
      var middle := AttachedTo(db, d, p, a);
      var r := if d.client.None? then Result.Raised else Checked(middle, a, d.client.value, p.payment);
      if r.Verified? && r.status.Success? {
        SuccessIsCleanOrMismatch(middle, a, d.client, p.payment, r);
      }
      VerdictHolds(middle, |db.events|, a, r, p, d.recipient, d.clock, x);
    }
  }

  lemma CheckHolds(db: Db, a: AttemptId, q: Inquiry, x: OrderId)
    requires Linked(db) && a < |db.attempts| && x < |db.orders| && Held(db.orders[x])
    ensures var orders := AfterStaffCheck(db, a, q).orders; x < |orders| && orders[x] == db.orders[x]
    ensures var orders := AfterStaleCheck(db, a, q).orders; x < |orders| && orders[x] == db.orders[x]
  {
    var r := ResultOf(db, a, q);
    if r.Verified? {
      ConfirmedHolds(db, a, ReceiptOf(r, q), q.clock, x);
    }
    StaleCheckIs(db, a, q);
  }

  lemma AttributionHolds(db: Db, d: Attribution, x: OrderId)
    requires Linked(db) && d.event < |db.events| && d.key in db.installments && x < |db.orders| && Held(db.orders[x])
    ensures var orders := AfterAttribution(db, d).orders; x < |orders| && orders[x] == db.orders[x]
  {
    var (a, carried) := Carrier(db, d);
    AttributionIs(db, d);
    SuccessHolds(carried, a, AttributedReceipt(db, d), x);
  }

  lemma WaiveHolds(db: Db, k: InstallmentKey, today: int, x: OrderId)
    requires Linked(db) && k in db.installments && x < |db.orders| && Held(db.orders[x])
    ensures var orders := AfterWaive(db, k, today).orders; x < |orders| && orders[x] == db.orders[x]
  {
  }

  lemma CheckoutHolds(db: Db, step: Step, x: OrderId)
    requires Linked(db) && AtCheckout(step) && CheckoutPossible(db, step) && x < |db.orders| && Held(db.orders[x])
    ensures var orders := AfterCheckoutStep(db, step).orders; x < |orders| && orders[x] == db.orders[x]
  {
  }

  lemma VerdictStepHolds(db: Db, step: Step, x: OrderId)
    requires Linked(db) && OnVerdict(step) && VerdictPossible(db, step) && x < |db.orders| && Held(db.orders[x])
    ensures var orders := AfterVerdictStep(db, step).orders; x < |orders| && orders[x] == db.orders[x]
  {
    match step
    case Webhook(d) => DeliveryHolds(db, d, x);
    case Record(d) => assert AfterRecording(db, d).orders == db.orders;
    case StaffCheck(a, q) => CheckHolds(db, a, q, x);
    case StaleCheck(a, q) => CheckHolds(db, a, q, x);
    case Attribute(d) => AttributionHolds(db, d, x);
  }

  lemma PartHolds(db: Db, step: Step, x: OrderId)
    requires Linked(db) && IsPart(step) && PartPossible(db, step) && x < |db.orders| && Held(db.orders[x])
    ensures var orders := AfterPart(db, step).orders; x < |orders| && orders[x] == db.orders[x]
  {
    if step.Credit? {
      SuccessHolds(db, step.attempt, step.receipt, x);
    }
  }

  lemma JobHolds(db: Db, step: Step, x: OrderId)
    requires Linked(db) && ByJob(step) && JobPossible(db, step) && x < |db.orders| && Held(db.orders[x])
    ensures var orders := AfterJobStep(db, step).orders; x < |orders| && orders[x] == db.orders[x]
  {
    if step.Resume? {
      ResumptionHolds(db, step.order, step.clock, x);
    }
  }

  lemma FollowUpHolds(db: Db, step: Step, x: OrderId)
    requires OnFollowUps(step) && FollowUpPossible(db, step) && x < |db.orders| && Held(db.orders[x])
    ensures var orders := AfterFollowUpStep(db, step).orders; x < |orders| && orders[x] == db.orders[x]
  {
  }

  /** What changes a row that holds: the marker written or cleared by a suspension or lifting
      still under way, the mirror of a restore, or staff cancelling or restoring the order. */
  predicate Disturbs(db: Db, step: Step, x: OrderId)
    requires x < |db.orders|
  {
    match step
    case Mark(o, now) => o == x && db.orders[x].nonpayment != Some(now)
    case Unmark(o, _) => o == x && db.orders[x].nonpayment.Some?
    case Mirror(o, suspended) => o == x && !suspended && db.orders[x].status.Suspended?
    case CancelOrder(o) => o == x && db.orders[x].status.Suspended?
    case Restore(o, answers) => o == x && Switchable(db, x, false, answers)
    case _ => false
  }

  lemma StaffHolds(db: Db, step: Step, x: OrderId)
    requires Linked(db) && ByStaff(step) && StaffPossible(db, step) && x < |db.orders| && Held(db.orders[x])
    ensures var orders := AfterStaffStep(db, step).orders;
      x < |orders| && (orders[x] == db.orders[x] <==> !Disturbs(db, step, x))
  {
    if step.Waive? {
      WaiveHolds(db, step.installment, step.today, x);
    }
  }

  lemma OverIsUndisturbed(db: Db, step: Step, x: OrderId)
    requires x < |db.orders| && Over(db.orders[x]) && !OnAccess(step)
    ensures !Disturbs(db, step, x) && MarkerAfter(db.orders[x].nonpayment, step, x) == db.orders[x].nonpayment
  {
  }

  lemma AccessHolds(db: Db, step: Step, x: OrderId)
    requires OnAccess(step) && AccessPossible(db, step) && x < |db.orders| && Held(db.orders[x])
    ensures var orders := AfterAccessStep(db, step).orders;
      x < |orders| && (orders[x] == db.orders[x] <==> !Disturbs(db, step, x))
    ensures Over(db.orders[x]) ==>
      AfterAccessStep(db, step).orders[x] == db.orders[x].(nonpayment := MarkerAfter(db.orders[x].nonpayment, step, x))
  {
  }

  lemma StaffStepHolds(db: Db, step: Step, x: OrderId)
    requires Linked(db) && ByStaff(step) && Possible(db, step) && x < |db.orders| && Held(db.orders[x])
    ensures var orders := Apply(db, step).orders;
      x < |orders| && (orders[x] == db.orders[x] <==> !Disturbs(db, step, x))
  {
    F.StaffStepDoes(db, step);
    StaffHolds(db, step, x);
  }

  lemma AccessStepHolds(db: Db, step: Step, x: OrderId)
    requires Linked(db) && OnAccess(step) && Possible(db, step) && x < |db.orders| && Held(db.orders[x])
    ensures var orders := Apply(db, step).orders;
      x < |orders| && (orders[x] == db.orders[x] <==> !Disturbs(db, step, x))
    ensures Over(db.orders[x]) ==>
      Apply(db, step).orders[x] == db.orders[x].(nonpayment := MarkerAfter(db.orders[x].nonpayment, step, x))
  {
    F.AccessStepDoes(db, step);
    AccessHolds(db, step, x);
  }

  /** Nothing disturbs a row by naming what is not there. */
  lemma ImpossibleDisturbsNone(db: Db, step: Step, x: OrderId)
    requires x < |db.orders| && !Possible(db, step)
    ensures !Disturbs(db, step, x) && MarkerAfter(db.orders[x].nonpayment, step, x) == db.orders[x].nonpayment
  {
  }

  lemma QuietStepHolds(db: Db, step: Step, x: OrderId)
    requires Linked(db) && Possible(db, step) && x < |db.orders| && Held(db.orders[x]) && !OnAccess(step)
    requires !ByStaff(step)
    ensures var orders := Apply(db, step).orders; x < |orders| && orders[x] == db.orders[x]
  {
    if AtCheckout(step) {
      F.CheckoutStepDoes(db, step);
      CheckoutHolds(db, step, x);
    } else if OnVerdict(step) {
      F.VerdictStepDoes(db, step);
      VerdictStepHolds(db, step, x);
    } else if IsPart(step) {
      F.PartStepDoes(db, step);
      PartHolds(db, step, x);
    } else if ByJob(step) {
      F.JobStepDoes(db, step);
      JobHolds(db, step, x);
    } else {
      F.FollowUpStepDoes(db, step);
      FollowUpHolds(db, step, x);
    }
  }

  /** The marker of order x after a step that writes or clears it whatever the order has become. */
  function MarkerAfter(marker: Option<int>, step: Step, x: OrderId): Option<int> {
    match step
    case Mark(o, now) => if o == x then Some(now) else marker
    case Unmark(o, _) => if o == x then None else marker
    case _ => marker
  }

  /** A row that holds is changed by the steps that disturb it and by no other; of a COMPLETED
      or CANCELLED order, only the marker. */
  lemma StepHolds(db: Db, step: Step, x: OrderId)
    requires Linked(db) && x < |db.orders| && Held(db.orders[x])
    ensures var orders := Apply(db, step).orders;
      x < |orders| && (orders[x] == db.orders[x] <==> !Disturbs(db, step, x))
    ensures Over(db.orders[x]) ==>
      Apply(db, step).orders[x] == db.orders[x].(nonpayment := MarkerAfter(db.orders[x].nonpayment, step, x))
  {
    if !Possible(db, step) {
      ImpossibleDisturbsNone(db, step, x);
    } else if ByStaff(step) {
      StaffStepHolds(db, step, x);
    } else if OnAccess(step) {
      AccessStepHolds(db, step, x);
    } else {
      QuietStepHolds(db, step, x);
    }
    if Over(db.orders[x]) && !OnAccess(step) {
      OverIsUndisturbed(db, step, x);
    }
  }

  // ----- over every run -----

  function LastMarker(marker: Option<int>, steps: seq<Step>, x: OrderId): Option<int>
    decreases |steps|
  {
    if steps == [] then marker else LastMarker(MarkerAfter(marker, steps[0], x), steps[1..], x)
  }

  /** COMPLETED and CANCELLED are final in every run: of such an order nothing ever changes but
      the marker, which is the last one written or cleared by a call under way. */
  lemma {:induction false} OverIsFinal(db: Db, steps: seq<Step>, o: OrderId)
    requires Inv(db) && o < |db.orders| && Over(db.orders[o])
    ensures var orders := R.Run(db, steps).orders;
      o < |orders| && orders[o] == db.orders[o].(nonpayment := LastMarker(db.orders[o].nonpayment, steps, o))
    decreases |steps|
  {
    if steps == [] {
    } else {
      R.StepIsGood(db, steps[0]);
      StepHolds(db, steps[0], o);
      OverIsFinal(Apply(db, steps[0]), steps[1..], o);
    }
  }

  /** The row of order o after the first n steps is what it was. */
  ghost predicate KeptAt(db: Db, steps: seq<Step>, n: nat, o: OrderId)
    requires Inv(db) && n <= |steps| && o < |db.orders|
  {
    var orders := R.Before(db, steps, n).orders;
    o < |orders| && orders[o] == db.orders[o]
  }

  ghost predicate DisturbedAt(db: Db, steps: seq<Step>, i: nat, o: OrderId)
    requires Inv(db) && i < |steps|
  {
    o < |R.Before(db, steps, i).orders| && Disturbs(R.Before(db, steps, i), steps[i], o)
  }

  lemma KeptNext(db: Db, steps: seq<Step>, i: nat, o: OrderId)
    requires Inv(db) && i < |steps| && o < |db.orders| && Held(db.orders[o]) && KeptAt(db, steps, i, o)
    ensures KeptAt(db, steps, i + 1, o) <==> !DisturbedAt(db, steps, i, o)
  {
    R.BeforeStep(db, steps, i);
    StepHolds(R.Before(db, steps, i), steps[i], o);
  }

  lemma {:induction false} KeptUntil(db: Db, steps: seq<Step>, n: nat, o: OrderId)
    requires Inv(db) && n <= |steps| && o < |db.orders| && Held(db.orders[o])
    requires forall i | 0 <= i < n :: !DisturbedAt(db, steps, i, o)
    ensures KeptAt(db, steps, n, o)
  {
    if n == 0 {
      R.BeforeFirst(db, steps);
    } else {
      KeptUntil(db, steps, n - 1, o);
      KeptNext(db, steps, n - 1, o);
    }
  }

  /** A COMPLETED or CANCELLED order, and one suspended by staff, keeps its row all through a run
      if and only if no step of the run disturbs it when its turn comes. */
  lemma RowKeptIff(db: Db, steps: seq<Step>, o: OrderId)
    requires Inv(db) && o < |db.orders| && Held(db.orders[o])
    ensures (forall n | 0 <= n <= |steps| :: KeptAt(db, steps, n, o))
      <==> (forall i | 0 <= i < |steps| :: !DisturbedAt(db, steps, i, o))
  {
    if forall n | 0 <= n <= |steps| :: KeptAt(db, steps, n, o) {
      forall i | 0 <= i < |steps|
        ensures !DisturbedAt(db, steps, i, o)
      {
        assert KeptAt(db, steps, i, o) && KeptAt(db, steps, i + 1, o);
        KeptNext(db, steps, i, o);
      }
    }
    if forall i | 0 <= i < |steps| :: !DisturbedAt(db, steps, i, o) {
      forall n | 0 <= n <= |steps|
        ensures KeptAt(db, steps, n, o)
      {
        KeptUntil(db, steps, n, o);
      }
    }
  }

  /** No marker of order o is written, and none of its restores or cancellations is committed. */
  predicate Undisturbed(steps: seq<Step>, o: OrderId) {
    forall i | 0 <= i < |steps| ::
      match steps[i]
      case Mark(x, _) => x != o
      case Unmark(x, _) => x != o
      case Mirror(x, suspended) => x != o || suspended
      case CancelOrder(x) => x != o
      case Restore(x, _) => x != o
      case _ => true
  }

  lemma NotDisturbed(db: Db, steps: seq<Step>, i: nat, o: OrderId)
    requires Inv(db) && i < |steps| && Undisturbed(steps, o)
    ensures !DisturbedAt(db, steps, i, o)
  {
  }

  /** A staff suspension outlives every verdict, job and checkout, with its marker still null, as
      long as no marker of that order is written or cleared and no restore or cancellation of it
      is committed. */
  lemma StaffSuspensionPersists(db: Db, steps: seq<Step>, o: OrderId)
    requires Inv(db) && o < |db.orders| && StaffSuspended(db.orders[o]) && Undisturbed(steps, o)
    ensures var orders := R.Run(db, steps).orders; o < |orders| && orders[o] == db.orders[o]
  {
    forall i | 0 <= i < |steps|
      ensures !DisturbedAt(db, steps, i, o)
    {
      NotDisturbed(db, steps, i, o);
    }
    KeptUntil(db, steps, |steps|, o);
    R.BeforeLast(db, steps);
  }

  /** Payments of an order suspended by staff are credited all the same. */
  lemma SuspendedIsStillCredited(db: Db, a: AttemptId, s: Receipt)
    requires Inv(db) && a < |db.attempts| && StaffSuspended(db.orders[db.attempts[a].installment.order])
    requires Checkable(db.attempts[a].status) && IsOpen(db.installments[db.attempts[a].installment].status)
    requires !SucceededSibling(db.attempts, a) && !(Present(s.payment) && PaymentTaken(db.attempts, a, s.payment))
    ensures var k := db.attempts[a].installment; var db' := AfterSuccess(db, a, s);
      && k in db'.installments && db'.installments[k].status.Paid?
      && k.order < |db'.orders| && db'.orders[k.order] == db.orders[k.order]
  {
    AppliedIff(db, a, s.payment);
    SuccessHolds(db, a, s, db.attempts[a].installment.order);
  }

  /** When staff freeze an order, the automatic lifting ends it if and only if the order still
      carries the marker of an earlier automatic suspension, which restoring by staff leaves
      behind, and nothing is past its deadline. */
  lemma FreezeIsLiftedIff(db: Db, o: OrderId, answers: bool, clock: Clock)
    requires o < |db.orders| && Switchable(db, o, true, answers) && o in clock.answers
    ensures var frozen := AfterSwitch(db, o, true, answers);
      |frozen.orders| == |db.orders| &&
      (AfterResumption(frozen, o, clock) != frozen <==>
         db.orders[o].nonpayment.Some? && !U.OverstaysGrace(db, o, clock))
  {
    var frozen := AfterSwitch(db, o, true, answers);
    U.SameLatest(db.requests, frozen.requests, db.orders[o].customer, db.orders[o].course, |db.requests|);
    assert BeyondDeadline(frozen, o, clock) <==> BeyondDeadline(db, o, clock);
    U.OverstaysIff(db, o, clock);
    if Resumable(frozen, o, clock) {
      ResumptionIs(frozen, o, clock);
    }
  }

  // ----- cancelling -----

  /** cancel_order, when it goes through, closes everything open of that order: its open
      installments are CANCELLED and their open attempts EXPIRED; every other row of every
      table is untouched, and so are all totals. */
  lemma CancellationIsExact(db: Db, o: OrderId)
    requires Inv(db) && o < |db.orders| && CancelOrderDecision(db.orders[o].status).Done?
    ensures var db' := AfterCancelOrder(db, o);
      && db'.orders == db.orders[o := db.orders[o].(status := OrderStatus.Cancelled)]
      && db'.installments.Keys == db.installments.Keys
      && (forall k | k in db.installments :: db'.installments[k] ==
            if k.order == o && IsOpen(db.installments[k].status)
            then db.installments[k].(status := InstallmentStatus.Cancelled) else db.installments[k])
      && |db'.attempts| == |db.attempts|
      && (forall a | 0 <= a < |db.attempts| :: var k := db.attempts[a].installment;
            db'.attempts[a] ==
            if k.order == o && IsOpen(db.installments[k].status) && IsNonTerminal(db.attempts[a].status)
            then db.attempts[a].(status := AttemptStatus.Expired) else db.attempts[a])
      && db'.confirmations == db.confirmations && db'.requests == db.requests && db'.events == db.events
  {
    var keys := OpenKeys(db.installments, o, db.orders[o].count);
    forall k | k in db.installments
      ensures k in keys <==> k.order == o && IsOpen(db.installments[k].status)
    {
      assert k == InstallmentKey(k.order, k.sequence);
    }
  }

  /** Afterwards every installment of the order is PAID, WAIVED or CANCELLED, none of their
      attempts but stale ones of settled installments is open, and no total has changed. */
  lemma CancelledOrderIsClosed(db: Db, o: OrderId, x: OrderId)
    requires Inv(db) && o < |db.orders| && CancelOrderDecision(db.orders[o].status).Done?
    ensures var db' := AfterCancelOrder(db, o);
      && (forall k | k in db'.installments && k.order == o ::
        IsSettled(db'.installments[k].status) || db'.installments[k].status.Cancelled?)
      && (forall a | 0 <= a < |db'.attempts| && IsOpen(db.installments[db.attempts[a].installment].status)
            && db.attempts[a].installment.order == o :: !IsNonTerminal(db'.attempts[a].status))
      && M.Total(db', x) == M.Total(db, x)
  {
    CancellationIsExact(db, o);
    CancelOrderKeeps(db, o);
    M.QuietKeepsTotal(db, AfterCancelOrder(db, o), x);
  }

  predicate IsCancelled(db: Db, k: InstallmentKey) {
    k in db.installments && db.installments[k].status.Cancelled?
  }

  lemma CancelledIsNotCredited(db: Db, k: InstallmentKey, a: AttemptId, s: Receipt)
    requires Inv(db) && IsCancelled(db, k) && a < |db.attempts| && db.attempts[a].installment == k
    ensures AfterSuccess(db, a, s) == db
    ensures SuccessOutcome(db, a, s.payment).Raised? || db.attempts[a].status.Succeeded?
  {
    AppliedIff(db, a, s.payment);
  }

  lemma CancelledGrows(db: Db, db': Db, k: InstallmentKey)
    requires Grows(db, db') && IsCancelled(db, k)
    ensures IsCancelled(db', k)
  {
    assert InstallmentGrows(db.installments[k], db'.installments[k]);
  }

  /** A cancelled installment stays cancelled, and whatever happens meanwhile, a success
      verified for any of its attempts leaves the database unchanged. */
  lemma CancelledForGood(db: Db, k: InstallmentKey, steps: seq<Step>, a: AttemptId, s: Receipt)
    requires Inv(db) && IsCancelled(db, k)
    ensures var db' := R.Run(db, steps);
      && IsCancelled(db', k)
      && (a < |db'.attempts| && db'.attempts[a].installment == k ==>
            && AfterSuccess(db', a, s) == db'
            && (SuccessOutcome(db', a, s.payment).Raised? || db'.attempts[a].status.Succeeded?))
  {
    R.RunGrows(db, steps);
    var db' := R.Run(db, steps);
    CancelledGrows(db, db', k);
    if a < |db'.attempts| && db'.attempts[a].installment == k {
      CancelledIsNotCredited(db', k, a, s);
    }
  }

  /** What a cancelled order has received never changes again. */
  lemma CancelledTotalStays(db: Db, db': Db, o: OrderId)
    requires Inv(db) && Grows(db, db') && o < |db.orders| && db.orders[o].status.Cancelled?
    ensures M.Total(db', o) == M.Total(db, o)
  {
    assert SameTerms(db.orders[o], db'.orders[o]);
    assert Matches(db.orders[o].status, db.installments, o, db.orders[o].count);
    forall n: nat | 1 <= n <= db.orders[o].count
      ensures InstallmentKey(o, n) in db.installments
      ensures db'.installments[InstallmentKey(o, n)] == db.installments[InstallmentKey(o, n)]
    {
      assert InstallmentGrows(db.installments[InstallmentKey(o, n)], db'.installments[InstallmentKey(o, n)]);
    }
    SameRowsSameSum(db.installments, db'.installments, o, db.orders[o].count);
  }

  lemma CancelledTotalIsFinal(db: Db, steps: seq<Step>, o: OrderId)
    requires Inv(db) && o < |db.orders| && db.orders[o].status.Cancelled?
    ensures M.Total(R.Run(db, steps), o) == M.Total(db, o)
  {
    R.RunGrows(db, steps);
    CancelledTotalStays(db, R.Run(db, steps), o);
  }

  lemma {:induction false} SameRowsSameSum(
    installments: map<InstallmentKey, Installment>, installments': map<InstallmentKey, Installment>, o: OrderId, n: nat)
    requires forall m: nat | 1 <= m <= n :: var k := InstallmentKey(o, m);
      k in installments && k in installments' && installments'[k] == installments[k]
    ensures TotalPaid(installments', o, n) == TotalPaid(installments, o, n)
  {
    if n == 0 {
    } else {
      SameRowsSameSum(installments, installments', o, n - 1);
    }
  }
}
