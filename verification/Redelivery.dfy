/** Webhook deliveries: recorded once, applied once, and never silently lost. */
module Redelivery {
  import opened Models
  import opened Credit
  import opened Administration
  import opened Collection
  import opened Verification
  import opened Webhooks
  import opened Checks
  import opened Invariants
  import opened Composites
  import opened Steps
  import F = Effects
  import R = Runs

  // ----- events are for ever -----

  /** Recorded events stay, with their bodies. */
  ghost predicate EventsGrow(events: seq<Event>, events': seq<Event>) {
    && |events| <= |events'|
    && forall e | 0 <= e < |events| :: events'[e].body == events[e].body
  }

  ghost predicate BodiesDistinct(events: seq<Event>) {
    forall x, y | 0 <= x < y < |events| :: events[x].body != events[y].body
  }

  lemma DeliveredGrows(events: seq<Event>, events': seq<Event>, body: string)
    requires EventsGrow(events, events') && Delivered(events, body)
    ensures Delivered(events', body)
  {
    var e :| 0 <= e < |events| && events[e].body == body;
    assert events'[e].body == body;
  }

  lemma ConfirmedEventsGrow(db: Db, a: AttemptId, s: Receipt, clock: Clock)
    requires Linked(db) && a < |db.attempts|
    ensures var db' := AfterConfirmed(db, a, s, clock);
      |db'.events| == |db.events| && EventsGrow(db.events, db'.events)
  {
    if !SuccessOutcome(db, a, s.payment).Raised? {
      var resolved := AfterResolution(AfterSuccess(db, a, s), a);
      assert resolved.events == db.events || resolved.events == ResolvedEvents(db.events, db.attempts[a].product, a);
      assert AfterResumption(resolved, db.attempts[a].installment.order, clock).events == resolved.events;
    }
  }

  /** The verdict credits the payment and marks the event PROCESSED. */
  ghost predicate Applies(db: Db, a: AttemptId, r: Result, p: Payload, s: Receipt)
    requires Linked(db) && a < |db.attempts|
  {
    && r.Verified? && r.status.Success? && !r.category.ProductMismatch? && !r.category.Malformed?
    && !DoubtfulAmount(db, a, r, p) && !SuccessOutcome(db, a, s.payment).Raised?
  }

  lemma AppliedVerdictIs(db: Db, e: nat, a: AttemptId, r: Result, p: Payload, recipient: string, clock: Clock)
    requires Linked(db) && a < |db.attempts| && e < |db.events|
    requires r.Verified? && Applies(db, a, r, p, AppliedSuccess(r, p, recipient, clock))
    ensures var confirmed := AfterConfirmed(db, a, AppliedSuccess(r, p, recipient, clock), clock);
      |confirmed.events| == |db.events| &&
      AfterVerdict(db, e, a, r, p, recipient, clock) ==
        confirmed.(events :=
          confirmed.events[e := db.events[e].(reportsSuccess := r.raw.Success?, processing := Processing.Processed)])
  {
    ConfirmedEventsGrow(db, a, AppliedSuccess(r, p, recipient, clock), clock);
  }

  lemma OtherVerdictIs(db: Db, e: nat, a: AttemptId, r: Result, p: Payload, recipient: string, clock: Clock)
    requires Linked(db) && a < |db.attempts| && e < |db.events|
    requires r.Verified? ==> !Applies(db, a, r, p, AppliedSuccess(r, p, recipient, clock))
    ensures var db' := AfterVerdict(db, e, a, r, p, recipient, clock);
      && |db'.events| == |db.events| && db'.events[e].body == db.events[e].body
      && db'.events[e].attempt == db.events[e].attempt
      && db'.events == db.events[e := db'.events[e]] && |db'.attempts| == |db.attempts|
      && (r.Verified? && r.status.Success? ==> db'.events[e].processing.Failed? && !db'.events[e].failure.NoFailure?)
  {
  }

  lemma VerdictEventsGrow(db: Db, e: nat, a: AttemptId, r: Result, p: Payload, recipient: string, clock: Clock)
    requires Linked(db) && a < |db.attempts| && e < |db.events|
    ensures var db' := AfterVerdict(db, e, a, r, p, recipient, clock);
      |db'.events| == |db.events| && EventsGrow(db.events, db'.events)
  {
    if r.Verified? && Applies(db, a, r, p, AppliedSuccess(r, p, recipient, clock)) {
      AppliedVerdictIs(db, e, a, r, p, recipient, clock);
      ConfirmedEventsGrow(db, a, AppliedSuccess(r, p, recipient, clock), clock);
    } else {
      OtherVerdictIs(db, e, a, r, p, recipient, clock);
    }
  }

  lemma RecordingRecords(db: Db, d: Delivery)
    ensures var db' := AfterRecording(db, d);
      && EventsGrow(db.events, db'.events)
      && (d.payload.None? || Delivered(db.events, d.body) ==> db' == db)
      && (d.payload.Some? && !Delivered(db.events, d.body) ==>
            |db'.events| == |db.events| + 1 && db'.events[|db.events|].body == d.body)
  {
  }

  /** A delivery adds one event with its body, unless the body was delivered before. */
  lemma DeliveryRecords(db: Db, d: Delivery)
    requires Linked(db)
    ensures var db' := AfterDelivery(db, d);
      && EventsGrow(db.events, db'.events)
      && (d.payload.None? || Delivered(db.events, d.body) ==> db' == db)
      && (d.payload.Some? && !Delivered(db.events, d.body) ==>
            |db'.events| == |db.events| + 1 && db'.events[|db.events|].body == d.body)
  {
    RecordingRecords(db, d);
    if Inquires(db, d) {
      var p := d.payload.value;
      var a := Correlated(db, p).value;
      var middle := AttachedTo(db, d, p, a);
      var r := if d.client.None? then Result.Raised else Checked(middle, a, d.client.value, p.payment);
      VerdictEventsGrow(middle, |db.events|, a, r, p, d.recipient, d.clock);
    }
  }

  lemma CheckEventsGrow(db: Db, a: AttemptId, q: Inquiry)
    requires Linked(db) && a < |db.attempts|
    ensures EventsGrow(db.events, AfterStaffCheck(db, a, q).events) && |AfterStaffCheck(db, a, q).events| == |db.events|
    ensures EventsGrow(db.events, AfterStaleCheck(db, a, q).events) && |AfterStaleCheck(db, a, q).events| == |db.events|
  {
    var r := ResultOf(db, a, q);
    if r.Verified? {
      ConfirmedEventsGrow(db, a, ReceiptOf(r, q), q.clock);
    }
    StaleCheckIs(db, a, q);
  }

  lemma AttributionEventsGrow(db: Db, d: Attribution)
    requires Linked(db) && d.event < |db.events| && d.key in db.installments
    ensures EventsGrow(db.events, AfterAttribution(db, d).events) && |AfterAttribution(db, d).events| == |db.events|
  {
    var (a, carried) := Carrier(db, d);
    assert AfterSuccess(carried, a, AttributedReceipt(db, d)).events == db.events;
  }

  lemma StaffKeepEvents(db: Db, step: Step)
    requires Linked(db) && ByStaff(step) && StaffPossible(db, step)
    ensures AfterStaffStep(db, step).events == db.events
  {
    if step.Waive? {
      assert AfterWaive(db, step.installment, step.today).events == db.events;
    }
  }

  lemma JobKeepsEvents(db: Db, step: Step)
    requires Linked(db) && ByJob(step) && JobPossible(db, step)
    ensures AfterJobStep(db, step).events == db.events
  {
    if step.Resume? {
      assert AfterResumption(db, step.order, step.clock).events == db.events;
    }
  }

  lemma FollowUpsKeepEvents(db: Db, step: Step)
    requires OnFollowUps(step) && FollowUpPossible(db, step)
    ensures AfterFollowUpStep(db, step).events == db.events
  {
  }

  lemma AccessKeepsEvents(db: Db, step: Step)
    requires OnAccess(step) && AccessPossible(db, step)
    ensures AfterAccessStep(db, step).events == db.events
  {
  }

  lemma CheckoutKeepsEvents(db: Db, step: Step)
    requires Linked(db) && AtCheckout(step) && CheckoutPossible(db, step)
    ensures AfterCheckoutStep(db, step).events == db.events
  {
  }

  lemma PartEventsGrow(db: Db, step: Step)
    requires Linked(db) && IsPart(step) && PartPossible(db, step)
    ensures EventsGrow(db.events, AfterPart(db, step).events) && |AfterPart(db, step).events| == |db.events|
  {
  }

  /** Only the recording of a delivery adds an event, and only for a body not recorded yet. */
  ghost predicate Records(db: Db, step: Step, events: seq<Event>) {
    && EventsGrow(db.events, events)
    && (|events| > |db.events| ==>
        && (step.Webhook? || step.Record?)
        && !Delivered(db.events, step.delivery.body)
        && |events| == |db.events| + 1
        && events[|db.events|].body == step.delivery.body)
  }

  lemma VerdictRecords(db: Db, step: Step)
    requires Linked(db) && OnVerdict(step) && VerdictPossible(db, step)
    ensures Records(db, step, AfterVerdictStep(db, step).events)
  {
    match step
    case Webhook(d) => DeliveryRecords(db, d);
    case Record(d) => RecordingRecords(db, d);
    case StaffCheck(a, q) => CheckEventsGrow(db, a, q);
    case StaleCheck(a, q) => CheckEventsGrow(db, a, q);
    case Attribute(d) => AttributionEventsGrow(db, d);
  }

  lemma StepRecords(db: Db, step: Step)
    requires Linked(db)
    ensures Records(db, step, Apply(db, step).events)
  {
    if !Possible(db, step) {
    } else if AtCheckout(step) {
      F.CheckoutStepDoes(db, step);
      CheckoutKeepsEvents(db, step);
    } else if OnVerdict(step) {
      F.VerdictStepDoes(db, step);
      VerdictRecords(db, step);
    } else if IsPart(step) {
      F.PartStepDoes(db, step);
      PartEventsGrow(db, step);
    } else if OnAccess(step) {
      F.AccessStepDoes(db, step);
      AccessKeepsEvents(db, step);
    } else if ByStaff(step) {
      F.StaffStepDoes(db, step);
      StaffKeepEvents(db, step);
    } else if ByJob(step) {
      F.JobStepDoes(db, step);
      JobKeepsEvents(db, step);
    } else {
      F.FollowUpStepDoes(db, step);
      FollowUpsKeepEvents(db, step);
    }
  }

  lemma GrownDistinct(events: seq<Event>, events': seq<Event>)
    requires BodiesDistinct(events) && EventsGrow(events, events') && |events'| <= |events| + 1
    requires |events'| > |events| ==> !Delivered(events, events'[|events|].body)
    ensures BodiesDistinct(events')
  {
  }

  /** In every run each body is recorded at most once, and stays recorded. */
  lemma {:induction false} BodiesAreRecordedOnce(db: Db, steps: seq<Step>)
    requires Inv(db) && BodiesDistinct(db.events)
    ensures var events := R.Run(db, steps).events; BodiesDistinct(events) && EventsGrow(db.events, events)
    decreases |steps|
  {
    if steps == [] {
    } else {
      R.StepIsGood(db, steps[0]);
      StepRecords(db, steps[0]);
      GrownDistinct(db.events, Apply(db, steps[0]).events);
      BodiesAreRecordedOnce(Apply(db, steps[0]), steps[1..]);
    }
  }

  lemma {:induction false} DeliveredForEver(db: Db, steps: seq<Step>, body: string)
    requires Inv(db) && Delivered(db.events, body)
    ensures Delivered(R.Run(db, steps).events, body)
    decreases |steps|
  {
    if steps == [] {
    } else {
      R.StepIsGood(db, steps[0]);
      StepRecords(db, steps[0]);
      DeliveredGrows(db.events, Apply(db, steps[0]).events, body);
      DeliveredForEver(Apply(db, steps[0]), steps[1..], body);
    }
  }

  /** Once a body has been accepted, delivering it again changes nothing, however much later
      and whatever Tara would answer by then. */
  lemma RedeliveryChangesNothing(db: Db, first: Delivery, between: seq<Step>, again: Delivery)
    requires Inv(db) && first.payload.Some? && again.body == first.body
    ensures var delivered := Apply(db, Webhook(first));
      Inv(delivered) && Apply(R.Run(delivered, between), Webhook(again)) == R.Run(delivered, between)
  {
    R.StepIsGood(db, Webhook(first));
    DeliveryRecords(db, first);
    var delivered := Apply(db, Webhook(first));
    if !Delivered(db.events, first.body) {
      assert delivered.events[|db.events|].body == first.body;
    }
    DeliveredForEver(delivered, between, first.body);
    DeliveryRecords(R.Run(delivered, between), again);
  }

  // ----- nothing is lost -----

  /** What became of the event at e: applied to a, which then is SUCCEEDED, or left FAILED
      with its reason for staff to see. */
  ghost predicate Accounted(db: Db, e: nat, a: AttemptId) {
    && e < |db.events| && a < |db.attempts| && db.events[e].attempt == Some(a)
    && (if db.events[e].processing.Failed? then !db.events[e].failure.NoFailure?
        else db.events[e].processing.Processed? && db.attempts[a].status.Succeeded?)
  }

  lemma AppliedSucceeds(db: Db, a: AttemptId, s: Receipt, clock: Clock)
    requires Linked(db) && a < |db.attempts| && !SuccessOutcome(db, a, s.payment).Raised?
    ensures var db' := AfterConfirmed(db, a, s, clock);
      |db'.attempts| == |db.attempts| && db'.attempts[a].status.Succeeded?
  {
    var after := AfterSuccess(db, a, s);
    assert after.attempts[a].status.Succeeded?;
    assert AfterConfirmed(db, a, s, clock).attempts == after.attempts;
  }

  lemma VerdictIsAccounted(db: Db, e: nat, a: AttemptId, r: Result, p: Payload, recipient: string, clock: Clock)
    requires Linked(db) && a < |db.attempts| && e < |db.events| && db.events[e].attempt == Some(a)
    requires r.Verified? && r.status.Success?
    ensures Accounted(AfterVerdict(db, e, a, r, p, recipient, clock), e, a)
  {
    var s := AppliedSuccess(r, p, recipient, clock);
    if Applies(db, a, r, p, s) {
      AppliedVerdictIs(db, e, a, r, p, recipient, clock);
      AppliedSucceeds(db, a, s, clock);
    } else {
      OtherVerdictIs(db, e, a, r, p, recipient, clock);
    }
  }

  /** When Tara confirms the payment a new delivery reports, the payment is either credited or
      visibly refused. */
  lemma SuccessIsNeverLost(db: Db, d: Delivery)
    requires Linked(db) && Inquires(db, d) && d.client.Some?
    ensures var p := d.payload.value;
      var a := Correlated(db, p).value;
      var r := Checked(AttachedTo(db, d, p, a), a, d.client.value, p.payment);
      r.Verified? && r.status.Success? ==> Accounted(AfterDelivery(db, d), |db.events|, a)
  {
    var p := d.payload.value;
    var a := Correlated(db, p).value;
    var middle := AttachedTo(db, d, p, a);
    var r := Checked(middle, a, d.client.value, p.payment);
    if r.Verified? && r.status.Success? {
      VerdictIsAccounted(middle, |db.events|, a, r, p, d.recipient, d.clock);
    }
  }
}
