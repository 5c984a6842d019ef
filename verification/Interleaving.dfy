/** Deliveries, checks, suspensions and liftings are runs of their parts.  The parts are steps of
    their own, so whatever holds over all runs also holds when other transactions come between
    them. */
module Interleaving {
  import opened Models
  import opened Credit
  import opened Access
  import opened Collection
  import opened Verification
  import opened Webhooks
  import opened Checks
  import opened Invariants
  import opened Preservation
  import opened Composites
  import opened Steps
  import F = Effects
  import R = Runs
  import D = Redelivery
  import U = Suspension

  /** The parts into which the code commits these calls; the lifting that ends a confirmed
      payment has its own parts below. */
  predicate IsFine(step: Step) {
    step.Record? || IsPart(step) || OnAccess(step) || step.Resume?
  }

  ghost predicate Becomes(db: Db, steps: seq<Step>, db': Db) {
    Inv(db) && (forall i | 0 <= i < |steps| :: IsFine(steps[i])) && R.Run(db, steps) == db'
  }

  lemma Nothing(db: Db)
    requires Inv(db)
    ensures Becomes(db, [], db)
  {
  }

  lemma Once(db: Db, step: Step, db': Db)
    requires Inv(db) && IsFine(step) && Apply(db, step) == db'
    ensures Becomes(db, [step], db') && Inv(db')
  {
    R.StepIsGood(db, step);
    R.OneStep(db, step);
  }

  lemma Then(db: Db, some: seq<Step>, middle: Db, more: seq<Step>, db': Db)
    requires Becomes(db, some, middle) && Becomes(middle, more, db')
    ensures Becomes(db, some + more, db')
  {
    R.RunConcat(db, some, more);
  }

  // ----- a confirmed payment -----

  lemma CreditedOnce(db: Db, a: AttemptId, lookup: Lookup, s: Receipt)
    requires Inv(db) && a < |db.attempts| && Supports(db.attempts[a], lookup, s)
    ensures Becomes(db, [Credit(a, lookup, s)], AfterSuccess(db, a, s)) && Inv(AfterSuccess(db, a, s))
  {
    F.CreditDoes(db, a, lookup, s);
    Once(db, Credit(a, lookup, s), AfterSuccess(db, a, s));
  }

  lemma ResolvedOnce(db: Db, a: AttemptId)
    requires Inv(db) && a < |db.attempts|
    ensures Becomes(db, [Resolve(a)], AfterResolution(db, a)) && Inv(AfterResolution(db, a))
  {
    F.ResolveDoes(db, a);
    Once(db, Resolve(a), AfterResolution(db, a));
  }

  lemma CreditLeaves(db: Db, a: AttemptId, s: Receipt)
    requires Linked(db) && a < |db.attempts|
    ensures a < |AfterSuccess(db, a, s).attempts| && |AfterSuccess(db, a, s).orders| == |db.orders|
  {
  }

  lemma CreditedTwice(db: Db, a: AttemptId, lookup: Lookup, s: Receipt)
    requires Inv(db) && a < |db.attempts| && Supports(db.attempts[a], lookup, s)
    ensures a < |AfterSuccess(db, a, s).attempts| && Inv(AfterResolution(AfterSuccess(db, a, s), a))
    ensures |AfterSuccess(db, a, s).orders| == |db.orders|
    ensures Becomes(db, [Credit(a, lookup, s)] + [Resolve(a)], AfterResolution(AfterSuccess(db, a, s), a))
  {
    var credited := AfterSuccess(db, a, s);
    CreditedOnce(db, a, lookup, s);
    CreditLeaves(db, a, s);
    ResolvedOnce(credited, a);
    Then(db, [Credit(a, lookup, s)], credited, [Resolve(a)], AfterResolution(credited, a));
  }

  lemma ResumedOnce(db: Db, o: OrderId, clock: Clock)
    requires Inv(db) && o < |db.orders|
    ensures Becomes(db, [Resume(o, clock)], AfterResumption(db, o, clock)) && Inv(AfterResumption(db, o, clock))
  {
    F.ResumeDoes(db, o, clock);
    Once(db, Resume(o, clock), AfterResumption(db, o, clock));
  }

  /** Credit, resolution of the notifications and lifting of the suspension, one by one. */
  lemma ConfirmedIsARun(db: Db, a: AttemptId, lookup: Lookup, s: Receipt, clock: Clock) returns (steps: seq<Step>)
    requires Inv(db) && a < |db.attempts| && Supports(db.attempts[a], lookup, s)
    requires !SuccessOutcome(db, a, s.payment).Raised?
    ensures Becomes(db, steps, AfterConfirmed(db, a, s, clock))
  {
    var o := db.attempts[a].installment.order;
    var resolved := AfterResolution(AfterSuccess(db, a, s), a);
    CreditedTwice(db, a, lookup, s);
    ResumedOnce(resolved, o, clock);
    Then(db, [Credit(a, lookup, s)] + [Resolve(a)], resolved, [Resume(o, clock)], AfterConfirmed(db, a, s, clock));
    steps := [Credit(a, lookup, s)] + [Resolve(a)] + [Resume(o, clock)];
  }

  // ----- checks -----

  lemma AcceptedSupports(db: Db, a: AttemptId, q: Inquiry)
    requires a < |db.attempts| && Accepts(ResultOf(db, a, q))
    ensures q.client.Some?
    ensures Supports(db.attempts[a], LookupOf(db, a, q.client.value, None), ReceiptOf(ResultOf(db, a, q), q))
  {
    var row := db.attempts[a];
    AcceptedMeansPaid(q.client.value, row.product, row.expected, Candidates(db.events, row.product, row.payment, None));
  }

  lemma FailedIsARun(db: Db, a: AttemptId, client: Client, preferred: Option<string>) returns (steps: seq<Step>)
    requires Inv(db) && a < |db.attempts|
    requires Checked(db, a, client, preferred).Verified? && Checked(db, a, client, preferred).status.Failure?
    ensures Becomes(db, steps, AfterFailure(db, a))
  {
    steps := [Fail(a, LookupOf(db, a, client, preferred))];
    F.FailDoes(db, a, LookupOf(db, a, client, preferred));
    Once(db, steps[0], AfterFailure(db, a));
  }

  /** A staff check is a run of its parts. */
  lemma StaffCheckIsARun(db: Db, a: AttemptId, q: Inquiry) returns (steps: seq<Step>)
    requires Inv(db) && a < |db.attempts|
    ensures Becomes(db, steps, AfterStaffCheck(db, a, q))
  {
    var r := ResultOf(db, a, q);
    StaffCheckIs(db, a, q);
    steps := [];
    Nothing(db);
    if Checkable(db.attempts[a].status) && Accepts(r) && !SuccessOutcome(db, a, r.payment).Raised? {
      AcceptedSupports(db, a, q);
      steps := ConfirmedIsARun(db, a, LookupOf(db, a, q.client.value, None), ReceiptOf(r, q), q.clock);
    } else if Checkable(db.attempts[a].status) && r.Verified? && r.category.Clean? && r.status.Failure? {
      steps := FailedIsARun(db, a, q.client.value, None);
    }
  }

  /** So is the hourly check of one attempt. */
  lemma StaleCheckIsARun(db: Db, a: AttemptId, q: Inquiry) returns (steps: seq<Step>)
    requires Inv(db) && a < |db.attempts|
    ensures Becomes(db, steps, AfterStaleCheck(db, a, q))
  {
    StaleCheckIs(db, a, q);
    if AfterStaleCheck(db, a, q) == AfterStaffCheck(db, a, q) {
      steps := StaffCheckIsARun(db, a, q);
    } else {
      steps := [Bump(a, q.clock.now)];
      F.BumpDoes(db, a, q.clock.now);
      Once(db, Bump(a, q.clock.now), AfterBump(db, a, q.clock.now));
    }
  }

  // ----- deliveries -----

  lemma AppliedSupports(db: Db, a: AttemptId, client: Client, p: Payload, recipient: string, clock: Clock)
    requires a < |db.attempts|
    requires var r := Checked(db, a, client, p.payment); r.Verified? && Convincing(db, a, r, p)
    ensures var r := Checked(db, a, client, p.payment);
      Supports(db.attempts[a], LookupOf(db, a, client, p.payment), AppliedSuccess(r, p, recipient, clock))
  {
    var row := db.attempts[a];
    AcceptedMeansPaid(client, row.product, row.expected, Candidates(db.events, row.product, row.payment, p.payment));
  }

  lemma SavedIsARun(db: Db, e: nat, row: Event) returns (steps: seq<Step>)
    requires Inv(db) && e < |db.events| && row.body == db.events[e].body
    ensures Becomes(db, steps, WithEvent(db, e, row))
  {
    steps := [SaveEvent(e, row)];
    F.SaveEventDoes(db, e, row);
    Once(db, steps[0], WithEvent(db, e, row));
  }

  /** What follows the asking of Tara, but for the saving of the event. */
  function Acted(db: Db, a: AttemptId, r: Result, p: Payload, recipient: string, clock: Clock): Db
    requires Linked(db) && a < |db.attempts|
  {
    if r.Verified? && Convincing(db, a, r, p) then AfterConfirmed(db, a, AppliedSuccess(r, p, recipient, clock), clock)
    else if r.Verified? && (r.category.Clean? || r.category.AmountMismatch?) && r.status.Failure?
      then AfterFailure(db, a)
    else db
  }

  lemma AppliedIsARun(db: Db, a: AttemptId, client: Client, p: Payload, recipient: string, clock: Clock, r: Result)
      returns (steps: seq<Step>)
    requires Inv(db) && a < |db.attempts| && r == Checked(db, a, client, p.payment) && r.Verified?
    requires Convincing(db, a, r, p)
    ensures Becomes(db, steps, AfterConfirmed(db, a, AppliedSuccess(r, p, recipient, clock), clock))
  {
    var s := AppliedSuccess(r, p, recipient, clock);
    if SuccessOutcome(db, a, s.payment).Raised? {
      steps := [];
      Nothing(db);
    } else {
      AppliedSupports(db, a, client, p, recipient, clock);
      steps := ConfirmedIsARun(db, a, LookupOf(db, a, client, p.payment), s, clock);
    }
  }

  lemma ActedIsARun(db: Db, a: AttemptId, client: Option<Client>, p: Payload, recipient: string, clock: Clock,
      r: Result)
      returns (steps: seq<Step>)
    requires Inv(db) && a < |db.attempts| && VerdictOn(db, a, client, p.payment, r)
    ensures Becomes(db, steps, Acted(db, a, r, p, recipient, clock))
  {
    if r.Verified? && Convincing(db, a, r, p) {
      steps := AppliedIsARun(db, a, client.value, p, recipient, clock, r);
    } else if r.Verified? && (r.category.Clean? || r.category.AmountMismatch?) && r.status.Failure? {
      steps := FailedIsARun(db, a, client.value, p.payment);
    } else {
      steps := [];
      Nothing(db);
    }
  }

  lemma ActedKeeps(db: Db, a: AttemptId, client: Option<Client>, p: Payload, recipient: string, clock: Clock, r: Result)
    requires Inv(db) && a < |db.attempts| && VerdictOn(db, a, client, p.payment, r)
    ensures Inv(Acted(db, a, r, p, recipient, clock))
    ensures |Acted(db, a, r, p, recipient, clock).events| == |db.events|
    ensures D.EventsGrow(db.events, Acted(db, a, r, p, recipient, clock).events)
  {
    if r.Verified? && Convincing(db, a, r, p) {
      var s := AppliedSuccess(r, p, recipient, clock);
      if r.status.Success? {
        SuccessIsCleanOrMismatch(db, a, client, p.payment, r);
      }
      ConfirmedKeeps(db, a, s, clock);
      D.ConfirmedEventsGrow(db, a, s, clock);
    } else if r.Verified? && r.status.Failure? {
      FailureKeeps(db, a);
    }
  }

  lemma RefusedIsActed(db: Db, e: nat, a: AttemptId, r: Result, p: Payload, recipient: string, clock: Clock)
    requires Linked(db) && a < |db.attempts| && e < |db.events|
    requires r.Verified? && Convincing(db, a, r, p) && r.status.Success?
    requires SuccessOutcome(db, a, AppliedSuccess(r, p, recipient, clock).payment).Raised?
    ensures ActedAndSaved(db, e, a, r, p, recipient, clock)
  {
  }

  lemma CreditedVerdictIs(db: Db, e: nat, a: AttemptId, r: Result, p: Payload, recipient: string, clock: Clock)
    requires Linked(db) && a < |db.attempts| && e < |db.events|
    requires r.Verified? && Convincing(db, a, r, p) && r.status.Success?
    requires !SuccessOutcome(db, a, AppliedSuccess(r, p, recipient, clock).payment).Raised?
    ensures var confirmed := AfterConfirmed(db, a, AppliedSuccess(r, p, recipient, clock), clock);
      && |confirmed.events| == |db.events|
      && AfterVerdict(db, e, a, r, p, recipient, clock) == confirmed.(events := confirmed.events[e :=
           db.events[e].(reportsSuccess := r.raw.Success?, processing := Processing.Processed)])
  {
  }

  lemma ConvincingIsActed(db: Db, e: nat, a: AttemptId, r: Result, p: Payload, recipient: string, clock: Clock)
    requires Linked(db) && a < |db.attempts| && e < |db.events|
    requires r.Verified? && Convincing(db, a, r, p) && r.status.Success?
    requires var acted := Acted(db, a, r, p, recipient, clock);
      |acted.events| == |db.events| && D.EventsGrow(db.events, acted.events)
    ensures ActedAndSaved(db, e, a, r, p, recipient, clock)
  {
    if SuccessOutcome(db, a, AppliedSuccess(r, p, recipient, clock).payment).Raised? {
      RefusedIsActed(db, e, a, r, p, recipient, clock);
    } else {
      CreditedVerdictIs(db, e, a, r, p, recipient, clock);
    }
  }

  lemma FailureIsActed(db: Db, e: nat, a: AttemptId, r: Result, p: Payload, recipient: string, clock: Clock)
    requires Linked(db) && a < |db.attempts| && e < |db.events|
    requires r.Verified? && !Convincing(db, a, r, p) && r.status.Failure?
    ensures ActedAndSaved(db, e, a, r, p, recipient, clock)
  {
  }

  lemma NothingIsActed(db: Db, e: nat, a: AttemptId, r: Result, p: Payload, recipient: string, clock: Clock)
    requires Linked(db) && a < |db.attempts| && e < |db.events|
    requires r.Verified? ==> !Convincing(db, a, r, p) && !r.status.Failure?
    ensures ActedAndSaved(db, e, a, r, p, recipient, clock)
  {
  }

  /** Apart from the saving of its event, the verdict does what Acted says. */
  ghost predicate ActedAndSaved(db: Db, e: nat, a: AttemptId, r: Result, p: Payload, recipient: string, clock: Clock)
    requires Linked(db) && a < |db.attempts| && e < |db.events|
  {
    var acted := Acted(db, a, r, p, recipient, clock);
    var db' := AfterVerdict(db, e, a, r, p, recipient, clock);
    && e < |db'.events| && e < |acted.events| && db'.events[e].body == acted.events[e].body
    && db' == WithEvent(acted, e, db'.events[e])
  }

  lemma VerdictIsActed(db: Db, e: nat, a: AttemptId, r: Result, p: Payload, recipient: string, clock: Clock)
    requires Linked(db) && a < |db.attempts| && e < |db.events|
    requires r.Verified? && r.status.Success? ==> r.category.Clean? || r.category.AmountMismatch?
    requires var acted := Acted(db, a, r, p, recipient, clock);
      |acted.events| == |db.events| && D.EventsGrow(db.events, acted.events)
    ensures ActedAndSaved(db, e, a, r, p, recipient, clock)
  {
    if r.Verified? && Convincing(db, a, r, p) {
      ConvincingIsActed(db, e, a, r, p, recipient, clock);
    } else if r.Verified? && r.status.Failure? {
      FailureIsActed(db, e, a, r, p, recipient, clock);
    } else {
      NothingIsActed(db, e, a, r, p, recipient, clock);
    }
  }

  lemma VerdictIsARun(db: Db, e: nat, a: AttemptId, client: Option<Client>, p: Payload, recipient: string,
      clock: Clock, r: Result)
      returns (steps: seq<Step>)
    requires Inv(db) && a < |db.attempts| && e < |db.events| && VerdictOn(db, a, client, p.payment, r)
    ensures Becomes(db, steps, AfterVerdict(db, e, a, r, p, recipient, clock))
  {
    if r.Verified? && r.status.Success? {
      SuccessIsCleanOrMismatch(db, a, client, p.payment, r);
    }
    ActedKeeps(db, a, client, p, recipient, clock, r);
    VerdictIsActed(db, e, a, r, p, recipient, clock);
    var acted := Acted(db, a, r, p, recipient, clock);
    var db' := AfterVerdict(db, e, a, r, p, recipient, clock);
    steps := ActedIsARun(db, a, client, p, recipient, clock, r);
    var last := SavedIsARun(acted, e, db'.events[e]);
    Then(db, steps, acted, last, db');
    steps := steps + last;
  }

  lemma RecordedIsARun(db: Db, d: Delivery)
    requires Inv(db)
    ensures Becomes(db, [Record(d)], AfterRecording(db, d)) && Inv(AfterRecording(db, d))
  {
    F.RecordDoes(db, d);
    Once(db, Record(d), AfterRecording(db, d));
  }

  /** A delivery is a run of its parts: what is recorded, what Tara's verdict does, and the
      saving of the event. */
  lemma DeliveryIsARun(db: Db, d: Delivery) returns (steps: seq<Step>)
    requires Inv(db)
    ensures Becomes(db, steps, AfterDelivery(db, d))
  {
    RecordedIsARun(db, d);
    steps := [Record(d)];
    if Inquires(db, d) {
      var p := d.payload.value;
      var a := Correlated(db, p).value;
      var middle := AttachedTo(db, d, p, a);
      assert AfterRecording(db, d) == middle;
      var r := if d.client.None? then Result.Raised else Checked(middle, a, d.client.value, p.payment);
      var more := VerdictIsARun(middle, |db.events|, a, d.client, p, d.recipient, d.clock, r);
      Then(db, steps, middle, more, AfterDelivery(db, d));
      steps := steps + more;
    }
  }

  // ----- suspending and restoring access -----

  lemma FlagKeepsAccess(db: Db, o: OrderId, suspended: bool)
    requires o < |db.orders| && OpenAccess(db, o).Some?
    ensures var flagged := AfterFlag(db, OpenAccess(db, o).value, suspended);
      flagged.orders == db.orders && OpenAccess(flagged, o) == OpenAccess(db, o)
  {
    var flagged := AfterFlag(db, OpenAccess(db, o).value, suspended);
    U.SameLatest(db.requests, flagged.requests, db.orders[o].customer, db.orders[o].course, |db.requests|);
  }

  lemma FlaggedOnce(db: Db, r: RequestId, suspended: bool)
    requires Inv(db) && r < |db.requests| && db.requests[r].access.Some?
    ensures Becomes(db, [Flag(r, suspended)], AfterFlag(db, r, suspended)) && Inv(AfterFlag(db, r, suspended))
  {
    F.FlagDoes(db, r, suspended);
    Once(db, Flag(r, suspended), AfterFlag(db, r, suspended));
  }

  lemma MirroredOnce(db: Db, o: OrderId, suspended: bool)
    requires Inv(db) && AccessPossible(db, Mirror(o, suspended))
    ensures Becomes(db, [Mirror(o, suspended)], AfterMirror(db, o, suspended)) && Inv(AfterMirror(db, o, suspended))
  {
    F.MirrorDoes(db, o, suspended);
    Once(db, Mirror(o, suspended), AfterMirror(db, o, suspended));
  }

  lemma MirroredIsSwitched(db: Db, o: OrderId, suspended: bool, answers: bool)
    requires o < |db.orders| && Switchable(db, o, suspended, answers)
    ensures var flagged := AfterFlag(db, OpenAccess(db, o).value, suspended);
      AccessPossible(flagged, Mirror(o, suspended)) && AfterMirror(flagged, o, suspended) == Switched(db, o, suspended)
  {
    FlagKeepsAccess(db, o, suspended);
  }

  lemma SwitchedIsARun(db: Db, o: OrderId, suspended: bool, answers: bool) returns (steps: seq<Step>)
    requires Inv(db) && o < |db.orders| && Switchable(db, o, suspended, answers)
    ensures Becomes(db, steps, Switched(db, o, suspended)) && Inv(Switched(db, o, suspended))
    ensures steps == [Flag(OpenAccess(db, o).value, suspended), Mirror(o, suspended)]
  {
    var r := OpenAccess(db, o).value;
    var flagged := AfterFlag(db, r, suspended);
    MirroredIsSwitched(db, o, suspended, answers);
    FlaggedOnce(db, r, suspended);
    MirroredOnce(flagged, o, suspended);
    Then(db, [Flag(r, suspended)], flagged, [Mirror(o, suspended)], Switched(db, o, suspended));
    steps := [Flag(r, suspended)] + [Mirror(o, suspended)];
  }

  /** A freeze or a restore by staff is a run of its two commits. */
  lemma SwitchIsARun(db: Db, o: OrderId, suspended: bool, answers: bool) returns (steps: seq<Step>)
    requires Inv(db) && o < |db.orders|
    ensures Becomes(db, steps, AfterSwitch(db, o, suspended, answers))
  {
    if Switchable(db, o, suspended, answers) {
      steps := SwitchedIsARun(db, o, suspended, answers);
    } else {
      steps := [];
      Nothing(db);
    }
  }

  lemma SwitchedIsGood(db: Db, o: OrderId, suspended: bool, answers: bool)
    requires Inv(db) && o < |db.orders| && Switchable(db, o, suspended, answers)
    ensures Inv(Switched(db, o, suspended)) && |Switched(db, o, suspended).orders| == |db.orders|
  {
    SwitchKeeps(db, o, suspended, answers);
  }

  lemma SwitchedThen(db: Db, o: OrderId, suspended: bool, answers: bool, last: Step, db': Db) returns (steps: seq<Step>)
    requires Inv(db) && o < |db.orders| && Switchable(db, o, suspended, answers)
    requires Becomes(Switched(db, o, suspended), [last], db')
    ensures Becomes(db, steps, db')
    ensures steps == [Flag(OpenAccess(db, o).value, suspended), Mirror(o, suspended), last]
  {
    steps := SwitchedIsARun(db, o, suspended, answers);
    Then(db, steps, Switched(db, o, suspended), [last], db');
    steps := steps + [last];
  }

  lemma MarkedOnce(db: Db, o: OrderId, now: int)
    requires Inv(db) && o < |db.orders|
    ensures Becomes(db, [Mark(o, now)], AfterMark(db, o, now))
  {
    F.MarkDoes(db, o, now);
    Once(db, Mark(o, now), AfterMark(db, o, now));
  }

  lemma UnmarkedOnce(db: Db, o: OrderId, today: int)
    requires Inv(db) && o < |db.orders|
    ensures Becomes(db, [Unmark(o, today)], AfterUnmark(db, o, today))
  {
    F.UnmarkDoes(db, o, today);
    Once(db, Unmark(o, today), AfterUnmark(db, o, today));
  }

  /** An automatic suspension is a run of its three commits. */
  lemma SuspensionIsARun(db: Db, o: OrderId, clock: Clock) returns (steps: seq<Step>)
    requires Inv(db) && o < |db.orders|
    ensures Becomes(db, steps, AfterSuspension(db, o, clock))
    ensures Overdue(db, o, clock) && Switchable(db, o, true, o in clock.answers) ==>
      steps == [Flag(OpenAccess(db, o).value, true), Mirror(o, true), Mark(o, clock.now)]
  {
    if Overdue(db, o, clock) && Switchable(db, o, true, o in clock.answers) {
      SwitchedIsGood(db, o, true, o in clock.answers);
      MarkedOnce(Switched(db, o, true), o, clock.now);
      steps := SwitchedThen(db, o, true, o in clock.answers, Mark(o, clock.now), AfterSuspension(db, o, clock));
    } else {
      steps := [];
      Nothing(db);
    }
  }

  /** So is its lifting. */
  lemma ResumptionIsARun(db: Db, o: OrderId, clock: Clock) returns (steps: seq<Step>)
    requires Inv(db) && o < |db.orders|
    ensures Becomes(db, steps, AfterResumption(db, o, clock))
    ensures Resumable(db, o, clock) ==>
      steps == [Flag(OpenAccess(db, o).value, false), Mirror(o, false), Unmark(o, Day(clock.now))]
  {
    if Resumable(db, o, clock) {
      SwitchedIsGood(db, o, false, o in clock.answers);
      UnmarkedOnce(Switched(db, o, false), o, Day(clock.now));
      steps := SwitchedThen(db, o, false, o in clock.answers, Unmark(o, Day(clock.now)), AfterResumption(db, o, clock));
    } else {
      steps := [];
      Nothing(db);
    }
  }
}
