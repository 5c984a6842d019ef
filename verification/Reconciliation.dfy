/** ReconciliationService: the hourly run as a run of steps, and its bounded checks. */
module Reconciliation {
  import opened Models
  import opened Credit
  import opened Administration
  import opened Checkout
  import opened Verification
  import opened Webhooks
  import opened Checks
  import opened Collection
  import opened Invariants
  import opened Composites
  import opened Steps
  import F = Effects
  import R = Runs

  // ----- bounded checks -----

  ghost predicate ChecksBounded(attempts: seq<Attempt>) {
    forall a | 0 <= a < |attempts| :: attempts[a].checks <= MAX_CHECKS
  }

  /** From the tenth inconclusive check on, an attempt is not PENDING. */
  ghost predicate GivenUp(attempts: seq<Attempt>) {
    forall a | 0 <= a < |attempts| :: attempts[a].checks >= MAX_CHECKS ==> !attempts[a].status.Pending?
  }

  /** A row that no inconclusive check has touched: nothing but a new attempt starts PENDING. */
  ghost predicate Calm(row: Attempt, row': Attempt) {
    row'.checks == row.checks && (row'.status.Pending? ==> row.status.Pending?)
  }

  ghost predicate CalmAttempts(attempts: seq<Attempt>, attempts': seq<Attempt>) {
    && |attempts| <= |attempts'|
    && (forall a | 0 <= a < |attempts| :: Calm(attempts[a], attempts'[a]))
    && (forall a | |attempts| <= a < |attempts'| :: attempts'[a].checks == 0)
  }

  lemma SuccessIsCalm(db: Db, a: AttemptId, s: Receipt)
    requires Linked(db) && a < |db.attempts|
    ensures CalmAttempts(db.attempts, AfterSuccess(db, a, s).attempts)
  {
  }

  lemma ConfirmedIsCalm(db: Db, a: AttemptId, s: Receipt, clock: Clock)
    requires Linked(db) && a < |db.attempts|
    ensures CalmAttempts(db.attempts, AfterConfirmed(db, a, s, clock).attempts)
  {
    SuccessIsCalm(db, a, s);
    if !SuccessOutcome(db, a, s.payment).Raised? {
      var resolved := AfterResolution(AfterSuccess(db, a, s), a);
      assert AfterResumption(resolved, db.attempts[a].installment.order, clock).attempts
        == AfterSuccess(db, a, s).attempts;
    }
  }

  lemma FailureIsCalm(db: Db, a: AttemptId)
    requires Linked(db) && a < |db.attempts|
    ensures CalmAttempts(db.attempts, AfterFailure(db, a).attempts)
  {
  }

  lemma DeliveryIsCalm(db: Db, d: Delivery)
    requires Linked(db)
    ensures CalmAttempts(db.attempts, AfterDelivery(db, d).attempts)
  {
    if Inquires(db, d) {
      var p := d.payload.value;
      var a := Correlated(db, p).value;
      var middle := AttachedTo(db, d, p, a);
      var r := if d.client.None? then Result.Raised else Checked(middle, a, d.client.value, p.payment);
      if r.Verified? && r.status.Success? {
        SuccessIsCleanOrMismatch(middle, a, d.client, p.payment, r);
      }
      VerdictIsCalm(middle, |db.events|, a, r, p, d.recipient, d.clock);
    }
  }

  lemma VerdictIsCalm(db: Db, e: nat, a: AttemptId, r: Result, p: Payload, recipient: string, clock: Clock)
    requires Linked(db) && a < |db.attempts| && e < |db.events|
    requires r.Verified? && r.status.Success? ==> r.category.Clean? || r.category.AmountMismatch?
    ensures CalmAttempts(db.attempts, AfterVerdict(db, e, a, r, p, recipient, clock).attempts)
  {
    VerdictIs(db, e, a, r, p, recipient, clock);
    if Convincing(db, a, r, p) {
      ConfirmedIsCalm(db, a, AppliedSuccess(r, p, recipient, clock), clock);
    }
    FailureIsCalm(db, a);
  }

  lemma StaffCheckIsCalm(db: Db, a: AttemptId, q: Inquiry)
    requires Linked(db) && a < |db.attempts|
    ensures CalmAttempts(db.attempts, AfterStaffCheck(db, a, q).attempts)
  {
    var r := ResultOf(db, a, q);
    if r.Verified? {
      ConfirmedIsCalm(db, a, ReceiptOf(r, q), q.clock);
    }
    FailureIsCalm(db, a);
  }

  lemma AttributionIsCalm(db: Db, d: Attribution)
    requires Linked(db) && d.event < |db.events| && d.key in db.installments
    ensures CalmAttempts(db.attempts, AfterAttribution(db, d).attempts)
  {
    var (a, carried) := Carrier(db, d);
    AttributionIs(db, d);
    SuccessIsCalm(carried, a, AttributedReceipt(db, d));
  }

  lemma CurrentIsCalm(db: Db, k: InstallmentKey, product: string)
    requires k in db.installments
    ensures CalmAttempts(db.attempts, AfterCurrentAttempt(db, k, product).attempts)
  {
  }

  lemma LinkIsCalm(db: Db, a: AttemptId, link: Option<string>)
    requires a < |db.attempts|
    ensures CalmAttempts(db.attempts, AfterLink(db, a, link).attempts)
  {
  }

  lemma MoveIsCalm(db: Db, a: AttemptId, status: AttemptStatus)
    requires a < |db.attempts| && !status.Pending?
    ensures CalmAttempts(db.attempts, AfterMove(db, a, status).attempts)
  {
  }

  lemma WaiveIsCalm(db: Db, k: InstallmentKey, today: int)
    requires Linked(db) && k in db.installments
    ensures CalmAttempts(db.attempts, AfterWaive(db, k, today).attempts)
  {
  }

  lemma CheckoutIsCalm(db: Db, step: Step)
    requires Linked(db) && AtCheckout(step) && CheckoutPossible(db, step)
    ensures CalmAttempts(db.attempts, AfterCheckoutStep(db, step).attempts)
  {
    match step
    case Place(_, _, _, _, _) => assert AfterCheckoutStep(db, step).attempts == db.attempts;
    case Reopen(_) => assert AfterCheckoutStep(db, step).attempts == db.attempts;
    case CurrentAttempt(k, product) => CurrentIsCalm(db, k, product);
    case SaveLink(a, link) => LinkIsCalm(db, a, link);
    case Move(a, status) => MoveIsCalm(db, a, status);
    case Recheck(a) => MoveIsCalm(db, a, AttemptStatus.Succeeded);
  }

  lemma VerdictStepIsCalm(db: Db, step: Step)
    requires Linked(db) && OnVerdict(step) && VerdictPossible(db, step) && !step.StaleCheck?
    ensures CalmAttempts(db.attempts, AfterVerdictStep(db, step).attempts)
  {
    match step
    case Webhook(d) => DeliveryIsCalm(db, d);
    case Record(d) => assert AfterRecording(db, d).attempts == db.attempts;
    case StaffCheck(a, q) => StaffCheckIsCalm(db, a, q);
    case Attribute(d) => AttributionIsCalm(db, d);
  }

  lemma PartIsCalm(db: Db, step: Step)
    requires Linked(db) && IsPart(step) && PartPossible(db, step) && !step.Bump?
    ensures CalmAttempts(db.attempts, AfterPart(db, step).attempts)
  {
    match step
    case Credit(a, _, s) => SuccessIsCalm(db, a, s);
    case Fail(a, _) => FailureIsCalm(db, a);
    case Resolve(_) => assert AfterPart(db, step).attempts == db.attempts;
    case SaveEvent(_, _) => assert AfterPart(db, step).attempts == db.attempts;
  }

  lemma AccessIsCalm(db: Db, step: Step)
    requires OnAccess(step) && AccessPossible(db, step)
    ensures AfterAccessStep(db, step).attempts == db.attempts
  {
  }

  lemma FollowUpIsCalm(db: Db, step: Step)
    requires OnFollowUps(step) && FollowUpPossible(db, step)
    ensures AfterFollowUpStep(db, step).attempts == db.attempts
  {
  }

  lemma StaffIsCalm(db: Db, step: Step)
    requires Linked(db) && ByStaff(step) && StaffPossible(db, step)
    ensures CalmAttempts(db.attempts, AfterStaffStep(db, step).attempts)
  {
    if step.Waive? {
      WaiveIsCalm(db, step.installment, step.today);
    }
  }

  lemma JobIsCalm(db: Db, step: Step)
    requires Linked(db) && ByJob(step) && JobPossible(db, step)
    ensures CalmAttempts(db.attempts, AfterJobStep(db, step).attempts)
  {
    if !step.Expire? {
      assert AfterJobStep(db, step).attempts == db.attempts;
    }
  }

  lemma StepIsCalm(db: Db, step: Step)
    requires Linked(db) && !step.StaleCheck? && !step.Bump?
    ensures CalmAttempts(db.attempts, Apply(db, step).attempts)
  {
    if !Possible(db, step) {
    } else if AtCheckout(step) {
      F.CheckoutStepDoes(db, step);
      CheckoutIsCalm(db, step);
    } else if OnVerdict(step) {
      F.VerdictStepDoes(db, step);
      VerdictStepIsCalm(db, step);
    } else if IsPart(step) {
      F.PartStepDoes(db, step);
      PartIsCalm(db, step);
    } else if OnAccess(step) {
      F.AccessStepDoes(db, step);
      AccessIsCalm(db, step);
    } else if ByStaff(step) {
      F.StaffStepDoes(db, step);
      StaffIsCalm(db, step);
    } else if ByJob(step) {
      F.JobStepDoes(db, step);
      JobIsCalm(db, step);
    } else {
      F.FollowUpStepDoes(db, step);
      FollowUpIsCalm(db, step);
    }
  }

  // ----- the selection -----

  /** The run under way checks what it selected when it began, each attempt once; there is only
      one run at a time, and one that died is followed by another selection. */
  predicate Allowed(db: Db, selected: set<AttemptId>, step: Step) {
    match step
    case Select(chosen, now) => forall a | a in chosen :: a < |db.attempts| && Selectable(db.attempts[a], now)
    case Bump(a, _) => a in selected
    case StaleCheck(a, _) => a in selected
    case _ => true
  }

  function Remaining(selected: set<AttemptId>, step: Step): set<AttemptId> {
    match step
    case Select(chosen, _) => chosen
    case Bump(a, _) => selected - {a}
    case StaleCheck(a, _) => selected - {a}
    case _ => selected
  }

  ghost predicate OneJob(db: Db, steps: seq<Step>, selected: set<AttemptId>)
    requires Inv(db)
    decreases |steps|
  {
    steps == [] ||
    (R.StepIsGood(db, steps[0]);
     Allowed(db, selected, steps[0]) && OneJob(Apply(db, steps[0]), steps[1..], Remaining(selected, steps[0])))
  }

  /** What is selected can be counted once more. */
  ghost predicate Room(attempts: seq<Attempt>, selected: set<AttemptId>) {
    forall a | a in selected :: a < |attempts| && attempts[a].checks < MAX_CHECKS
  }

  ghost predicate Counted(attempts: seq<Attempt>, selected: set<AttemptId>) {
    ChecksBounded(attempts) && GivenUp(attempts) && Room(attempts, selected)
  }

  lemma CalmKeepsCounted(attempts: seq<Attempt>, attempts': seq<Attempt>, selected: set<AttemptId>)
    requires Counted(attempts, selected) && CalmAttempts(attempts, attempts')
    ensures Counted(attempts', selected)
  {
    forall a | 0 <= a < |attempts|
      ensures Calm(attempts[a], attempts'[a])
    {
    }
  }

  /** The only step that counts: never beyond ten, and the tenth time PENDING is given up. */
  lemma BumpKeepsCounted(db: Db, a: AttemptId, now: int, selected: set<AttemptId>)
    requires Counted(db.attempts, selected) && a in selected
    ensures Counted(AfterBump(db, a, now).attempts, selected - {a})
  {
  }

  lemma StaleCheckKeepsCounted(db: Db, a: AttemptId, q: Inquiry, selected: set<AttemptId>)
    requires Linked(db) && Counted(db.attempts, selected) && a in selected
    ensures Counted(AfterStaleCheck(db, a, q).attempts, selected - {a})
  {
    StaleCheckIs(db, a, q);
    if AfterStaleCheck(db, a, q) == AfterStaffCheck(db, a, q) {
      StaffCheckIsCalm(db, a, q);
      CalmKeepsCounted(db.attempts, AfterStaffCheck(db, a, q).attempts, selected - {a});
    } else {
      BumpKeepsCounted(db, a, q.clock.now, selected);
    }
  }

  lemma StaleCheckStepCounts(db: Db, a: AttemptId, q: Inquiry, selected: set<AttemptId>)
    requires Linked(db) && Counted(db.attempts, selected) && a in selected
    ensures Counted(Apply(db, StaleCheck(a, q)).attempts, selected - {a})
  {
    F.StaleCheckDoes(db, a, q);
    StaleCheckKeepsCounted(db, a, q, selected);
  }

  lemma BumpStepCounts(db: Db, a: AttemptId, now: int, selected: set<AttemptId>)
    requires Linked(db) && Counted(db.attempts, selected) && a in selected
    ensures Counted(Apply(db, Bump(a, now)).attempts, selected - {a})
  {
    F.BumpDoes(db, a, now);
    BumpKeepsCounted(db, a, now, selected);
  }

  lemma StepKeepsCounted(db: Db, step: Step, selected: set<AttemptId>)
    requires Linked(db) && Counted(db.attempts, selected) && Allowed(db, selected, step)
    ensures Counted(Apply(db, step).attempts, Remaining(selected, step))
  {
    if step.StaleCheck? {
      StaleCheckStepCounts(db, step.attempt, step.inquiry, selected);
    } else if step.Bump? {
      BumpStepCounts(db, step.attempt, step.now, selected);
    } else if step.Select? {
      F.SelectDoes(db, step.chosen, step.now);
    } else {
      StepIsCalm(db, step);
      CalmKeepsCounted(db.attempts, Apply(db, step).attempts, selected);
    }
  }

  /** In every run in which the hourly job checks what it selected, no attempt is checked
      inconclusively more than ten times, and one that was, is no longer PENDING. */
  lemma {:induction false} ChecksEnd(db: Db, steps: seq<Step>, selected: set<AttemptId>)
    requires Inv(db) && Counted(db.attempts, selected) && OneJob(db, steps, selected)
    ensures var attempts := R.Run(db, steps).attempts; ChecksBounded(attempts) && GivenUp(attempts)
    decreases |steps|
  {
    if steps == [] {
    } else {
      R.StepIsGood(db, steps[0]);
      StepKeepsCounted(db, steps[0], selected);
      ChecksEnd(Apply(db, steps[0]), steps[1..], Remaining(selected, steps[0]));
    }
  }

  // ----- the collection run as steps -----

  function Suspensions(n: nat, count: nat, clock: Clock): (r: seq<Step>)
    requires n <= count
    ensures forall i | 0 <= i < |r| :: r[i].Suspend?
    decreases count - n
  {
    if n == count then [] else Suspensions(n + 1, count, clock) + [Suspend(n, clock)]
  }

  function Resumptions(n: nat, count: nat, clock: Clock): (r: seq<Step>)
    requires n <= count
    ensures forall i | 0 <= i < |r| :: r[i].Resume?
    decreases count - n
  {
    if n == count then [] else Resumptions(n + 1, count, clock) + [Resume(n, clock)]
  }

  function CollectionSteps(count: nat, clock: Clock): seq<Step> {
    [Step.MarkDue(Day(clock.now)), Step.MarkLate(Day(clock.now))] + Suspensions(0, count, clock) +
      Resumptions(0, count, clock)
  }

  lemma {:induction false} SuspensionsAre(db: Db, n: nat, clock: Clock, after: Db)
    requires Inv(db) && n <= |db.orders| && after == SuspendedFrom(db, n, clock)
    ensures R.Run(db, Suspensions(n, |db.orders|, clock)) == after && |after.orders| == |db.orders|
    decreases |db.orders| - n
  {
    if n == |db.orders| {
    } else {
      var before := SuspendedFrom(db, n + 1, clock);
      SuspensionsAre(db, n + 1, clock, before);
      F.SuspendDoes(before, n, clock);
      R.OneMore(db, Suspensions(n + 1, |db.orders|, clock), before, Suspend(n, clock), after);
    }
  }

  lemma {:induction false} ResumptionsAre(db: Db, n: nat, clock: Clock, after: Db)
    requires Inv(db) && n <= |db.orders| && after == ResumedFrom(db, n, clock)
    ensures R.Run(db, Resumptions(n, |db.orders|, clock)) == after && |after.orders| == |db.orders|
    decreases |db.orders| - n
  {
    if n == |db.orders| {
    } else {
      var before := ResumedFrom(db, n + 1, clock);
      ResumptionsAre(db, n + 1, clock, before);
      F.ResumeDoes(before, n, clock);
      R.OneMore(db, Resumptions(n + 1, |db.orders|, clock), before, Resume(n, clock), after);
    }
  }

  lemma MarkingIs(db: Db, clock: Clock, marked: Db)
    requires Inv(db) && marked == Marked(db, clock)
    ensures R.Run(db, [Step.MarkDue(Day(clock.now)), Step.MarkLate(Day(clock.now))]) == marked
    ensures Inv(marked) && |marked.orders| == |db.orders|
  {
    var due := AfterMarkDue(db, Day(clock.now));
    F.MarkDueDoes(db, Day(clock.now));
    R.OneStep(db, Step.MarkDue(Day(clock.now)));
    F.MarkLateDoes(due, Day(clock.now));
    R.OneMore(db, [Step.MarkDue(Day(clock.now))], due, Step.MarkLate(Day(clock.now)), marked);
  }

  /** The whole collection run is a run of steps, so it keeps whatever runs keep. */
  lemma CollectionIsARun(db: Db, clock: Clock)
    requires Inv(db)
    ensures R.Run(db, CollectionSteps(|db.orders|, clock)) == AfterRun(db, clock)
  {
    var n := |db.orders|;
    var marks := [Step.MarkDue(Day(clock.now)), Step.MarkLate(Day(clock.now))];
    var marked := Marked(db, clock);
    MarkingIs(db, clock, marked);
    R.RunConcat(db, marks, Suspensions(0, n, clock));
    var suspended := SuspendedFrom(marked, 0, clock);
    SuspensionsAre(marked, 0, clock, suspended);
    R.RunConcat(db, marks + Suspensions(0, n, clock), Resumptions(0, n, clock));
    ResumptionsAre(suspended, 0, clock, AfterRun(db, clock));
  }

  // ----- the hourly run -----

  /** What one hourly run finds to do: the stale attempts, the steps of the two workers, the
      follow-ups missing, and the orders to expire. */
  datatype Work = Work(checks: seq<(AttemptId, Inquiry)>, jobs: seq<Step>, repairs: seq<Step>, expiries: seq<OrderId>)

  predicate IsJob(step: Step) {
    step.Deliver? || step.Provision?
  }

  predicate IsRepair(step: Step) {
    step.RepairConfirmation? || step.RepairRequest?
  }

  function Chosen(checks: seq<(AttemptId, Inquiry)>): set<AttemptId> {
    set i | 0 <= i < |checks| :: checks[i].0
  }

  /** The query names each attempt once. */
  predicate OnceEach(checks: seq<(AttemptId, Inquiry)>) {
    forall i, j | 0 <= i < j < |checks| :: checks[i].0 != checks[j].0
  }

  predicate WellFormed(db: Db, work: Work, now: int) {
    && OnceEach(work.checks) && Allowed(db, {}, Select(Chosen(work.checks), now))
    && (forall i | 0 <= i < |work.jobs| :: IsJob(work.jobs[i]))
    && (forall i | 0 <= i < |work.repairs| :: IsRepair(work.repairs[i]))
  }

  function CheckSteps(checks: seq<(AttemptId, Inquiry)>): seq<Step> {
    if checks == [] then [] else [StaleCheck(checks[0].0, checks[0].1)] + CheckSteps(checks[1..])
  }

  function ExpirySteps(orders: seq<OrderId>): (r: seq<Step>)
    ensures |r| == |orders|
    ensures forall i | 0 <= i < |r| :: r[i].Expire?
  {
    seq(|orders|, i requires 0 <= i < |orders| => Expire(orders[i]))
  }

  function FollowUpSteps(work: Work, now: int): seq<Step> {
    [Select(Chosen(work.checks), now)] + CheckSteps(work.checks) + work.jobs + work.repairs
  }

  /** The collection of installments runs over the orders there are when it begins. */
  function LaterSteps(count: nat, work: Work, clock: Clock): seq<Step> {
    CollectionSteps(count, clock) + ExpirySteps(work.expiries)
  }

  /** The whole hourly run. */
  ghost function HourlySteps(db: Db, work: Work, clock: Clock): seq<Step>
    requires Inv(db)
  {
    var followUps := FollowUpSteps(work, clock.now);
    followUps + LaterSteps(|R.Run(db, followUps).orders|, work, clock)
  }

  /** _run_locked: verification first, then the workers, the repairs, the collection of
      installments and, last, the expiry of orders. */
  method RunLocked(db: Database, work: Work, clock: Clock)
    requires Inv(db.State()) && WellFormed(db.State(), work, clock.now)
    modifies db
    ensures db.State() == R.Run(old(db.State()), HourlySteps(old(db.State()), work, clock))
  {
    ghost var start := db.State();
    var selection := [Select(Chosen(work.checks), clock.now)];
    R.ExecuteAll(db, selection);
    R.ExecuteAll(db, CheckSteps(work.checks));
    R.ExecuteAll(db, work.jobs);
    R.ExecuteAll(db, work.repairs);
    R.RunConcat(start, selection, CheckSteps(work.checks));
    R.RunConcat(start, selection + CheckSteps(work.checks), work.jobs);
    R.RunConcat(start, selection + CheckSteps(work.checks) + work.jobs, work.repairs);
    ghost var followed := db.State();
    CollectionIsARun(followed, clock);
    Collection.Run(db, clock);
    R.RunConcat(followed, CollectionSteps(|followed.orders|, clock), ExpirySteps(work.expiries));
    R.ExecuteAll(db, ExpirySteps(work.expiries));
    R.RunConcat(start, FollowUpSteps(work, clock.now), LaterSteps(|followed.orders|, work, clock));
  }

  predicate Counts(step: Step) {
    step.Select? || step.Bump? || step.StaleCheck?
  }

  lemma {:induction false} OthersAreAllowed(db: Db, steps: seq<Step>, selected: set<AttemptId>)
    requires Inv(db) && forall i | 0 <= i < |steps| :: !Counts(steps[i])
    ensures OneJob(db, steps, selected)
    decreases |steps|
  {
    if steps == [] {
    } else {
      assert !Counts(steps[0]);
      R.StepIsGood(db, steps[0]);
      OthersAreAllowed(Apply(db, steps[0]), steps[1..], selected);
    }
  }

  lemma FirstAllowed(db: Db, step: Step, rest: seq<Step>, selected: set<AttemptId>)
    requires Inv(db) && Inv(Apply(db, step)) && Allowed(db, selected, step)
    requires OneJob(Apply(db, step), rest, Remaining(selected, step))
    ensures OneJob(db, [step] + rest, selected)
  {
    assert ([step] + rest)[1..] == rest;
  }

  lemma ChosenShrinks(checks: seq<(AttemptId, Inquiry)>, selected: set<AttemptId>)
    requires checks != [] && OnceEach(checks) && Chosen(checks) <= selected
    ensures checks[0].0 in selected && OnceEach(checks[1..]) && Chosen(checks[1..]) <= selected - {checks[0].0}
  {
    assert checks[0].0 in Chosen(checks);
    forall a | a in Chosen(checks[1..])
      ensures a in selected && a != checks[0].0
    {
      var i :| 0 <= i < |checks[1..]| && checks[1..][i].0 == a;
      assert checks[i + 1].0 == a && a in Chosen(checks);
    }
  }

  lemma {:induction false} ChecksAreAllowed(
    db: Db, checks: seq<(AttemptId, Inquiry)>, rest: seq<Step>, selected: set<AttemptId>)
    requires Inv(db) && OnceEach(checks) && Chosen(checks) <= selected
    requires forall i | 0 <= i < |rest| :: !Counts(rest[i])
    ensures OneJob(db, CheckSteps(checks) + rest, selected)
    decreases |checks|
  {
    if checks == [] {
      assert CheckSteps(checks) + rest == rest;
      OthersAreAllowed(db, rest, selected);
    } else {
      var step := StaleCheck(checks[0].0, checks[0].1);
      ChosenShrinks(checks, selected);
      R.StepIsGood(db, step);
      ChecksAreAllowed(Apply(db, step), checks[1..], rest, selected - {checks[0].0});
      FirstAllowed(db, step, CheckSteps(checks[1..]) + rest, selected);
      assert CheckSteps(checks) + rest == [step] + (CheckSteps(checks[1..]) + rest);
    }
  }

  lemma RunStepsAre(work: Work, now: int, later: seq<Step>)
    ensures FollowUpSteps(work, now) + later ==
      [Select(Chosen(work.checks), now)] + (CheckSteps(work.checks) + (work.jobs + work.repairs + later))
  {
  }

  lemma LaterStepsCountNone(count: nat, work: Work, clock: Clock)
    ensures var steps := LaterSteps(count, work, clock); forall i | 0 <= i < |steps| :: !Counts(steps[i])
  {
  }

  lemma SelectedRunIsOneJob(db: Db, work: Work, now: int, later: seq<Step>)
    requires Inv(db) && WellFormed(db, work, now)
    requires forall i | 0 <= i < |later| :: !Counts(later[i])
    ensures OneJob(db, FollowUpSteps(work, now) + later, {})
  {
    var rest := work.jobs + work.repairs + later;
    ChecksAreAllowed(db, work.checks, rest, Chosen(work.checks));
    F.SelectDoes(db, Chosen(work.checks), now);
    FirstAllowed(db, Select(Chosen(work.checks), now), CheckSteps(work.checks) + rest, {});
    RunStepsAre(work, now, later);
  }

  /** The whole hourly run checks what it selected and counts nothing else, so it is covered by
      ChecksEnd. */
  lemma HourlyRunIsOneJob(db: Db, work: Work, clock: Clock)
    requires Inv(db) && WellFormed(db, work, clock.now)
    ensures OneJob(db, HourlySteps(db, work, clock), {})
  {
    var count := |R.Run(db, FollowUpSteps(work, clock.now)).orders|;
    LaterStepsCountNone(count, work, clock);
    SelectedRunIsOneJob(db, work, clock.now, LaterSteps(count, work, clock));
  }
}
