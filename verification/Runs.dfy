/** Every step keeps the invariant and credits only what it says; runs of steps. */
module Runs {
  import opened Models
  import opened StateMachines
  import opened Credit
  import opened Webhooks
  import opened Checkout
  import opened Invariants
  import opened Preservation
  import opened CreditProofs
  import opened Composites
  import opened Steps
  import F = Effects
  import P = Provisioning
  import D = Deliveries

  function CreditedOnVerdict(db: Db, step: Step): Option<Crediting>
    requires Linked(db) && OnVerdict(step) && VerdictPossible(db, step)
  {
    match step
    case Webhook(d) => DeliveryCrediting(db, d)
    case Record(_) => None
    case StaffCheck(a, q) => CheckCrediting(db, a, q)
    case StaleCheck(a, q) => CheckCrediting(db, a, q)
    case Attribute(d) => AttributionCrediting(db, d)
  }

  function CreditedOnReceipt(db: Db, a: AttemptId, s: Receipt): Option<Crediting>
    requires Linked(db) && a < |db.attempts|
  {
    if SuccessOutcome(db, a, s.payment).Applied? then Some(Crediting(db, a, s)) else None
  }

  /** The credit that a step makes, if it makes one. */
  function CreditedBy(db: Db, step: Step): Option<Crediting>
    requires Linked(db)
  {
    if !Possible(db, step) then None
    else if OnVerdict(step) then CreditedOnVerdict(db, step)
    else if step.Credit? then CreditedOnReceipt(db, step.attempt, step.receipt)
    else None
  }

  // ----- one step -----

  lemma RecheckedAttempts(attempts: seq<Attempt>, a: AttemptId)
    requires AttemptsOk(attempts) && a < |attempts| && IsActive(attempts[a].status)
    ensures AttemptsOk(attempts[a := attempts[a].(status := AttemptStatus.Succeeded)])
  {
    var attempts' := attempts[a := attempts[a].(status := AttemptStatus.Succeeded)];
    forall x | 0 <= x < |attempts| && x != a
      ensures attempts[x].installment == attempts[a].installment ==> !IsActive(attempts[x].status)
      ensures attempts[x].payment.Some? ==> attempts[x].payment != attempts[a].payment
    {
      assert x < a || a < x;
    }
    ExceptOneOk(attempts, attempts', a);
  }

  lemma RecheckGrows(db: Db, a: AttemptId)
    requires a < |db.attempts|
    ensures Grows(db, AfterMove(db, a, AttemptStatus.Succeeded))
  {
  }

  lemma RecheckKeeps(db: Db, a: AttemptId)
    requires Inv(db) && a < |db.attempts|
    ensures var db' := AfterMove(db, a, AttemptStatus.Succeeded);
      Inv(db') && Grows(db, db') && db'.installments == db.installments
  {
    var db' := AfterMove(db, a, AttemptStatus.Succeeded);
    RecheckGrows(db, a);
    if AttemptTransitionError(db.attempts, a, AttemptStatus.Succeeded).None? && !db.attempts[a].status.Succeeded? {
      RecheckedAttempts(db.attempts, a);
      StillBacked(db, db');
    } else {
      assert db'.attempts == db.attempts;
    }
  }

  lemma RepairConfirmationKeeps(db: Db, a: AttemptId, recipient: string)
    requires Inv(db) && a < |db.attempts|
    ensures Inv(AfterRepairConfirmation(db, a, recipient)) && Quiet(db, AfterRepairConfirmation(db, a, recipient))
  {
    UnchangedIsQuiet(db);
    if Unconfirmed(db, a) {
      ConfirmationStep(db, db, a, recipient);
    }
  }

  /** Nothing is ever missing for an eligible sale: the repair of requests creates none. */
  lemma RepairFindsNothing(db: Db, o: OrderId)
    requires Inv(db) && o < |db.orders|
    ensures AfterRepairRequest(db, o) == db
  {
  }

  lemma RowKeepsConfirmations(db: Db, key: ConfirmationKey, row: Confirmation)
    requires key in db.confirmations && ConfirmationsOk(db.confirmations, db.attempts)
    ensures ConfirmationsOk(db.confirmations[key := row], db.attempts)
  {
  }

  lemma RowIsQuiet(db: Db, key: ConfirmationKey, row: Confirmation)
    requires key in db.confirmations
    ensures Quiet(db, db.(confirmations := db.confirmations[key := row]))
  {
    UnchangedIsQuiet(db);
  }

  lemma DeliverKeeps(db: Db, key: ConfirmationKey, act: D.Action)
    requires Inv(db) && key in db.confirmations
    ensures var db' := db.(confirmations := db.confirmations[key := D.RowAfter(db.confirmations[key], act)]);
      Inv(db') && Quiet(db, db')
  {
    RowKeepsConfirmations(db, key, D.RowAfter(db.confirmations[key], act));
    RowIsQuiet(db, key, D.RowAfter(db.confirmations[key], act));
  }

  lemma ProvisionKeeps(db: Db, r: RequestId, act: P.Action)
    requires Inv(db) && r < |db.requests| && db.requests[r].order < |db.orders| && MayAct(db, r, act)
    ensures var row := P.RowAfter(db.requests[r], act);
      var db' := db.(requests := db.requests[r := row]);
      Inv(db') && Quiet(db, db')
  {
    RequestsStep(db, db.requests[r := P.RowAfter(db.requests[r], act)]);
  }

  lemma CheckoutStepKeeps(db: Db, step: Step)
    requires Inv(db) && AtCheckout(step) && CheckoutPossible(db, step) && !step.Recheck?
    ensures Inv(AfterCheckoutStep(db, step)) && Quiet(db, AfterCheckoutStep(db, step))
  {
    match step
    case Place(key, customer, plan, terms, start) => PlacementKeeps(db, key, customer, plan, terms, start);
    case Reopen(o) => ReopeningKeeps(db, o);
    case CurrentAttempt(k, product) => CurrentAttemptKeeps(db, k, product);
    case SaveLink(a, link) => LinkKeeps(db, a, link);
    case Move(a, status) => MoveKeeps(db, a, status);
  }

  lemma VerdictStepKeeps(db: Db, step: Step)
    requires Inv(db) && OnVerdict(step) && VerdictPossible(db, step)
    ensures Inv(AfterVerdictStep(db, step)) && Explains(db, CreditedOnVerdict(db, step), AfterVerdictStep(db, step))
  {
    match step
    case Webhook(d) => DeliveryKeeps(db, d);
    case Record(d) => RecordingKeeps(db, d);
    case StaffCheck(a, q) => StaffCheckKeeps(db, a, q);
    case StaleCheck(a, q) => StaleCheckKeeps(db, a, q);
    case Attribute(d) => AttributionKeeps(db, d);
  }

  /** A credit on a verdict heard earlier is one on any verdict: the amounts do not change. */
  lemma CreditStepKeeps(db: Db, a: AttemptId, s: Receipt)
    requires Inv(db) && a < |db.attempts|
    ensures Inv(AfterSuccess(db, a, s)) && Explains(db, CreditedOnReceipt(db, a, s), AfterSuccess(db, a, s))
  {
    CreditKeeps(db, a, s);
    UnchangedIsQuiet(db);
    UnchangedIsQuiet(AfterSuccess(db, a, s));
  }

  lemma CreditPartKeeps(db: Db, step: Step)
    requires Inv(db) && step.Credit? && PartPossible(db, step)
    ensures Inv(AfterPart(db, step))
    ensures Explains(db, CreditedOnReceipt(db, step.attempt, step.receipt), AfterPart(db, step))
  {
    CreditStepKeeps(db, step.attempt, step.receipt);
  }

  lemma PartKeeps(db: Db, step: Step)
    requires Inv(db) && IsPart(step) && PartPossible(db, step) && !step.Credit?
    ensures Inv(AfterPart(db, step)) && Quiet(db, AfterPart(db, step))
  {
    match step
    case Fail(a, _) => FailureKeeps(db, a);
    case Resolve(a) => EventsStep(db, AfterResolution(db, a).events);
    case SaveEvent(e, row) => EventsStep(db, db.events[e := row]);
    case Bump(a, now) => BumpKeeps(db, a, now);
  }

  lemma AccessStepKeeps(db: Db, step: Step)
    requires Inv(db) && OnAccess(step) && AccessPossible(db, step)
    ensures Inv(AfterAccessStep(db, step)) && Quiet(db, AfterAccessStep(db, step))
  {
    match step
    case Flag(r, suspended) => FlagKeeps(db, r, suspended);
    case Mirror(o, suspended) => MirrorKeeps(db, o, suspended);
    case Mark(o, now) => MarkKeeps(db, o, now);
    case Unmark(o, today) => UnmarkKeeps(db, o, today);
  }

  lemma StaffStepKeeps(db: Db, step: Step)
    requires Inv(db) && ByStaff(step) && StaffPossible(db, step)
    ensures Inv(AfterStaffStep(db, step)) && Quiet(db, AfterStaffStep(db, step))
  {
    match step
    case CancelOrder(o) => CancelOrderKeeps(db, o);
    case CancelInstallment(k) => CancelInstallmentKeeps(db, k);
    case Waive(k, today) => WaiveKeeps(db, k, today);
    case Freeze(o, answers) => SwitchKeeps(db, o, true, answers);
    case Restore(o, answers) => SwitchKeeps(db, o, false, answers);
  }

  lemma JobStepKeeps(db: Db, step: Step)
    requires Inv(db) && ByJob(step) && JobPossible(db, step)
    ensures Inv(AfterJobStep(db, step)) && Quiet(db, AfterJobStep(db, step))
  {
    match step
    case Select(_, _) => UnchangedIsQuiet(db);
    case Expire(o) => ExpiryKeeps(db, o);
    case MarkDue(today) => MarkDueKeeps(db, today);
    case MarkLate(today) => MarkLateKeeps(db, today);
    case Suspend(o, clock) => SuspensionKeeps(db, o, clock);
    case Resume(o, clock) => ResumptionKeeps(db, o, clock);
  }

  lemma FollowUpStepKeeps(db: Db, step: Step)
    requires Inv(db) && OnFollowUps(step) && FollowUpPossible(db, step)
    ensures Inv(AfterFollowUpStep(db, step)) && Quiet(db, AfterFollowUpStep(db, step))
  {
    match step
    case RepairConfirmation(a, recipient) => RepairConfirmationKeeps(db, a, recipient);
    case RepairRequest(o) => RepairFindsNothing(db, o); UnchangedIsQuiet(db);
    case Provision(r, act) => ProvisionKeeps(db, r, act);
    case Deliver(key, act) => DeliverKeeps(db, key, act);
  }

  lemma ExplainedGrows(db: Db, c: Option<Crediting>, db': Db)
    requires Explains(db, c, db')
    ensures Grows(db, db')
  {
    if c.Some? {
      ThroughGrows(db, c.value, db');
    }
  }

  predicate MayCredit(step: Step) {
    OnVerdict(step) || step.Credit?
  }

  lemma VerdictAppliedKeeps(db: Db, step: Step)
    requires Inv(db) && Possible(db, step) && OnVerdict(step)
    ensures Inv(Apply(db, step)) && Explains(db, CreditedBy(db, step), Apply(db, step))
  {
    F.VerdictStepDoes(db, step);
    VerdictStepKeeps(db, step);
  }

  lemma CreditAppliedKeeps(db: Db, step: Step)
    requires Inv(db) && Possible(db, step) && step.Credit?
    ensures Inv(Apply(db, step)) && Explains(db, CreditedBy(db, step), Apply(db, step))
  {
    F.PartStepDoes(db, step);
    CreditPartKeeps(db, step);
  }

  lemma CheckoutAppliedKeeps(db: Db, step: Step)
    requires Inv(db) && Possible(db, step) && AtCheckout(step) && !step.Recheck?
    ensures Inv(Apply(db, step)) && Quiet(db, Apply(db, step))
  {
    F.CheckoutStepDoes(db, step);
    CheckoutStepKeeps(db, step);
  }

  lemma PartAppliedKeeps(db: Db, step: Step)
    requires Inv(db) && Possible(db, step) && IsPart(step) && !step.Credit?
    ensures Inv(Apply(db, step)) && Quiet(db, Apply(db, step))
  {
    F.PartStepDoes(db, step);
    PartKeeps(db, step);
  }

  lemma AccessAppliedKeeps(db: Db, step: Step)
    requires Inv(db) && Possible(db, step) && OnAccess(step)
    ensures Inv(Apply(db, step)) && Quiet(db, Apply(db, step))
  {
    F.AccessStepDoes(db, step);
    AccessStepKeeps(db, step);
  }

  lemma StaffAppliedKeeps(db: Db, step: Step)
    requires Inv(db) && Possible(db, step) && ByStaff(step)
    ensures Inv(Apply(db, step)) && Quiet(db, Apply(db, step))
  {
    F.StaffStepDoes(db, step);
    StaffStepKeeps(db, step);
  }

  lemma JobAppliedKeeps(db: Db, step: Step)
    requires Inv(db) && Possible(db, step) && ByJob(step)
    ensures Inv(Apply(db, step)) && Quiet(db, Apply(db, step))
  {
    F.JobStepDoes(db, step);
    JobStepKeeps(db, step);
  }

  lemma FollowUpAppliedKeeps(db: Db, step: Step)
    requires Inv(db) && Possible(db, step) && OnFollowUps(step)
    ensures Inv(Apply(db, step)) && Quiet(db, Apply(db, step))
  {
    F.FollowUpStepDoes(db, step);
    FollowUpStepKeeps(db, step);
  }

  lemma CreditingStepKeeps(db: Db, step: Step)
    requires Inv(db) && Possible(db, step) && MayCredit(step)
    ensures Inv(Apply(db, step)) && Explains(db, CreditedBy(db, step), Apply(db, step))
  {
    if step.Credit? {
      CreditAppliedKeeps(db, step);
    } else {
      VerdictAppliedKeeps(db, step);
    }
  }

  lemma QuietStepKeeps(db: Db, step: Step)
    requires Inv(db) && Possible(db, step) && !MayCredit(step) && !step.Recheck?
    ensures Inv(Apply(db, step)) && Quiet(db, Apply(db, step))
  {
    if AtCheckout(step) {
      CheckoutAppliedKeeps(db, step);
    } else if IsPart(step) {
      PartAppliedKeeps(db, step);
    } else if OnAccess(step) {
      AccessAppliedKeeps(db, step);
    } else if ByStaff(step) {
      StaffAppliedKeeps(db, step);
    } else if ByJob(step) {
      JobAppliedKeeps(db, step);
    } else {
      FollowUpAppliedKeeps(db, step);
    }
  }

  /** Every step keeps the invariant and, but for the checkout recheck, credits what
      CreditedBy says and nothing else. */
  lemma StepKeeps(db: Db, step: Step)
    requires Inv(db)
    ensures Inv(Apply(db, step)) && Grows(db, Apply(db, step))
    ensures !step.Recheck? ==> Explains(db, CreditedBy(db, step), Apply(db, step))
    ensures step.Recheck? ==> Apply(db, step).installments == db.installments
  {
    if !Possible(db, step) {
      UnchangedIsQuiet(db);
    } else if step.Recheck? {
      RecheckKeeps(db, step.attempt);
    } else if MayCredit(step) {
      CreditingStepKeeps(db, step);
      ExplainedGrows(db, CreditedBy(db, step), Apply(db, step));
    } else {
      QuietStepKeeps(db, step);
    }
  }

  lemma StepIsGood(db: Db, step: Step)
    requires Inv(db)
    ensures Inv(Apply(db, step))
  {
    StepKeeps(db, step);
  }

  lemma StepGrows(db: Db, step: Step)
    requires Inv(db)
    ensures Inv(Apply(db, step)) && Grows(db, Apply(db, step))
  {
    StepKeeps(db, step);
  }

  // ----- runs -----

  ghost function Run(db: Db, steps: seq<Step>): (r: Db)
    requires Inv(db)
    ensures Inv(r)
    decreases |steps|
  {
    if steps == [] then db
    else
      StepIsGood(db, steps[0]);
      Run(Apply(db, steps[0]), steps[1..])
  }

  /** The database executes the steps one after the other. */
  method ExecuteAll(db: Database, steps: seq<Step>)
    requires Inv(db.State())
    modifies db
    ensures db.State() == Run(old(db.State()), steps)
  {
    for i := 0 to |steps|
      invariant Inv(db.State())
      invariant Run(db.State(), steps[i..]) == Run(old(db.State()), steps)
    {
      ghost var before := db.State();
      assert steps[i..][0] == steps[i] && steps[i..][1..] == steps[i + 1..];
      StepIsGood(before, steps[i]);
      Execute(db, steps[i]);
    }
  }

  /** The empty database satisfies the invariant, so every run from it does. */
  lemma EmptyIsGood()
    ensures Inv(Db([], map[], [], map[], [], []))
  {
  }

  lemma {:induction false} RunGrows(db: Db, steps: seq<Step>)
    requires Inv(db)
    ensures Grows(db, Run(db, steps))
    decreases |steps|
  {
    UnchangedIsQuiet(db);
    if steps == [] {
    } else {
      StepGrows(db, steps[0]);
      RunGrows(Apply(db, steps[0]), steps[1..]);
      GrowsTransitive(db, Apply(db, steps[0]), Run(db, steps));
    }
  }

  lemma {:induction false} RunConcat(db: Db, some: seq<Step>, more: seq<Step>)
    requires Inv(db)
    ensures Run(db, some + more) == Run(Run(db, some), more)
    decreases |some|
  {
    if some == [] {
      assert some + more == more;
    } else {
      StepIsGood(db, some[0]);
      assert (some + more)[0] == some[0] && (some + more)[1..] == some[1..] + more;
      RunConcat(Apply(db, some[0]), some[1..], more);
    }
  }

  lemma OneStep(db: Db, step: Step)
    requires Inv(db)
    ensures Run(db, [step]) == Apply(db, step)
  {
    StepIsGood(db, step);
    assert [step][1..] == [];
  }

  lemma OneMore(db: Db, some: seq<Step>, middle: Db, step: Step, next: Db)
    requires Inv(db) && Run(db, some) == middle && Apply(middle, step) == next
    ensures Run(db, some + [step]) == next
  {
    RunConcat(db, some, [step]);
    OneStep(middle, step);
  }

  /** The database just before step i of the run. */
  ghost function Before(db: Db, steps: seq<Step>, i: nat): (r: Db)
    requires Inv(db) && i <= |steps|
    ensures Inv(r)
  {
    Run(db, steps[..i])
  }

  lemma BeforeFirst(db: Db, steps: seq<Step>)
    requires Inv(db)
    ensures Before(db, steps, 0) == db
  {
  }

  lemma BeforeNext(db: Db, steps: seq<Step>, j: nat)
    requires Inv(db) && j < |steps| && Inv(Apply(db, steps[0]))
    ensures Before(db, steps, j + 1) == Before(Apply(db, steps[0]), steps[1..], j)
  {
    assert steps[..j + 1][0] == steps[0] && steps[..j + 1][1..] == steps[1..][..j];
  }

  lemma BeforeStep(db: Db, steps: seq<Step>, i: nat)
    requires Inv(db) && i < |steps|
    ensures Before(db, steps, i + 1) == Apply(Before(db, steps, i), steps[i])
  {
    OneMore(db, steps[..i], Before(db, steps, i), steps[i], Apply(Before(db, steps, i), steps[i]));
    assert steps[..i] + [steps[i]] == steps[..i + 1];
  }

  lemma BeforeLast(db: Db, steps: seq<Step>)
    requires Inv(db)
    ensures Before(db, steps, |steps|) == Run(db, steps)
  {
    assert steps[..|steps|] == steps;
  }
}
