/** What each step does, one by one: the function of its transaction. */
module Effects {
  import opened Models
  import opened Orders
  import opened Checkout
  import opened Access
  import opened Collection
  import opened Administration
  import opened Credit
  import opened Webhooks
  import opened Checks
  import opened Composites
  import opened Steps
  import P = Provisioning

  lemma PlaceDoes(db: Db, key: string, customer: nat, plan: nat, terms: Option<Plan>, start: int)
    requires Linked(db)
    ensures Apply(db, Place(key, customer, plan, terms, start)) == AfterPlacement(db, key, customer, plan, terms, start)
  {
  }

  lemma CurrentAttemptDoes(db: Db, k: InstallmentKey, product: string)
    requires Linked(db) && k in db.installments && FreshProduct(db, product)
    ensures Apply(db, CurrentAttempt(k, product)) == AfterCurrentAttempt(db, k, product)
  {
  }

  lemma SaveLinkDoes(db: Db, a: AttemptId, link: Option<string>)
    requires Linked(db) && a < |db.attempts|
    ensures Apply(db, SaveLink(a, link)) == AfterLink(db, a, link)
  {
  }

  lemma MoveDoes(db: Db, a: AttemptId, status: AttemptStatus)
    requires Linked(db) && a < |db.attempts| && (status.Unknown? || status.Failed? || status.Expired?)
    ensures Apply(db, Move(a, status)) == AfterMove(db, a, status)
  {
  }

  lemma WebhookDoes(db: Db, d: Delivery)
    requires Linked(db)
    ensures Apply(db, Webhook(d)) == AfterDelivery(db, d)
  {
  }

  lemma RecordDoes(db: Db, d: Delivery)
    requires Linked(db)
    ensures Apply(db, Record(d)) == AfterRecording(db, d)
  {
  }

  lemma CreditDoes(db: Db, a: AttemptId, lookup: Lookup, s: Receipt)
    requires Linked(db) && a < |db.attempts| && Supports(db.attempts[a], lookup, s)
    ensures Apply(db, Credit(a, lookup, s)) == AfterSuccess(db, a, s)
  {
  }

  lemma FailDoes(db: Db, a: AttemptId, lookup: Lookup)
    requires Linked(db) && a < |db.attempts| && Denies(db.attempts[a], lookup)
    ensures Apply(db, Fail(a, lookup)) == AfterFailure(db, a)
  {
  }

  lemma ResolveDoes(db: Db, a: AttemptId)
    requires Linked(db) && a < |db.attempts|
    ensures Apply(db, Resolve(a)) == AfterResolution(db, a)
  {
  }

  lemma SaveEventDoes(db: Db, e: nat, row: Event)
    requires Linked(db) && e < |db.events| && row.body == db.events[e].body
    ensures Apply(db, SaveEvent(e, row)) == WithEvent(db, e, row)
  {
  }

  lemma BumpDoes(db: Db, a: AttemptId, now: int)
    requires Linked(db) && a < |db.attempts|
    ensures Apply(db, Bump(a, now)) == AfterBump(db, a, now)
  {
  }

  lemma FlagDoes(db: Db, r: RequestId, suspended: bool)
    requires Linked(db) && r < |db.requests| && db.requests[r].access.Some?
    ensures Apply(db, Flag(r, suspended)) == AfterFlag(db, r, suspended)
  {
  }

  lemma MirrorDoes(db: Db, o: OrderId, suspended: bool)
    requires Linked(db) && AccessPossible(db, Mirror(o, suspended))
    ensures Apply(db, Mirror(o, suspended)) == AfterMirror(db, o, suspended)
  {
  }

  lemma MarkDoes(db: Db, o: OrderId, now: int)
    requires Linked(db) && o < |db.orders|
    ensures Apply(db, Mark(o, now)) == AfterMark(db, o, now)
  {
  }

  lemma UnmarkDoes(db: Db, o: OrderId, today: int)
    requires Linked(db) && o < |db.orders|
    ensures Apply(db, Unmark(o, today)) == AfterUnmark(db, o, today)
  {
  }

  lemma CancelOrderDoes(db: Db, o: OrderId)
    requires Linked(db) && o < |db.orders|
    ensures Apply(db, CancelOrder(o)) == AfterCancelOrder(db, o)
  {
  }

  lemma WaiveDoes(db: Db, k: InstallmentKey, today: int)
    requires Linked(db) && k in db.installments
    ensures Apply(db, Waive(k, today)) == AfterWaive(db, k, today)
  {
  }

  lemma FreezeDoes(db: Db, o: OrderId, answers: bool)
    requires Linked(db) && o < |db.orders|
    ensures Apply(db, Freeze(o, answers)) == AfterSwitch(db, o, true, answers)
  {
  }

  lemma RestoreDoes(db: Db, o: OrderId, answers: bool)
    requires Linked(db) && o < |db.orders|
    ensures Apply(db, Restore(o, answers)) == AfterSwitch(db, o, false, answers)
  {
  }

  lemma SelectDoes(db: Db, chosen: set<AttemptId>, now: int)
    requires Linked(db)
    ensures Apply(db, Select(chosen, now)) == db
  {
  }

  lemma MarkDueDoes(db: Db, today: int)
    requires Linked(db)
    ensures Apply(db, Step.MarkDue(today)) == AfterMarkDue(db, today)
  {
  }

  lemma MarkLateDoes(db: Db, today: int)
    requires Linked(db)
    ensures Apply(db, Step.MarkLate(today)) == AfterMarkLate(db, today)
  {
  }

  lemma SuspendDoes(db: Db, o: OrderId, clock: Clock)
    requires Linked(db) && o < |db.orders|
    ensures Apply(db, Suspend(o, clock)) == AfterSuspension(db, o, clock)
  {
  }

  lemma ResumeDoes(db: Db, o: OrderId, clock: Clock)
    requires Linked(db) && o < |db.orders|
    ensures Apply(db, Resume(o, clock)) == AfterResumption(db, o, clock)
  {
  }

  lemma ProvisionDoes(db: Db, r: RequestId, act: P.Action)
    requires Linked(db) && r < |db.requests| && db.requests[r].order < |db.orders| && MayAct(db, r, act)
    ensures Apply(db, Provision(r, act)) == db.(requests := db.requests[r := P.RowAfter(db.requests[r], act)])
  {
  }

  lemma StaleCheckDoes(db: Db, a: AttemptId, q: Inquiry)
    requires Linked(db) && a < |db.attempts|
    ensures Apply(db, StaleCheck(a, q)) == AfterStaleCheck(db, a, q)
  {
  }

  // ----- service by service -----

  lemma CheckoutStepDoes(db: Db, step: Step)
    requires Linked(db) && AtCheckout(step) && Possible(db, step)
    ensures CheckoutPossible(db, step) && Apply(db, step) == AfterCheckoutStep(db, step)
  {
    match step
    case Place(_, _, _, _, _) =>
    case Reopen(_) =>
    case CurrentAttempt(_, _) =>
    case SaveLink(_, _) =>
    case Move(_, _) =>
    case Recheck(_) =>
  }

  lemma VerdictStepDoes(db: Db, step: Step)
    requires Linked(db) && OnVerdict(step) && Possible(db, step)
    ensures VerdictPossible(db, step) && Apply(db, step) == AfterVerdictStep(db, step)
  {
    match step
    case Webhook(_) =>
    case Record(_) =>
    case StaffCheck(_, _) =>
    case StaleCheck(_, _) =>
    case Attribute(_) =>
  }

  lemma PartStepDoes(db: Db, step: Step)
    requires Linked(db) && IsPart(step) && Possible(db, step)
    ensures PartPossible(db, step) && Apply(db, step) == AfterPart(db, step)
  {
    match step
    case Credit(_, _, _) =>
    case Fail(_, _) =>
    case Resolve(_) =>
    case SaveEvent(_, _) =>
    case Bump(_, _) =>
  }

  lemma AccessStepDoes(db: Db, step: Step)
    requires Linked(db) && OnAccess(step) && Possible(db, step)
    ensures AccessPossible(db, step) && Apply(db, step) == AfterAccessStep(db, step)
  {
    match step
    case Flag(_, _) =>
    case Mirror(_, _) =>
    case Mark(_, _) =>
    case Unmark(_, _) =>
  }

  lemma StaffStepDoes(db: Db, step: Step)
    requires Linked(db) && ByStaff(step) && Possible(db, step)
    ensures StaffPossible(db, step) && Apply(db, step) == AfterStaffStep(db, step)
  {
    match step
    case CancelOrder(_) =>
    case CancelInstallment(_) =>
    case Waive(_, _) =>
    case Freeze(_, _) =>
    case Restore(_, _) =>
  }

  lemma JobStepDoes(db: Db, step: Step)
    requires Linked(db) && ByJob(step) && Possible(db, step)
    ensures JobPossible(db, step) && Apply(db, step) == AfterJobStep(db, step)
  {
    match step
    case Select(_, _) =>
    case Expire(_) =>
    case MarkDue(today) => MarkDueDoes(db, today);
    case MarkLate(today) => MarkLateDoes(db, today);
    case Suspend(o, clock) => SuspendDoes(db, o, clock);
    case Resume(o, clock) => ResumeDoes(db, o, clock);
  }

  lemma FollowUpStepDoes(db: Db, step: Step)
    requires Linked(db) && OnFollowUps(step) && Possible(db, step)
    ensures FollowUpPossible(db, step) && Apply(db, step) == AfterFollowUpStep(db, step)
  {
    match step
    case RepairConfirmation(_, _) =>
    case RepairRequest(_) =>
    case Provision(_, _) =>
    case Deliver(_, _) =>
  }
}
