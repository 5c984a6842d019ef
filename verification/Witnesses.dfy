/** Concrete failures: the properties that do not always hold do fail somewhere, and the
    conditions under which they hold are needed. */
module Witnesses {
  import opened Models
  import opened Credit
  import opened FollowUps
  import opened Closing
  import opened Administration
  import opened Orders
  import opened Checkout
  import opened Access
  import opened Collection
  import opened Verification
  import opened Webhooks
  import opened Checks
  import opened Invariants
  import opened Preservation
  import opened Composites
  import opened Steps
  import opened Decisions
  import opened Finality
  import opened SingleCredit
  import opened Coverage
  import opened Calls
  import opened Sales
  import F = Effects
  import R = Runs
  import U = Suspension

  // ----- the recheck -----

  lemma RecheckBreaks(db: Db, a: AttemptId)
    requires Inv(db) && a < |db.attempts| && db.attempts[a].status.Unknown?
    ensures RechecksAt(db, [Recheck(a)], 0)
    ensures var db' := R.Run(db, [Recheck(a)]); !SucceededPaid(db'.installments, db'.attempts)
  {
    R.BeforeFirst(db, [Recheck(a)]);
    RunAfterRecheck(db, [Recheck(a)]);
  }

  lemma UnknownIsUnpaid()
    ensures var db := Begun(AttemptStatus.Unknown); SucceededPaid(db.installments, db.attempts)
  {
  }

  /** An UNKNOWN attempt is found paid, and its installment is not PAID. */
  lemma RecheckedSale()
    ensures var db := Begun(AttemptStatus.Unknown);
      Reachable(db) && Inv(db) && SucceededPaid(db.installments, db.attempts) && RechecksAt(db, [Recheck(0)], 0)
    ensures var db := R.Run(Begun(AttemptStatus.Unknown), [Recheck(0)]); !SucceededPaid(db.installments, db.attempts)
  {
    UnknownIsReachable();
    UnknownIsUnpaid();
    RecheckBreaks(Begun(AttemptStatus.Unknown), 0);
  }

  // ----- a refused cancellation -----

  function WaivedEarly(status: AttemptStatus): Db {
    Begun(status).(installments := Rows(InstallmentStatus.Waived, InstallmentStatus.Scheduled))
  }

  lemma EarlyWaiverIs()
    requires Linked(Begun(AttemptStatus.LinkCreated))
    ensures AfterWaive(Begun(AttemptStatus.LinkCreated), Key(1), 0) == WaivedEarly(AttemptStatus.Expired)
  {
    var before := Begun(AttemptStatus.LinkCreated);
    var waived := WaivedEarly(AttemptStatus.Expired);
    assert ClosedAttempts(before.attempts, {Key(1)}) == waived.attempts;
    assert before.installments[Key(1) := Row(1, InstallmentStatus.Waived)] == waived.installments;
    assert !AnyPaid(waived.installments, 0, 3);
    assert InstallmentKey(0, 2) in waived.installments && !AllSettled(waived.installments, 0, 3);
    assert !HasSucceeded(before.attempts, Key(1));
    assert AfterInstallmentClosed(before, Key(1), InstallmentStatus.Waived) == waived;
    assert WithRecomputed(waived, 0, 0) == waived.orders;
  }

  lemma LateTimeoutIs()
    ensures AfterMove(WaivedEarly(AttemptStatus.Expired), 0, AttemptStatus.Unknown)
      == WaivedEarly(AttemptStatus.Unknown)
  {
  }

  lemma WaivedIsReachable()
    ensures Reachable(WaivedEarly(AttemptStatus.Unknown)) && Inv(WaivedEarly(AttemptStatus.Unknown))
  {
    LinkedIsReachable();
    EarlyWaiverIs();
    ReachesByWaiver(Begun(AttemptStatus.LinkCreated), Key(1), 0, WaivedEarly(AttemptStatus.Expired));
    LateTimeoutIs();
    ReachesByTimeout(WaivedEarly(AttemptStatus.Expired), 0, WaivedEarly(AttemptStatus.Unknown));
  }

  lemma RefusedCancelling(db: Db)
    requires Inv(db) && db == WaivedEarly(AttemptStatus.Unknown)
    ensures InstallmentDecision(db, Key(1), InstallmentStatus.Cancelled).Declined?
    ensures AfterCancelInstallment(db, Key(1)) != db
  {
    assert Key(1) in db.installments && db.attempts[0].installment == Key(1);
    RefusalClosesIff(db, Key(1), InstallmentStatus.Cancelled);
  }

  /** The link request of a waived installment's attempt times out late; then cancelling the
      installment is refused, and closes the attempt. */
  lemma RefusedCancellation()
    ensures var db := WaivedEarly(AttemptStatus.Unknown);
      && Reachable(db) && Key(1) in db.installments
      && InstallmentDecision(db, Key(1), InstallmentStatus.Cancelled).Declined?
      && AfterCancelInstallment(db, Key(1)) != db
  {
    WaivedIsReachable();
    RefusedCancelling(WaivedEarly(AttemptStatus.Unknown));
  }

  // ----- a refused attribution -----

  /** Tara repeats the payment without its productId. */
  function Repeated(): Delivery {
    Delivery("body", Some(Payload("us", None, Some("pay"), None, true)), Some("us"), None, "", Clock(0, 24, {}))
  }

  function Unmatched(): Db {
    var db := PaidSale([Served(RequestStatus.Pending, None)]);
    db.(events := db.events + [Event("body", None, Some("pay"), true, Processing.Uncorrelated, NoCorrelation, None)])
  }

  lemma RepetitionIs()
    ensures AfterDelivery(PaidSale([Served(RequestStatus.Pending, None)]), Repeated()) == Unmatched()
  {
  }

  lemma UnmatchedIsReachable()
    ensures Reachable(Unmatched()) && Inv(Unmatched())
  {
    PaidIsReachable();
    RepetitionIs();
    ReachesByWebhook(PaidSale([Served(RequestStatus.Pending, None)]), Repeated(), Unmatched());
  }

  lemma RefusedAttributing(db: Db, d: Attribution)
    requires Inv(db) && db == Unmatched() && d == Attribution(1, Key(2), 5000, "second", "", 0)
    ensures Key(2) in db.installments && FreshProduct(db, "second")
    ensures AttributionCrediting(db, d).None? && AfterAttribution(db, d) != db
  {
    assert db.attempts[0].payment == db.events[1].payment;
    assert PaymentUsed(db.attempts, db.events[1].payment);
    assert Key(2) in db.installments;
    AttributionIff(db, d);
    RefusedAttributionIff(db, d);
  }

  /** A notification without productId repeats the paymentId already credited; attributing it to
      the second installment is refused, and leaves a PENDING attempt there. */
  lemma RefusedAttribution()
    ensures var db := Unmatched(); var d := Attribution(1, Key(2), 5000, "second", "", 0);
      && Reachable(db) && Linked(db) && Key(2) in db.installments && FreshProduct(db, "second")
      && AttributionCrediting(db, d).None? && AfterAttribution(db, d) != db
  {
    UnmatchedIsReachable();
    RefusedAttributing(Unmatched(), Attribution(1, Key(2), 5000, "second", "", 0));
  }

  // ----- calls under way -----

  ghost predicate Leads(db: Db, acts: seq<Act>, w: World) {
    Inv(db) && RunAll(NoCalls(db), acts) == w
  }

  lemma LeadsOn(db: Db, acts: seq<Act>, middle: World, act: Act, w: World)
    requires Leads(db, acts, middle) && Linked(middle.db) && Next(middle, act) == w
    ensures Leads(db, acts + [act], w) && Inv(w.db)
  {
    RunAppend(NoCalls(db), acts, act);
  }

  function NoCalls(db: Db): World {
    World(db, map[])
  }

  /** One call, with these commits to come. */
  function UnderWay(db: Db, commits: AccessSteps): World {
    World(db, map[0 := Going(commits)])
  }

  lemma CommitIs(db: Db, commits: AccessSteps, db': Db)
    requires commits != [] && Linked(db) && Apply(db, commits[0]) == db'
    ensures Next(UnderWay(db, commits), Commit(0)) == UnderWay(db', Rest(commits))
  {
    assert map[0 := Going(commits)][0 := Going(Rest(commits))] == map[0 := Going(Rest(commits))];
  }

  lemma CommitLeads(start: Db, acts: seq<Act>, db: Db, commits: AccessSteps, db': Db)
    requires commits != [] && Leads(start, acts, UnderWay(db, commits)) && Linked(db) && Apply(db, commits[0]) == db'
    ensures Leads(start, acts + [Commit(0)], UnderWay(db', Rest(commits))) && Inv(db')
  {
    CommitIs(db, commits, db');
    LeadsOn(start, acts, UnderWay(db, commits), Commit(0), UnderWay(db', Rest(commits)));
  }

  lemma OtherLeads(start: Db, acts: seq<Act>, db: Db, commits: AccessSteps, step: Step, db': Db)
    requires !OnAccess(step) && Leads(start, acts, UnderWay(db, commits)) && Linked(db) && Apply(db, step) == db'
    ensures Leads(start, acts + [Other(step)], UnderWay(db', commits)) && Inv(db')
  {
    LeadsOn(start, acts, UnderWay(db, commits), Other(step), UnderWay(db', commits));
  }

  /** The commits of an automatic suspension of order 0, whose access is that of request 0. */
  function ThreeCommits(): AccessSteps {
    [Flag(0, true), Mirror(0, true), Mark(0, 50000)]
  }

  function TwoCommits(): AccessSteps {
    [Mirror(0, true), Mark(0, 50000)]
  }

  function OneCommit(): AccessSteps {
    [Mark(0, 50000)]
  }

  lemma CommitsFollow()
    ensures Rest(ThreeCommits()) == TwoCommits() && Rest(TwoCommits()) == OneCommit() && Rest(OneCommit()) == []
  {
  }

  lemma FlagLeads(start: Db, acts: seq<Act>, db: Db, db': Db)
    requires Leads(start, acts, UnderWay(db, ThreeCommits())) && Linked(db)
    requires AccessPossible(db, Flag(0, true)) && AfterFlag(db, 0, true) == db'
    ensures Leads(start, acts + [Commit(0)], UnderWay(db', TwoCommits())) && Inv(db')
  {
    F.FlagDoes(db, 0, true);
    CommitsFollow();
    CommitLeads(start, acts, db, ThreeCommits(), db');
  }

  lemma MirrorLeads(start: Db, acts: seq<Act>, db: Db, db': Db)
    requires Leads(start, acts, UnderWay(db, TwoCommits())) && Linked(db)
    requires AccessPossible(db, Mirror(0, true)) && AfterMirror(db, 0, true) == db'
    ensures Leads(start, acts + [Commit(0)], UnderWay(db', OneCommit())) && Inv(db')
  {
    F.MirrorDoes(db, 0, true);
    CommitsFollow();
    CommitLeads(start, acts, db, TwoCommits(), db');
  }

  lemma MarkLeads(start: Db, acts: seq<Act>, db: Db, db': Db)
    requires Leads(start, acts, UnderWay(db, OneCommit())) && Linked(db)
    requires 0 < |db.orders| && AfterMark(db, 0, 50000) == db'
    ensures Leads(start, acts + [Commit(0)], UnderWay(db', [])) && Inv(db')
  {
    F.MarkDoes(db, 0, 50000);
    CommitsFollow();
    CommitLeads(start, acts, db, OneCommit(), db');
  }

  /** Mirror and marker, when the order does not follow. */
  lemma MarkOnlyLeads(start: Db, acts: seq<Act>, db: Db, db': Db)
    requires Leads(start, acts, UnderWay(db, TwoCommits())) && Linked(db)
    requires AccessPossible(db, Mirror(0, true)) && AfterMirror(db, 0, true) == db && AfterMark(db, 0, 50000) == db'
    ensures Leads(start, acts + [Commit(0)] + [Commit(0)], UnderWay(db', [])) && Inv(db')
  {
    MirrorLeads(start, acts, db, db);
    MarkLeads(start, acts + [Commit(0)], db, db');
  }

  /** The choice of the order to suspend, and its check. */
  function Opening(): seq<Act> {
    [] + [Begin(0, Suspending(0, Late()))] + [Check(0)]
  }

  lemma ChoiceIs(db: Db)
    requires Linked(db) && Chooses(db, Suspending(0, Late())) && Accepted(db, Suspending(0, Late()))
    requires Commits(db, Suspending(0, Late())) == ThreeCommits()
    ensures var chosen := World(db, map[0 := Looked(Suspending(0, Late()))]);
      && Next(NoCalls(db), Begin(0, Suspending(0, Late()))) == chosen
      && Next(chosen, Check(0)) == UnderWay(db, ThreeCommits())
  {
  }

  lemma NothingLeads(db: Db)
    requires Inv(db)
    ensures Leads(db, [], NoCalls(db))
  {
  }

  lemma OpeningLeads(db: Db)
    requires Inv(db) && Chooses(db, Suspending(0, Late())) && Accepted(db, Suspending(0, Late()))
    requires Commits(db, Suspending(0, Late())) == ThreeCommits()
    ensures Leads(db, Opening(), UnderWay(db, ThreeCommits()))
  {
    var chosen := World(db, map[0 := Looked(Suspending(0, Late()))]);
    NothingLeads(db);
    ChoiceIs(db);
    LeadsOn(db, [], NoCalls(db), Begin(0, Suspending(0, Late())), chosen);
    LeadsOn(db, [] + [Begin(0, Suspending(0, Late()))], chosen, Check(0), UnderWay(db, ThreeCommits()));
  }

  lemma SaleIsChosen()
    ensures var call := Suspending(0, Late());
      && Chooses(Enrolled(), call) && Accepted(Enrolled(), call) && Commits(Enrolled(), call) == ThreeCommits()
  {
    SecondIsLate();
    TheAccess(false, OrderStatus.Active, None, InstallmentStatus.Scheduled);
    assert Enrolled() == Later(false, OrderStatus.Active, None, InstallmentStatus.Scheduled);
  }

  function Flagged(): Db {
    Later(true, OrderStatus.Active, None, InstallmentStatus.Scheduled)
  }

  lemma FlaggingIs()
    ensures AccessPossible(Enrolled(), Flag(0, true)) && AfterFlag(Enrolled(), 0, true) == Flagged()
  {
  }

  /** The suspension has made its first commit. */
  lemma FlaggedLeads()
    requires Inv(Enrolled())
    ensures Leads(Enrolled(), Opening() + [Commit(0)], UnderWay(Flagged(), TwoCommits())) && Inv(Flagged())
  {
    SaleIsChosen();
    OpeningLeads(Enrolled());
    FlaggingIs();
    FlagLeads(Enrolled(), Opening(), Enrolled(), Flagged());
  }

  // ----- cancelled meanwhile -----

  lemma CancellationIs(db: Db)
    requires Linked(db) && db == Flagged()
    ensures var db' := AfterCancelOrder(db, 0);
      db'.orders == [Sale(OrderStatus.Cancelled, None)] && OpenAccess(db', 0).Some?
  {
    TheAccess(true, OrderStatus.Active, None, InstallmentStatus.Scheduled);
    assert AfterCancelOrder(db, 0).requests == db.requests;
  }

  lemma CancelledCommits(db: Db)
    requires db.orders == [Sale(OrderStatus.Cancelled, None)] && OpenAccess(db, 0).Some?
    ensures AccessPossible(db, Mirror(0, true)) && AfterMirror(db, 0, true) == db
    ensures AfterMark(db, 0, 50000).orders == [Sale(OrderStatus.Cancelled, Some(50000))]
  {
  }

  lemma CancelledLeads(start: Db, acts: seq<Act>, db: Db, cancelled: Db)
    requires Leads(start, acts, UnderWay(db, TwoCommits())) && Linked(db) && 0 < |db.orders|
    requires AfterCancelOrder(db, 0) == cancelled
    requires cancelled.orders == [Sale(OrderStatus.Cancelled, None)] && OpenAccess(cancelled, 0).Some?
    ensures Leads(start, acts + [Other(CancelOrder(0))] + [Commit(0)] + [Commit(0)],
      UnderWay(AfterMark(cancelled, 0, 50000), []))
  {
    F.CancelOrderDoes(db, 0);
    OtherLeads(start, acts, db, TwoCommits(), CancelOrder(0), cancelled);
    CancelledCommits(cancelled);
    MarkOnlyLeads(start, acts + [Other(CancelOrder(0))], cancelled, AfterMark(cancelled, 0, 50000));
  }

  /** A suspension is under way; staff cancel the order after its first commit
      (CancelledMeanwhileIs lists the acts). */
  function CancelledMeanwhile(): seq<Act> {
    Opening() + [Commit(0)] + [Other(CancelOrder(0))] + [Commit(0)] + [Commit(0)]
  }

  lemma CancelledMeanwhileIs()
    ensures CancelledMeanwhile() ==
      [Begin(0, Suspending(0, Late())), Check(0), Commit(0), Other(CancelOrder(0)), Commit(0), Commit(0)]
  {
  }

  lemma CancelledIsMarked(start: Db, db: Db)
    requires Leads(start, Opening() + [Commit(0)], UnderWay(db, TwoCommits())) && Linked(db) && 0 < |db.orders|
    requires AfterCancelOrder(db, 0).orders == [Sale(OrderStatus.Cancelled, None)]
    requires OpenAccess(AfterCancelOrder(db, 0), 0).Some?
    ensures RunAll(NoCalls(start), CancelledMeanwhile()).db.orders == [Sale(OrderStatus.Cancelled, Some(50000))]
  {
    CancelledLeads(start, Opening() + [Commit(0)], db, AfterCancelOrder(db, 0));
    CancelledCommits(AfterCancelOrder(db, 0));
  }

  /** The CANCELLED order gets the marker, so its row is not kept. */
  lemma MarkedAfterCancellation()
    ensures Reachable(Enrolled()) && Inv(Enrolled()) && Overdue(Enrolled(), 0, Late())
    ensures RunAll(NoCalls(Enrolled()), CancelledMeanwhile()).db.orders == [Sale(OrderStatus.Cancelled, Some(50000))]
  {
    EnrolledIsReachable();
    SecondIsLate();
    FlaggedLeads();
    CancellationIs(Flagged());
    CancelledIsMarked(Enrolled(), Flagged());
  }

  // ----- frozen meanwhile -----

  function FrozenSale(marker: Option<int>, second: InstallmentStatus): Db {
    Later(true, OrderStatus.Suspended, marker, second)
  }

  lemma FrozenCommits()
    ensures var db := FrozenSale(None, InstallmentStatus.Scheduled);
      && AccessPossible(db, Mirror(0, true)) && AfterMirror(db, 0, true) == db
      && AfterMark(db, 0, 50000) == FrozenSale(Some(50000), InstallmentStatus.Scheduled)
  {
    TheAccess(true, OrderStatus.Suspended, None, InstallmentStatus.Scheduled);
  }

  lemma FreezeLeads(start: Db, acts: seq<Act>, db: Db, frozen: Db)
    requires Leads(start, acts, UnderWay(db, TwoCommits())) && Linked(db) && 0 < |db.orders|
    requires AfterSwitch(db, 0, true, true) == frozen
    ensures Leads(start, acts + [Other(Freeze(0, true))], UnderWay(frozen, TwoCommits())) && Inv(frozen)
  {
    F.FreezeDoes(db, 0, true);
    OtherLeads(start, acts, db, TwoCommits(), Freeze(0, true), frozen);
  }

  lemma WaiverLeads(start: Db, acts: seq<Act>, db: Db, waived: Db)
    requires Leads(start, acts, UnderWay(db, [])) && Linked(db) && Key(2) in db.installments
    requires AfterWaive(db, Key(2), 34) == waived
    ensures Leads(start, acts + [Other(Waive(Key(2), 34))], UnderWay(waived, [])) && Inv(waived)
  {
    F.WaiveDoes(db, Key(2), 34);
    OtherLeads(start, acts, db, [], Waive(Key(2), 34), waived);
  }

  /** The instant of the lifting, after the waiver. */
  function Afterwards(): Clock {
    Clock(50100, 24, {0})
  }

  lemma LiftingLeads(start: Db, acts: seq<Act>, db: Db, lifted: Db)
    requires Leads(start, acts, UnderWay(db, [])) && Linked(db) && 0 < |db.orders|
    requires AfterResumption(db, 0, Afterwards()) == lifted
    ensures Leads(start, acts + [Other(Resume(0, Afterwards()))], UnderWay(lifted, []))
  {
    F.ResumeDoes(db, 0, Afterwards());
    OtherLeads(start, acts, db, [], Resume(0, Afterwards()), lifted);
  }

  lemma LiftingIs()
    ensures var db := AfterResumption(FrozenSale(Some(50000), InstallmentStatus.Waived), 0, Afterwards());
      |db.orders| == 1 && !db.orders[0].status.Suspended?
  {
    TheAccess(true, OrderStatus.Suspended, Some(50000), InstallmentStatus.Waived);
    NoLongerLate(true, OrderStatus.Suspended, Some(50000));
    ResumptionIs(FrozenSale(Some(50000), InstallmentStatus.Waived), 0, Afterwards());
  }

  /** A suspension is under way; staff freeze the order after its first commit. */
  function FrozenMeanwhile(): seq<Act> {
    Opening() + [Commit(0)] + [Other(Freeze(0, true))]
  }

  /** The suspension makes its other commits. */
  function ThenMarked(): seq<Act> {
    FrozenMeanwhile() + [Commit(0)] + [Commit(0)]
  }

  /** Staff waive the late installment, and the automatic lifting comes (ThenLiftedIs). */
  function ThenLifted(): seq<Act> {
    ThenMarked() + [Other(Waive(Key(2), 34))] + [Other(Resume(0, Afterwards()))]
  }

  lemma ThenLiftedIs()
    ensures ThenLifted() == [Begin(0, Suspending(0, Late())), Check(0), Commit(0), Other(Freeze(0, true)), Commit(0),
      Commit(0), Other(Waive(Key(2), 34)), Other(Resume(0, Afterwards()))]
  {
  }

  lemma FrozenLeads()
    requires Inv(Enrolled())
    ensures var db := FrozenSale(None, InstallmentStatus.Scheduled);
      Leads(Enrolled(), FrozenMeanwhile(), UnderWay(db, TwoCommits())) && Inv(db)
  {
    FlaggedLeads();
    FreezeIs(true, None, InstallmentStatus.Scheduled);
    FreezeLeads(Enrolled(), Opening() + [Commit(0)], Flagged(), FrozenSale(None, InstallmentStatus.Scheduled));
  }

  lemma MarkedLeads()
    requires Inv(Enrolled())
    ensures var db := FrozenSale(Some(50000), InstallmentStatus.Scheduled);
      Leads(Enrolled(), ThenMarked(), UnderWay(db, [])) && Inv(db)
  {
    FrozenLeads();
    FrozenCommits();
    MarkOnlyLeads(Enrolled(), FrozenMeanwhile(), FrozenSale(None, InstallmentStatus.Scheduled),
      FrozenSale(Some(50000), InstallmentStatus.Scheduled));
  }

  lemma WaivedLeads()
    requires Inv(Enrolled())
    ensures var db := FrozenSale(Some(50000), InstallmentStatus.Waived);
      Leads(Enrolled(), ThenMarked() + [Other(Waive(Key(2), 34))], UnderWay(db, [])) && Inv(db)
  {
    MarkedLeads();
    WaiverIs(true, OrderStatus.Suspended, Some(50000));
    WaiverLeads(Enrolled(), ThenMarked(), FrozenSale(Some(50000), InstallmentStatus.Scheduled),
      FrozenSale(Some(50000), InstallmentStatus.Waived));
  }

  lemma LiftedLeads()
    requires Inv(Enrolled())
    ensures var orders := RunAll(NoCalls(Enrolled()), ThenLifted()).db.orders;
      |orders| == 1 && !orders[0].status.Suspended?
  {
    var db := FrozenSale(Some(50000), InstallmentStatus.Waived);
    WaivedLeads();
    LiftingIs();
    LiftingLeads(Enrolled(), ThenMarked() + [Other(Waive(Key(2), 34))], db, AfterResumption(db, 0, Afterwards()));
  }

  /** Staff freeze the order while an automatic suspension of it is under way: the staff
      suspension gets the marker, and once nothing is late any more it is lifted like an automatic
      one. */
  lemma StaffSuspensionMarked()
    ensures Reachable(Enrolled()) && Inv(Enrolled()) && Overdue(Enrolled(), 0, Late())
    ensures var frozen := RunAll(NoCalls(Enrolled()), FrozenMeanwhile()).db.orders;
      |frozen| == 1 && StaffSuspended(frozen[0])
    ensures var marked := RunAll(NoCalls(Enrolled()), ThenMarked()).db.orders;
      |marked| == 1 && marked[0].status.Suspended? && marked[0].nonpayment == Some(50000)
    ensures var lifted := RunAll(NoCalls(Enrolled()), ThenLifted()).db.orders;
      |lifted| == 1 && !lifted[0].status.Suspended?
  {
    EnrolledIsReachable();
    SecondIsLate();
    FrozenLeads();
    MarkedLeads();
    LiftedLeads();
  }

  // ----- a freeze that is lifted -----

  lemma RestoredIsReachable()
    ensures var db := Later(false, OrderStatus.Active, Some(50000), InstallmentStatus.Scheduled);
      Reachable(db) && Inv(db)
  {
    EnrolledIsReachable();
    SuspensionIs();
    var suspended := Later(true, OrderStatus.Suspended, Some(50000), InstallmentStatus.Scheduled);
    ReachesBySuspension(Enrolled(), 0, Late(), suspended);
    RestoreIs(true, Some(50000), InstallmentStatus.Scheduled);
    ReachesByRestore(suspended, 0, Later(false, OrderStatus.Active, Some(50000), InstallmentStatus.Scheduled));
  }

  lemma WaivedLaterIsReachable()
    ensures Reachable(Later(false, OrderStatus.Active, Some(50000), InstallmentStatus.Waived))
  {
    RestoredIsReachable();
    WaiverIs(false, OrderStatus.Active, Some(50000));
    ReachesByWaiver(Later(false, OrderStatus.Active, Some(50000), InstallmentStatus.Scheduled), Key(2), 34,
      Later(false, OrderStatus.Active, Some(50000), InstallmentStatus.Waived));
  }

  /** The order was suspended automatically and restored by staff, who left the marker.  Once the
      late installment is waived, a freeze by staff is lifted at once. */
  lemma LiftedFreeze()
    ensures var db := Later(false, OrderStatus.Active, Some(50000), InstallmentStatus.Waived);
      var frozen := AfterSwitch(db, 0, true, true);
      && Reachable(db) && Switchable(db, 0, true, true)
      && AfterResumption(frozen, 0, Afterwards()) != frozen
  {
    WaivedLaterIsReachable();
    TheAccess(false, OrderStatus.Active, Some(50000), InstallmentStatus.Waived);
    NoLongerLate(false, OrderStatus.Active, Some(50000));
    U.OverstaysIff(Later(false, OrderStatus.Active, Some(50000), InstallmentStatus.Waived), 0, Afterwards());
    FreezeIsLiftedIff(Later(false, OrderStatus.Active, Some(50000), InstallmentStatus.Waived), 0, true,
      Afterwards());
  }

  // ----- two orders that share an access -----

  function OtherKey(s: nat): InstallmentKey {
    InstallmentKey(1, s)
  }

  function OtherSale(status: OrderStatus): Order {
    Order("other", 0, 0, 0, FirstInstallment, 2, 5000, 10000, status, None)
  }

  function AllRows(first: InstallmentStatus): map<InstallmentKey, Installment> {
    Rows(InstallmentStatus.Paid, InstallmentStatus.Scheduled)
      [OtherKey(1) := Row(1, first)][OtherKey(2) := Row(2, InstallmentStatus.Scheduled)]
  }

  function OtherAttempt(status: AttemptStatus): Attempt {
    Attempt(OtherKey(1), "third", if status.Succeeded? then Some("more") else None, 5000, status,
            if status.Created? then None else Some("link"), 0, None)
  }

  /** The same customer buys the same course again. */
  function OrderedAgain(): Db {
    Enrolled().(orders := [Sale(OrderStatus.Active, None), OtherSale(OrderStatus.Pending)],
                installments := AllRows(InstallmentStatus.Scheduled))
  }

  lemma SecondPlacementIs()
    ensures AfterPlacement(Enrolled(), "other", 0, 0, Some(Plan(true, 0, 5000, 2, 30, FirstInstallment)), 0)
      == OrderedAgain()
  {
    var terms := Plan(true, 0, 5000, 2, 30, FirstInstallment);
    var rows := Enrolled().installments;
    assert WithInstallments(rows, 1, terms, 0, 0) == rows;
    assert WithInstallments(rows, 1, terms, 0, 1) == rows[OtherKey(1) := Row(1, InstallmentStatus.Scheduled)];
    assert WithInstallments(rows, 1, terms, 0, 2) == AllRows(InstallmentStatus.Scheduled);
  }

  function BegunAgain(status: AttemptStatus): Db {
    OrderedAgain().(attempts := [FirstAttempt(AttemptStatus.Succeeded), OtherAttempt(status)])
  }

  lemma SecondCheckoutIs()
    ensures OtherKey(1) in OrderedAgain().installments && FreshProduct(OrderedAgain(), "third")
    ensures AfterCurrentAttempt(OrderedAgain(), OtherKey(1), "third") == BegunAgain(AttemptStatus.Created)
    ensures AfterLink(BegunAgain(AttemptStatus.Created), 1, Some("link")) == BegunAgain(AttemptStatus.LinkCreated)
  {
    assert !HasActive(OrderedAgain().attempts, OtherKey(1));
    assert Latest(OrderedAgain().attempts, OtherKey(1), 1).None?;
  }

  lemma OrderedAgainIsReachable()
    ensures Reachable(OrderedAgain()) && Inv(OrderedAgain())
  {
    EnrolledIsReachable();
    SecondPlacementIs();
    ReachesByPlacement(Enrolled(), "other", Plan(true, 0, 5000, 2, 30, FirstInstallment), OrderedAgain());
  }

  lemma CreatedAgainIsReachable()
    ensures Reachable(BegunAgain(AttemptStatus.Created)) && Inv(BegunAgain(AttemptStatus.Created))
  {
    OrderedAgainIsReachable();
    SecondCheckoutIs();
    ReachesByCheckout(OrderedAgain(), OtherKey(1), "third", BegunAgain(AttemptStatus.Created));
  }

  lemma BegunAgainIsReachable()
    ensures Reachable(BegunAgain(AttemptStatus.LinkCreated)) && Inv(BegunAgain(AttemptStatus.LinkCreated))
  {
    CreatedAgainIsReachable();
    SecondCheckoutIs();
    ReachesByLink(BegunAgain(AttemptStatus.Created), 1, Some("link"), BegunAgain(AttemptStatus.LinkCreated));
  }

  /** Both orders have a PAID installment, and one access. */
  function Both(first: OrderStatus, second: OrderStatus, suspended: bool): Db {
    Db([Sale(first, None), OtherSale(second)], AllRows(InstallmentStatus.Paid),
       [FirstAttempt(AttemptStatus.Succeeded), OtherAttempt(AttemptStatus.Succeeded)],
       map[ConfirmationKey(0, "mail") := Confirmation(DeliveryStatus.Pending, 0, None)]
         [ConfirmationKey(1, "mail") := Confirmation(DeliveryStatus.Pending, 0, None)],
       [Served(RequestStatus.Completed, Some(suspended))],
       [Handled("paid", "first", "pay", 0), Handled("paid too", "third", "more", 1)])
  }

  lemma SecondOutcome(events: seq<Event>)
    ensures SuccessOutcome(BegunAgain(AttemptStatus.LinkCreated).(events := events), 1, Some("more")).Applied?
  {
  }

  lemma SecondAttempts()
    ensures CreditedAttempts(BegunAgain(AttemptStatus.LinkCreated).attempts, 1, Some("more"))
      == Both(OrderStatus.Active, OrderStatus.Active, false).attempts
  {
  }

  lemma SecondRows()
    ensures AllRows(InstallmentStatus.Scheduled)[OtherKey(1) := Row(1, InstallmentStatus.Paid)]
      == AllRows(InstallmentStatus.Paid)
    ensures AnyPaid(AllRows(InstallmentStatus.Paid), 1, 2) && !AllSettled(AllRows(InstallmentStatus.Paid), 1, 2)
  {
    var rows := AllRows(InstallmentStatus.Paid);
    assert InstallmentKey(1, 1) in rows && rows[InstallmentKey(1, 1)].status.Paid?;
    assert InstallmentKey(1, 2) in rows && !IsSettled(rows[InstallmentKey(1, 2)].status);
  }

  lemma SecondCreditIs(events: seq<Event>)
    requires Linked(BegunAgain(AttemptStatus.LinkCreated).(events := events))
    ensures AfterSuccess(BegunAgain(AttemptStatus.LinkCreated).(events := events), 1,
                         Receipt(Some("more"), Some(5000), "mail", 0))
      == Both(OrderStatus.Active, OrderStatus.Active, false).(events := events)
  {
    var before := BegunAgain(AttemptStatus.LinkCreated).(events := events);
    SecondOutcome(events);
    SecondAttempts();
    SecondRows();
    assert Serves(before.requests[0], 0, 0) && HasRequest(before.requests, 0, 0);
  }

  lemma SecondIsCorrelated()
    ensures WithProduct(BegunAgain(AttemptStatus.LinkCreated).attempts, Some("third")) == Some(1)
  {
    var attempts := BegunAgain(AttemptStatus.LinkCreated).attempts;
    assert attempts[..1] == [FirstAttempt(AttemptStatus.Succeeded)];
    assert attempts[..1][..0] == [] && WithProduct([], Some("third")).None?;
  }

  lemma SecondCreditsAre()
    requires Linked(BegunAgain(AttemptStatus.LinkCreated))
    ensures forall events: seq<Event> ::
      AfterSuccess(BegunAgain(AttemptStatus.LinkCreated).(events := events), 1,
                   Receipt(Some("more"), Some(5000), "mail", 0))
        == Both(OrderStatus.Active, OrderStatus.Active, false).(events := events)
  {
    forall events: seq<Event>
      ensures AfterSuccess(BegunAgain(AttemptStatus.LinkCreated).(events := events), 1,
                           Receipt(Some("more"), Some(5000), "mail", 0))
        == Both(OrderStatus.Active, OrderStatus.Active, false).(events := events)
    {
      SecondCreditIs(events);
    }
  }

  lemma SecondIsNew()
    ensures var db := BegunAgain(AttemptStatus.LinkCreated);
      var paid := Both(OrderStatus.Active, OrderStatus.Active, false);
      && !Delivered(db.events, "paid too")
      && (forall e | 0 <= e < |db.events| :: db.events[e].product != Some("third"))
      && (forall o | 0 <= o < |paid.orders| :: !paid.orders[o].status.Suspended?)
      && db.events + [Handled("paid too", "third", "more", 1)] == paid.events
      && BegunAgain(AttemptStatus.LinkCreated).(events := db.events) == db
  {
  }

  lemma SecondPaymentIs()
    requires Linked(BegunAgain(AttemptStatus.LinkCreated))
    ensures AfterDelivery(BegunAgain(AttemptStatus.LinkCreated), Notice("paid too", "third", "more"))
      == Both(OrderStatus.Active, OrderStatus.Active, false)
  {
    SecondIsCorrelated();
    SecondOutcome(BegunAgain(AttemptStatus.LinkCreated).events);
    SecondIsNew();
    SecondCreditsAre();
    NoticeCredits(BegunAgain(AttemptStatus.LinkCreated), 1, "paid too", "third", "more",
      Both(OrderStatus.Active, OrderStatus.Active, false));
  }

  lemma BothArePaid()
    ensures var db := Both(OrderStatus.Active, OrderStatus.Active, false); Reachable(db) && Inv(db)
  {
    BegunAgainIsReachable();
    SecondPaymentIs();
    ReachesByWebhook(BegunAgain(AttemptStatus.LinkCreated), Notice("paid too", "third", "more"),
      Both(OrderStatus.Active, OrderStatus.Active, false));
  }

  lemma BothShare(first: OrderStatus, second: OrderStatus, suspended: bool)
    ensures var db := Both(first, second, suspended);
      OpenAccess(db, 0) == Some(0) && OpenAccess(db, 1) == Some(0) && FlagOf(db, 0) == FlagOf(db, 1) == Some(suspended)
  {
    assert LatestRequest(Both(first, second, suspended).requests, 0, 0, 1) == Some(0);
  }

  lemma BothSwitch()
    ensures AfterSwitch(Both(OrderStatus.Active, OrderStatus.Active, false), 1, true, true)
      == Both(OrderStatus.Active, OrderStatus.Suspended, true)
    ensures AfterSwitch(Both(OrderStatus.Active, OrderStatus.Suspended, true), 0, true, true)
      == Both(OrderStatus.Suspended, OrderStatus.Suspended, true)
    ensures AfterSwitch(Both(OrderStatus.Suspended, OrderStatus.Suspended, true), 0, false, true)
      == Both(OrderStatus.Active, OrderStatus.Suspended, false)
  {
    BothShare(OrderStatus.Active, OrderStatus.Active, false);
    BothShare(OrderStatus.Active, OrderStatus.Suspended, true);
    BothShare(OrderStatus.Suspended, OrderStatus.Suspended, true);
  }

  lemma BothAreSuspended()
    ensures var db := Both(OrderStatus.Suspended, OrderStatus.Suspended, true); Reachable(db) && Inv(db)
  {
    BothArePaid();
    BothSwitch();
    ReachesByFreeze(Both(OrderStatus.Active, OrderStatus.Active, false), 1,
      Both(OrderStatus.Active, OrderStatus.Suspended, true));
    ReachesByFreeze(Both(OrderStatus.Active, OrderStatus.Suspended, true), 0,
      Both(OrderStatus.Suspended, OrderStatus.Suspended, true));
  }

  lemma RestoringUncovers(db: Db)
    requires Linked(db) && db == Both(OrderStatus.Suspended, OrderStatus.Suspended, true)
    ensures Uncovers(db, Restore(0, true))
  {
    BothShare(OrderStatus.Suspended, OrderStatus.Suspended, true);
    assert db.orders[1].status.Suspended? && Shares(db, 0, 1);
  }

  lemma CoveredBefore()
    ensures Covered(Both(OrderStatus.Suspended, OrderStatus.Suspended, true))
    ensures !Covered(Both(OrderStatus.Active, OrderStatus.Suspended, false))
  {
    BothShare(OrderStatus.Suspended, OrderStatus.Suspended, true);
    BothShare(OrderStatus.Active, OrderStatus.Suspended, false);
    var after := Both(OrderStatus.Active, OrderStatus.Suspended, false);
    assert after.orders[1].status.Suspended? && FlagOf(after, 1) != Some(true);
  }

  /** Two orders of one customer for one course are suspended; restoring the one opens the access
      that the other, still SUSPENDED, shares. */
  lemma SharedAccessOpens()
    ensures var db := Both(OrderStatus.Suspended, OrderStatus.Suspended, true);
      && Reachable(db) && Covered(db) && Uncovers(db, Restore(0, true))
      && Apply(db, Restore(0, true)) == Both(OrderStatus.Active, OrderStatus.Suspended, false)
    ensures !Covered(Both(OrderStatus.Active, OrderStatus.Suspended, false))
  {
    BothAreSuspended();
    BothSwitch();
    CoveredBefore();
    F.RestoreDoes(Both(OrderStatus.Suspended, OrderStatus.Suspended, true), 0, true);
    RestoringUncovers(Both(OrderStatus.Suspended, OrderStatus.Suspended, true));
  }

  // ----- a lost lookup -----

  /** Two candidates, of which the first is lost and the second confirms the payment: asked in
      this order nothing is accepted, in the other the payment is. */
  lemma LostBeforeCreditable()
    ensures var client := Client("us",
        id => if id == "lost" then PaymentReply.Lost
          else Answered(Verdict.Success, Some("first"), None, None, Some(5000)),
        product => LostProduct);
      && !Accepts(Meaning(client, "first", 5000, ["lost", "good"]))
      && Accepts(Meaning(client, "first", 5000, ["good", "lost"]))
  {
    var client := Client("us",
      id => if id == "lost" then PaymentReply.Lost
        else Answered(Verdict.Success, Some("first"), None, None, Some(5000)),
      product => LostProduct);
    FirstAt(["lost", "good"], id => Stops(client, "first", 5000, id), 0);
    FirstAt(["good", "lost"], id => Stops(client, "first", 5000, id), 0);
  }
}
