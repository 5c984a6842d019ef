/** InstallmentCollectionService: late installments, automatic suspension and its lifting.
    Instants are minutes and dates are days of the business time zone. */
module Collection {
  import opened Models
  import opened StateMachines
  import opened Credit
  import opened Access

  function Day(now: int): int {
    now / 1440
  }

  /** suspension_deadline: the end of the due day plus the grace hours. */
  function Deadline(due: int, grace: int): int {
    (due + 1) * 1440 + 60 * grace
  }

  /** One run's instant, the grace hours, and the orders for which ClickFunnels answers. */
  datatype Clock = Clock(now: int, grace: int, answers: set<OrderId>)

  predicate Collectable(s: OrderStatus) {
    s.Active? || s.PastDue?
  }

  // ----- marking -----

  predicate TurnsDue(db: Db, k: InstallmentKey, today: int)
    requires k in db.installments
  {
    && k.order < |db.orders| && Collectable(db.orders[k.order].status)
    && db.installments[k].status.Scheduled? && db.installments[k].due <= today
  }

  function AfterMarkDue(db: Db, today: int): Db {
    db.(installments := map k | k in db.installments ::
          if TurnsDue(db, k, today) then db.installments[k].(status := InstallmentStatus.Due) else db.installments[k])
  }

  method MarkDue(db: Database, today: int)
    modifies db`installments
    ensures db.State() == AfterMarkDue(old(db.State()), today)
  {
    ghost var before := db.State();
    var all := set k | k in db.installments && TurnsDue(db.State(), k, today);
    var todo := all;
    while todo != {}
      invariant todo <= all
      invariant db.installments.Keys == before.installments.Keys
      invariant forall k | k in before.installments ::
        db.installments[k] == (if k in all && k !in todo then before.installments[k].(status := InstallmentStatus.Due)
                               else before.installments[k])
    {
      var k :| k in todo;
      var refused := TransitionInstallment(db, k, InstallmentStatus.Due, None);
      assert refused.None?;
      todo := todo - {k};
    }
  }

  predicate TurnsLate(db: Db, o: OrderId, today: int)
    requires o < |db.orders|
  {
    db.orders[o].status.Active? && StillLate(db.installments, o, db.orders[o].count, today)
  }

  function AfterMarkLate(db: Db, today: int): Db {
    db.(orders := seq(|db.orders|, o requires 0 <= o < |db.orders| =>
          if TurnsLate(db, o, today) then db.orders[o].(status := OrderStatus.PastDue) else db.orders[o]))
  }

  method MarkLate(db: Database, today: int)
    modifies db`orders
    ensures db.State() == AfterMarkLate(old(db.State()), today)
  {
    ghost var before := db.State();
    for o := |db.orders| downto 0
      invariant |db.orders| == |before.orders|
      invariant forall x | 0 <= x < |before.orders| ::
        db.orders[x] == (if x >= o && TurnsLate(before, x, today) then before.orders[x].(status := OrderStatus.PastDue)
                         else before.orders[x])
    {
      if TurnsLate(db.State(), o, today) {
        var refused := TransitionOrder(db, o, OrderStatus.PastDue);
        assert refused.None?;
      }
    }
  }

  // ----- suspension -----

  /** Some unpaid installment of the order is past its deadline (_still_beyond_deadline). */
  predicate BeyondDeadline(db: Db, o: OrderId, clock: Clock)
    requires o < |db.orders|
  {
    exists s: nat | 1 <= s <= db.orders[o].count ::
      && InstallmentKey(o, s) in db.installments
      && IsOpen(db.installments[InstallmentKey(o, s)].status)
      && clock.now >= Deadline(db.installments[InstallmentKey(o, s)].due, clock.grace)
  }

  /** The same, and late by date as well. */
  predicate LongLate(db: Db, o: OrderId, clock: Clock)
    requires o < |db.orders|
  {
    exists s: nat | 1 <= s <= db.orders[o].count ::
      && InstallmentKey(o, s) in db.installments
      && IsOpen(db.installments[InstallmentKey(o, s)].status)
      && db.installments[InstallmentKey(o, s)].due < Day(clock.now)
      && clock.now >= Deadline(db.installments[InstallmentKey(o, s)].due, clock.grace)
  }

  /** Selected by _suspend_overdue. */
  predicate Overdue(db: Db, o: OrderId, clock: Clock)
    requires o < |db.orders|
  {
    Collectable(db.orders[o].status) && db.orders[o].nonpayment.None? && LongLate(db, o, clock)
  }

  function AfterMark(db: Db, o: OrderId, now: int): Db
    requires o < |db.orders|
  {
    db.(orders := db.orders[o := db.orders[o].(nonpayment := Some(now))])
  }

  /** The marker is written whatever the order has become meanwhile. */
  method MarkSuspended(db: Database, o: OrderId, now: int)
    requires o < |db.orders|
    modifies db`orders
    ensures db.State() == AfterMark(old(db.State()), o, now)
  {
    db.orders := db.orders[o := db.orders[o].(nonpayment := Some(now))];
  }

  function AfterUnmark(db: Db, o: OrderId, today: int): Db
    requires o < |db.orders|
  {
    var cleared := db.(orders := db.orders[o := db.orders[o].(nonpayment := None)]);
    cleared.(orders := WithRecomputed(cleared, o, today))
  }

  /** The last transaction of resume_if_settled. */
  method ClearMark(db: Database, o: OrderId, today: int)
    requires o < |db.orders|
    modifies db`orders
    ensures db.State() == AfterUnmark(old(db.State()), o, today)
  {
    db.orders := db.orders[o := db.orders[o].(nonpayment := None)];
    UpdateOrderStatus(db, o, today);
  }

  function AfterSuspension(db: Db, o: OrderId, clock: Clock): Db
    requires o < |db.orders|
  {
    if Overdue(db, o, clock) && Switchable(db, o, true, o in clock.answers)
    then AfterMark(Switched(db, o, true), o, clock.now)
    else db
  }

  /** One turn of the loop of _suspend_overdue. */
  method SuspendOverdue(db: Database, o: OrderId, clock: Clock)
    requires o < |db.orders|
    modifies db`orders, db`requests
    ensures db.State() == AfterSuspension(old(db.State()), o, clock)
  {
    if Overdue(db.State(), o, clock) {
      var done := SetOrderSuspension(db, o, true, o in clock.answers);
      if done {
        MarkSuspended(db, o, clock.now);
      }
    }
  }

  /** resume_if_settled goes through. */
  predicate Resumable(db: Db, o: OrderId, clock: Clock)
    requires o < |db.orders|
  {
    && db.orders[o].status.Suspended? && db.orders[o].nonpayment.Some?
    && !BeyondDeadline(db, o, clock)
    && Switchable(db, o, false, o in clock.answers)
  }

  function AfterResumption(db: Db, o: OrderId, clock: Clock): Db
    requires o < |db.orders|
  {
    if Resumable(db, o, clock) then AfterUnmark(Switched(db, o, false), o, Day(clock.now)) else db
  }

  method ResumeIfSettled(db: Database, o: OrderId, clock: Clock) returns (resumed: bool)
    requires o < |db.orders|
    modifies db`orders, db`requests
    ensures resumed == Resumable(old(db.State()), o, clock)
    ensures db.State() == AfterResumption(old(db.State()), o, clock)
  {
    if !db.orders[o].status.Suspended? || db.orders[o].nonpayment.None? {
      return false;
    }
    if BeyondDeadline(db.State(), o, clock) {
      return false;
    }
    resumed := SetOrderSuspension(db, o, false, o in clock.answers);
    if resumed {
      ClearMark(db, o, Day(clock.now));
    }
  }

  // ----- the run -----

  /** The orders n.. handled by the loop of _suspend_overdue, newest first. */
  function SuspendedFrom(db: Db, n: nat, clock: Clock): (r: Db)
    requires n <= |db.orders|
    ensures |r.orders| == |db.orders|
    decreases |db.orders| - n
  {
    if n == |db.orders| then db
    else AfterSuspension(SuspendedFrom(db, n + 1, clock), n, clock)
  }

  function ResumedFrom(db: Db, n: nat, clock: Clock): (r: Db)
    requires n <= |db.orders|
    ensures |r.orders| == |db.orders|
    decreases |db.orders| - n
  {
    if n == |db.orders| then db
    else AfterResumption(ResumedFrom(db, n + 1, clock), n, clock)
  }

  function Marked(db: Db, clock: Clock): Db {
    AfterMarkLate(AfterMarkDue(db, Day(clock.now)), Day(clock.now))
  }

  function AfterRun(db: Db, clock: Clock): Db {
    ResumedFrom(SuspendedFrom(Marked(db, clock), 0, clock), 0, clock)
  }

  /** InstallmentCollectionService.run, without its reminder e-mails. */
  method Run(db: Database, clock: Clock)
    modifies db
    ensures db.State() == AfterRun(old(db.State()), clock)
  {
    MarkDue(db, Day(clock.now));
    MarkLate(db, Day(clock.now));
    ghost var marked := db.State();
    for o := |db.orders| downto 0
      invariant |db.orders| == |marked.orders|
      invariant db.State() == SuspendedFrom(marked, o, clock)
    {
      SuspendOverdue(db, o, clock);
    }
    ghost var suspended := db.State();
    for o := |db.orders| downto 0
      invariant |db.orders| == |suspended.orders|
      invariant db.State() == ResumedFrom(suspended, o, clock)
    {
      var resumed := ResumeIfSettled(db, o, clock);
    }
  }
}
