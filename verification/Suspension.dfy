/** Automatic suspension does not flap, and a staff suspension holds. */
module Suspension {
  import opened Models
  import opened Access
  import opened Collection
  import opened Invariants
  import opened Preservation

  // ----- what the turns of one run have in common -----

  /** Only the suspension flags of existing enrollments differ. */
  ghost predicate SameAccess(requests: seq<Request>, requests': seq<Request>) {
    && |requests'| == |requests|
    && forall r | 0 <= r < |requests| ::
         requests'[r] == requests[r].(access := requests'[r].access)
           && (requests'[r].access.Some? <==> requests[r].access.Some?)
  }

  lemma {:induction false} SameLatest(requests: seq<Request>, requests': seq<Request>, contact: nat, course: nat,
      n: nat)
    requires SameAccess(requests, requests') && n <= |requests|
    ensures LatestRequest(requests', contact, course, n) == LatestRequest(requests, contact, course, n)
  {
    if n == 0 {
    } else {
      SameLatest(requests, requests', contact, course, n - 1);
      assert requests'[n - 1] == requests[n - 1].(access := requests'[n - 1].access);
    }
  }

  /** The same sale, but for statuses, markers and flags. */
  ghost predicate Similar(db: Db, db': Db) {
    && |db'.orders| == |db.orders| && (forall o | 0 <= o < |db.orders| :: SameTerms(db.orders[o], db'.orders[o]))
    && SameAccess(db.requests, db'.requests)
    && db'.installments.Keys == db.installments.Keys
    && (forall k | k in db.installments :: db'.installments[k].due == db.installments[k].due
          && (IsOpen(db'.installments[k].status) <==> IsOpen(db.installments[k].status))
          && (IsSettled(db'.installments[k].status) <==> IsSettled(db.installments[k].status)))
  }

  lemma SimilarTransitive(db0: Db, db1: Db, db2: Db)
    requires Similar(db0, db1) && Similar(db1, db2)
    ensures Similar(db0, db2)
  {
    forall r | 0 <= r < |db0.requests|
      ensures db2.requests[r] == db0.requests[r].(access := db2.requests[r].access)
    {
      assert db1.requests[r] == db0.requests[r].(access := db1.requests[r].access);
    }
  }

  lemma SimilarVerdicts(db: Db, db': Db, o: OrderId, clock: Clock)
    requires Similar(db, db') && o < |db.orders|
    ensures OpenAccess(db', o).Some? <==> OpenAccess(db, o).Some?
    ensures BeyondDeadline(db', o, clock) <==> BeyondDeadline(db, o, clock)
    ensures LongLate(db', o, clock) <==> LongLate(db, o, clock)
    ensures AllSettled(db'.installments, o, db'.orders[o].count) <==> AllSettled(db.installments, o, db.orders[o].count)
  {
    assert SameTerms(db.orders[o], db'.orders[o]);
    SameLatest(db.requests, db'.requests, db.orders[o].customer, db.orders[o].course, |db.requests|);
    SimilarDeadline(db, db', o, clock);
    SimilarDeadline(db', db, o, clock);
  }

  lemma SimilarDeadline(db: Db, db': Db, o: OrderId, clock: Clock)
    requires o < |db.orders| && o < |db'.orders| && db'.orders[o].count == db.orders[o].count
    requires db'.installments.Keys == db.installments.Keys
    requires forall k | k in db.installments :: (
      && db'.installments[k].due == db.installments[k].due
      && (IsOpen(db'.installments[k].status) <==> IsOpen(db.installments[k].status)))
    ensures BeyondDeadline(db, o, clock) ==> BeyondDeadline(db', o, clock)
    ensures LongLate(db, o, clock) ==> LongLate(db', o, clock)
  {
    if LongLate(db, o, clock) {
      var s: nat :| && 1 <= s <= db.orders[o].count
        && InstallmentKey(o, s) in db.installments
        && IsOpen(db.installments[InstallmentKey(o, s)].status)
        && db.installments[InstallmentKey(o, s)].due < Day(clock.now)
        && clock.now >= Deadline(db.installments[InstallmentKey(o, s)].due, clock.grace);
      assert InstallmentKey(o, s) in db'.installments;
    }
    if BeyondDeadline(db, o, clock) {
      var s: nat :| && 1 <= s <= db.orders[o].count
        && InstallmentKey(o, s) in db.installments
        && IsOpen(db.installments[InstallmentKey(o, s)].status)
        && clock.now >= Deadline(db.installments[InstallmentKey(o, s)].due, clock.grace);
      assert InstallmentKey(o, s) in db'.installments;
    }
  }

  /** With non-negative grace hours, an installment past its deadline is late by date too. */
  lemma DeadlineIsLate(due: int, clock: Clock)
    requires clock.grace >= 0 && clock.now >= Deadline(due, clock.grace)
    ensures due < Day(clock.now)
  {
  }

  /** The deadline is the grace hours after midnight that ends the due day. */
  lemma DeadlineIs(due: int, grace: int)
    ensures var midnight := Deadline(due, grace) - 60 * grace;
      Day(midnight - 1) == due && Day(midnight) == due + 1
  {
  }

  lemma LongLateIff(db: Db, o: OrderId, clock: Clock)
    requires o < |db.orders|
    ensures LongLate(db, o, clock) ==> BeyondDeadline(db, o, clock)
    ensures clock.grace >= 0 && BeyondDeadline(db, o, clock) ==> LongLate(db, o, clock)
  {
    if BeyondDeadline(db, o, clock) && clock.grace >= 0 {
      var s: nat :| && 1 <= s <= db.orders[o].count
        && InstallmentKey(o, s) in db.installments
        && IsOpen(db.installments[InstallmentKey(o, s)].status)
        && clock.now >= Deadline(db.installments[InstallmentKey(o, s)].due, clock.grace);
      DeadlineIsLate(db.installments[InstallmentKey(o, s)].due, clock);
    }
  }

  // ----- one turn -----

  function SuspendedRow(db: Db, o: OrderId, clock: Clock): Order
    requires o < |db.orders|
  {
    var order := db.orders[o];
    if Overdue(db, o, clock) && OpenAccess(db, o).Some?
    then order.(status := OrderStatus.Suspended, nonpayment := Some(clock.now)) else order
  }

  function ResumedRow(db: Db, o: OrderId, clock: Clock): Order
    requires o < |db.orders|
  {
    var order := db.orders[o];
    if order.status.Suspended? && order.nonpayment.Some? && !BeyondDeadline(db, o, clock) && OpenAccess(db, o).Some?
    then Lifted(db, o) else order
  }

  lemma SuspensionTurn(db: Db, o: OrderId, clock: Clock)
    requires o < |db.orders|
    ensures var db' := AfterSuspension(db, o, clock);
      && Similar(db, db') && db'.installments == db.installments
      && (forall x | 0 <= x < |db.orders| && x != o :: db'.orders[x] == db.orders[x])
      && (db'.orders[o] == SuspendedRow(db, o, clock) || (o !in clock.answers && db'.orders[o] == db.orders[o]))
  {
  }

  lemma ResumptionTurn(db: Db, o: OrderId, clock: Clock)
    requires o < |db.orders|
    ensures var db' := AfterResumption(db, o, clock);
      && Similar(db, db') && db'.installments == db.installments
      && (forall x | 0 <= x < |db.orders| && x != o :: db'.orders[x] == db.orders[x])
      && (db'.orders[o] == ResumedRow(db, o, clock) || (o !in clock.answers && db'.orders[o] == db.orders[o]))
  {
    if Resumable(db, o, clock) {
      ResumptionIs(db, o, clock);
    }
  }

  lemma SimilarRows(db: Db, db': Db, o: OrderId, clock: Clock)
    requires Similar(db, db') && o < |db.orders| && db'.orders[o] == db.orders[o]
    ensures SuspendedRow(db', o, clock) == SuspendedRow(db, o, clock)
    ensures ResumedRow(db', o, clock) == ResumedRow(db, o, clock)
  {
    SimilarVerdicts(db, db', o, clock);
  }

  // ----- the two loops -----

  lemma {:induction false} SuspensionLoop(db: Db, n: nat, clock: Clock, o: OrderId)
    requires n <= |db.orders| && o < |db.orders|
    ensures var db' := SuspendedFrom(db, n, clock);
      && Similar(db, db') && db'.installments == db.installments
      && (o >= n && o in clock.answers ==> db'.orders[o] == SuspendedRow(db, o, clock))
      && (db'.orders[o] == SuspendedRow(db, o, clock) || db'.orders[o] == db.orders[o])
      && (o < n ==> db'.orders[o] == db.orders[o])
    decreases |db.orders| - n
  {
    if n < |db.orders| {
      SuspensionLoop(db, n + 1, clock, o);
      var before := SuspendedFrom(db, n + 1, clock);
      SuspensionTurn(before, n, clock);
      SimilarTransitive(db, before, AfterSuspension(before, n, clock));
      if o == n {
        SimilarRows(db, before, o, clock);
      }
    } else {
      assert Similar(db, db);
    }
  }

  lemma {:induction false} ResumptionLoop(db: Db, n: nat, clock: Clock, o: OrderId)
    requires n <= |db.orders| && o < |db.orders|
    ensures var db' := ResumedFrom(db, n, clock);
      && Similar(db, db') && db'.installments == db.installments
      && (o >= n && o in clock.answers ==> db'.orders[o] == ResumedRow(db, o, clock))
      && (db'.orders[o] == ResumedRow(db, o, clock) || db'.orders[o] == db.orders[o])
      && (o < n ==> db'.orders[o] == db.orders[o])
    decreases |db.orders| - n
  {
    if n < |db.orders| {
      ResumptionLoop(db, n + 1, clock, o);
      var before := ResumedFrom(db, n + 1, clock);
      ResumptionTurn(before, n, clock);
      SimilarTransitive(db, before, AfterResumption(before, n, clock));
      if o == n {
        SimilarRows(db, before, o, clock);
      }
    } else {
      assert Similar(db, db);
    }
  }

  // ----- one run -----

  /** Every suspended order has its open access: so it is in every run. */
  ghost predicate AccessOpen(db: Db) {
    forall o | 0 <= o < |db.orders| && db.orders[o].status.Suspended? :: OpenAccess(db, o).Some?
  }

  lemma MarkedIsSimilar(db: Db, clock: Clock)
    ensures Similar(db, Marked(db, clock))
  {
  }

  /** What the loops leave of a row they see after the marking. */
  lemma RunIs(db: Db, o: OrderId, clock: Clock)
    requires o < |db.orders| && o in clock.answers
    ensures var marked := Marked(db, clock);
      && Similar(db, AfterRun(db, clock)) && Similar(db, marked) && Similar(marked, AfterRun(db, clock))
      && AfterRun(db, clock).orders[o] ==
           if marked.orders[o].status.Suspended? then ResumedRow(marked, o, clock) else SuspendedRow(marked, o, clock)
  {
    var marked := Marked(db, clock);
    MarkedIsSimilar(db, clock);
    SuspensionLoop(marked, 0, clock, o);
    var suspended := SuspendedFrom(marked, 0, clock);
    ResumptionLoop(suspended, 0, clock, o);
    SimilarTransitive(db, marked, suspended);
    SimilarTransitive(db, suspended, AfterRun(db, clock));
    SimilarTransitive(marked, suspended, AfterRun(db, clock));
    SimilarVerdicts(marked, suspended, o, clock);
    LongLateIff(marked, o, clock);
  }

  /** Marking touches neither suspended orders nor the marker. */
  lemma MarkingKeeps(db: Db, o: OrderId, clock: Clock)
    requires o < |db.orders|
    ensures var row := Marked(db, clock).orders[o];
      && row == db.orders[o].(status := row.status)
      && (row.status != db.orders[o].status ==> db.orders[o].status.Active? && row.status.PastDue?)
  {
  }

  /** One run never suspends and resumes the same order: an order it suspends ends the run
      SUSPENDED, marked with the run's instant; one it resumes was SUSPENDED before it. */
  lemma RunDoesNotFlap(db: Db, o: OrderId, clock: Clock)
    requires o < |db.orders|
    ensures var marked := Marked(db, clock); var suspended := SuspendedFrom(marked, 0, clock);
      && |suspended.orders| == |db.orders| && |AfterRun(db, clock).orders| == |db.orders|
      && (suspended.orders[o] != marked.orders[o] ==>
            && AfterRun(db, clock).orders[o] == suspended.orders[o]
            && suspended.orders[o].status.Suspended? && suspended.orders[o].nonpayment == Some(clock.now))
      && (AfterRun(db, clock).orders[o] != suspended.orders[o] ==> db.orders[o].status.Suspended?)
  {
    MarkingKeeps(db, o, clock);
    MarkedIsSimilar(db, clock);
    var marked := Marked(db, clock);
    SuspensionLoop(marked, 0, clock, o);
    var suspended := SuspendedFrom(marked, 0, clock);
    ResumptionLoop(suspended, 0, clock, o);
    SimilarVerdicts(marked, suspended, o, clock);
    LongLateIff(marked, o, clock);
  }

  /** Some installment of the order is still to be paid `grace` hours after its due day is over:
      the instant written out on the rows. */
  predicate OverstaysGrace(db: Db, o: OrderId, clock: Clock)
    requires o < |db.orders|
  {
    exists k | k in db.installments && k.order == o && 1 <= k.sequence <= db.orders[o].count ::
      var row := db.installments[k];
      && row.status !in {InstallmentStatus.Paid, InstallmentStatus.Waived, InstallmentStatus.Cancelled}
      && clock.now >= (row.due + 1) * 1440 + 60 * clock.grace
  }

  lemma OverstaysIff(db: Db, o: OrderId, clock: Clock)
    requires o < |db.orders|
    ensures BeyondDeadline(db, o, clock) <==> OverstaysGrace(db, o, clock)
  {
    if OverstaysGrace(db, o, clock) {
      var k :| k in db.installments && k.order == o && 1 <= k.sequence <= db.orders[o].count
        && db.installments[k].status !in {InstallmentStatus.Paid, InstallmentStatus.Waived, InstallmentStatus.Cancelled}
        && clock.now >= (db.installments[k].due + 1) * 1440 + 60 * clock.grace;
      assert k == InstallmentKey(o, k.sequence);
    }
  }

  /** An automatically suspended order is resumed exactly when none of its
      unpaid installments is past the deadline; it ends ACTIVE or COMPLETED, without marker. */
  lemma ResumedIff(db: Db, o: OrderId, clock: Clock)
    requires o < |db.orders| && o in clock.answers
    requires AccessOpen(db) && db.orders[o].status.Suspended? && db.orders[o].nonpayment.Some?
    ensures var row := AfterRun(db, clock).orders[o];
      && (row.status.Suspended? <==> OverstaysGrace(db, o, clock))
      && (row.status.Suspended? ==> row == db.orders[o])
      && (!row.status.Suspended? ==> row.nonpayment.None?)
      && (!row.status.Suspended? ==>
            row.status == if AllSettled(db.installments, o, db.orders[o].count) then OrderStatus.Completed
              else OrderStatus.Active)
  {
    RunIs(db, o, clock);
    MarkingKeeps(db, o, clock);
    SimilarVerdicts(db, Marked(db, clock), o, clock);
    OverstaysIff(db, o, clock);
  }

  /** An order in collection, not marked before, is suspended exactly when its access is open
      and one of its unpaid installments is past the deadline. */
  lemma SuspendedIff(db: Db, o: OrderId, clock: Clock)
    requires o < |db.orders| && o in clock.answers && clock.grace >= 0
    requires Collectable(db.orders[o].status) && db.orders[o].nonpayment.None?
    ensures AfterRun(db, clock).orders[o].status.Suspended?
      <==> OverstaysGrace(db, o, clock) && OpenAccess(db, o).Some?
    ensures AfterRun(db, clock).orders[o].status.Suspended? ==>
      AfterRun(db, clock).orders[o].nonpayment == Some(clock.now)
  {
    RunIs(db, o, clock);
    MarkingKeeps(db, o, clock);
    SimilarVerdicts(db, Marked(db, clock), o, clock);
    LongLateIff(db, o, clock);
    OverstaysIff(db, o, clock);
  }

  /** A run at this instant would neither suspend nor resume the order. */
  ghost predicate Idle(db: Db, o: OrderId, clock: Clock)
    requires o < |db.orders|
  {
    SuspendedRow(db, o, clock) == db.orders[o] && ResumedRow(db, o, clock) == db.orders[o]
  }

  /** Marking an order late does not make it one to suspend or resume. */
  lemma MarkingKeepsIdle(db: Db, o: OrderId, clock: Clock)
    requires o < |db.orders| && Idle(db, o, clock)
    ensures Idle(Marked(db, clock), o, clock)
  {
    MarkedIsSimilar(db, clock);
    MarkingKeeps(db, o, clock);
    SimilarVerdicts(db, Marked(db, clock), o, clock);
  }

  /** The row a run leaves, in a database like the one it saw. */
  lemma LeftRowIsIdle(marked: Db, once: Db, o: OrderId, clock: Clock)
    requires Similar(marked, once) && o < |marked.orders|
    requires once.orders[o] ==
      if marked.orders[o].status.Suspended? then ResumedRow(marked, o, clock) else SuspendedRow(marked, o, clock)
    ensures Idle(once, o, clock)
  {
    SimilarVerdicts(marked, once, o, clock);
    LongLateIff(marked, o, clock);
  }

  lemma RunLeavesIdle(db: Db, o: OrderId, clock: Clock)
    requires o < |db.orders| && o in clock.answers
    ensures o < |AfterRun(db, clock).orders| && Idle(AfterRun(db, clock), o, clock)
  {
    RunIs(db, o, clock);
    LeftRowIsIdle(Marked(db, clock), AfterRun(db, clock), o, clock);
  }

  lemma IdleRun(db: Db, o: OrderId, clock: Clock)
    requires o < |db.orders| && o in clock.answers && Idle(db, o, clock)
    ensures var row := Marked(db, clock).orders[o];
      o < |AfterRun(db, clock).orders| && AfterRun(db, clock).orders[o] == row
  {
    RunIs(db, o, clock);
    MarkingKeepsIdle(db, o, clock);
  }

  /** A second run at the same instant suspends and resumes nothing. */
  lemma SecondRunIsIdle(db: Db, o: OrderId, clock: Clock)
    requires o < |db.orders| && o in clock.answers
    ensures var once := AfterRun(db, clock); var twice := AfterRun(once, clock);
      && |once.orders| == |db.orders| && |twice.orders| == |db.orders|
      && (twice.orders[o].status.Suspended? <==> once.orders[o].status.Suspended?)
      && twice.orders[o].nonpayment == once.orders[o].nonpayment
  {
    RunLeavesIdle(db, o, clock);
    IdleRun(AfterRun(db, clock), o, clock);
    MarkingKeeps(AfterRun(db, clock), o, clock);
  }
}
