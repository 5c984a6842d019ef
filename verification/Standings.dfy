/** Where an order stands after a payment, a waiver, a lifting or a collection run, and whether it
    gives access: read off the rows of its installments. */
module Standings {
  import opened Models
  import opened FollowUps
  import opened Credit
  import opened Administration
  import opened Access
  import opened Collection
  import opened Invariants
  import opened Closing
  import opened Preservation
  import opened CreditProofs

  // ----- the rows of an order -----

  /** Neither paid nor waived nor cancelled, and due before today. */
  predicate LateRow(row: Installment, today: int) {
    !row.status.Paid? && !row.status.Waived? && !row.status.Cancelled? && row.due < today
  }

  predicate PaidOrWaived(row: Installment) {
    row.status.Paid? || row.status.Waived?
  }

  /** Some installment of the order, other than number `skipped`, is late. */
  predicate SomeLate(db: Db, o: OrderId, skipped: nat, today: int)
    requires Linked(db) && o < |db.orders|
  {
    exists n: nat | 1 <= n <= db.orders[o].count ::
      n != skipped && LateRow(db.installments[InstallmentKey(o, n)], today)
  }

  predicate AllDone(db: Db, o: OrderId, skipped: nat)
    requires Linked(db) && o < |db.orders|
  {
    forall n: nat | 1 <= n <= db.orders[o].count ::
      n == skipped || PaidOrWaived(db.installments[InstallmentKey(o, n)])
  }

  predicate SomePaid(db: Db, o: OrderId)
    requires Linked(db) && o < |db.orders|
  {
    exists n: nat | 1 <= n <= db.orders[o].count :: db.installments[InstallmentKey(o, n)].status.Paid?
  }

  lemma RowsSay(db: Db, o: OrderId, today: int)
    requires Linked(db) && o < |db.orders|
    ensures StillLate(db.installments, o, db.orders[o].count, today) <==> SomeLate(db, o, 0, today)
    ensures AllSettled(db.installments, o, db.orders[o].count) <==> AllDone(db, o, 0)
    ensures AnyPaid(db.installments, o, db.orders[o].count) <==> SomePaid(db, o)
  {
    if SomeLate(db, o, 0, today) {
      var n: nat :| 1 <= n <= db.orders[o].count && LateRow(db.installments[InstallmentKey(o, n)], today);
      assert InstallmentKey(o, n) in db.installments;
    }
    if SomePaid(db, o) {
      var n: nat :| 1 <= n <= db.orders[o].count && db.installments[InstallmentKey(o, n)].status.Paid?;
      assert InstallmentKey(o, n) in db.installments;
    }
  }

  // ----- recomputation -----

  /** Each status, and when the order has it after being looked at again: `before` is the status
      it had, the rows are those of db. */
  ghost predicate Stands(db: Db, o: OrderId, before: OrderStatus, after: OrderStatus, today: int)
    requires Linked(db) && o < |db.orders|
  {
    && (after.Completed? <==> before.Completed? || (AllDone(db, o, 0) && !before.Cancelled? && !before.Suspended?))
    && (after.PastDue? <==> before.PastDue? && SomeLate(db, o, 0, today))
    && (after.Active? <==> (
          && !AllDone(db, o, 0)
          && (before.Active? || (before.PastDue? && !SomeLate(db, o, 0, today))
              || ((before.Pending? || before.Expired?) && SomePaid(db, o)))))
    && (after.Pending? <==> before.Pending? && !SomePaid(db, o) && !AllDone(db, o, 0))
    && (after.Expired? <==> before.Expired? && !SomePaid(db, o) && !AllDone(db, o, 0))
    && (after.Cancelled? <==> before.Cancelled?) && (after.Suspended? <==> before.Suspended?)
  }

  lemma Recomputes(db: Db, o: OrderId, today: int)
    requires Linked(db) && o < |db.orders|
    ensures var orders := WithRecomputed(db, o, today);
      && Stands(db, o, db.orders[o].status, orders[o].status, today)
      && orders == db.orders[o := db.orders[o].(status := orders[o].status)]
  {
    RowsSay(db, o, today);
  }

  lemma SettlingIs(db: Db, k: InstallmentKey, row: Installment, today: int)
    requires Linked(db) && k in db.installments
    ensures var settled := db.(installments := db.installments[k := row]); var db' := Settling(db, k, row, today);
      && Linked(settled) && |db'.orders| == |db.orders|
      && db'.installments == settled.installments && db'.attempts == db.attempts
      && db'.orders == WithRecomputed(settled, k.order, today)
  {
  }

  lemma SameTermsLinked(db: Db, db': Db)
    requires Linked(db) && |db'.orders| == |db.orders|
    requires db'.installments == db.installments && db'.attempts == db.attempts
    requires forall o | 0 <= o < |db.orders| :: db'.orders[o].count == db.orders[o].count
    ensures Linked(db')
  {
  }

  lemma SettlingStands(db: Db, k: InstallmentKey, row: Installment, today: int)
    requires Linked(db) && k in db.installments
    ensures var db' := Settling(db, k, row, today);
      && Linked(db') && |db'.orders| == |db.orders|
      && Stands(db', k.order, db.orders[k.order].status, db'.orders[k.order].status, today)
      && (forall x | 0 <= x < |db.orders| && x != k.order :: db'.orders[x] == db.orders[x])
  {
    var settled := db.(installments := db.installments[k := row]);
    SettlingIs(db, k, row, today);
    Recomputes(settled, k.order, today);
    SameTermsLinked(settled, Settling(db, k, row, today));
    SameRowsStand(settled, Settling(db, k, row, today), k.order, today);
  }

  lemma SameRowsStand(db: Db, db': Db, o: OrderId, today: int)
    requires Linked(db) && Linked(db') && o < |db.orders| == |db'.orders| && db'.installments == db.installments
    requires db'.orders[o].count == db.orders[o].count
    ensures SomeLate(db', o, 0, today) == SomeLate(db, o, 0, today)
    ensures AllDone(db', o, 0) == AllDone(db, o, 0) && SomePaid(db', o) == SomePaid(db, o)
  {
  }

  /** Every status an order can have after a verified success that was applied. */
  lemma StandsAfterCredit(db: Db, a: AttemptId, s: Receipt)
    requires Linked(db) && a < |db.attempts| && SuccessOutcome(db, a, s.payment).Applied?
    ensures var db' := AfterSuccess(db, a, s); var o := db.attempts[a].installment.order;
      && Linked(db') && |db'.orders| == |db.orders|
      && Stands(db', o, db.orders[o].status, db'.orders[o].status, s.today)
      && (forall x | 0 <= x < |db.orders| && x != o :: db'.orders[x] == db.orders[x])
  {
    CreditedIs(db, a, s);
    var k := db.attempts[a].installment;
    var half := db.(attempts := CreditedAttempts(db.attempts, a, s.payment));
    SettlingStands(half, k, PaidRow(db, a, s), s.today);
    SameRowsStand(Settling(half, k, PaidRow(db, a, s), s.today), AfterSuccess(db, a, s), k.order, s.today);
  }

  /** And after a waiver that went through. */
  lemma StandsAfterWaiver(db: Db, k: InstallmentKey, today: int)
    requires Linked(db) && k in db.installments && InstallmentDecision(db, k, InstallmentStatus.Waived).Done?
    ensures var db' := AfterWaive(db, k, today);
      && Linked(db') && |db'.orders| == |db.orders|
      && Stands(db', k.order, db.orders[k.order].status, db'.orders[k.order].status, today)
      && (forall x | 0 <= x < |db.orders| && x != k.order :: db'.orders[x] == db.orders[x])
  {
    WaiveIs(db, k, today);
    var half := db.(attempts := ClosedAttempts(db.attempts, {k}));
    SettlingStands(half, k, db.installments[k].(status := InstallmentStatus.Waived), today);
  }

  /** After a lifting the order stands as an ACTIVE one would. */
  lemma StandsAfterLifting(db: Db, o: OrderId, clock: Clock)
    requires Linked(db) && o < |db.orders| && Resumable(db, o, clock)
    ensures var db' := AfterResumption(db, o, clock);
      && Linked(db') && |db'.orders| == |db.orders| && db'.installments == db.installments
      && Stands(db', o, OrderStatus.Active, db'.orders[o].status, clock.now / 1440)
      && db'.orders[o].nonpayment.None?
  {
    var switched := Switched(db, o, false);
    var cleared := switched.(orders := switched.orders[o := switched.orders[o].(nonpayment := None)]);
    Recomputes(cleared, o, Day(clock.now));
    SameRowsStand(cleared, AfterResumption(db, o, clock), o, Day(clock.now));
  }

  // ----- catching up -----

  lemma OtherRows(db: Db, db': Db, k: InstallmentKey, today: int)
    requires Linked(db) && Linked(db') && k in db.installments && |db'.orders| == |db.orders|
    requires db'.orders[k.order].count == db.orders[k.order].count && db'.installments.Keys == db.installments.Keys
    requires forall x | x in db.installments && x != k :: db'.installments[x] == db.installments[x]
    requires PaidOrWaived(db'.installments[k])
    ensures SomeLate(db', k.order, 0, today) <==> SomeLate(db, k.order, k.sequence, today)
    ensures AllDone(db', k.order, 0) <==> AllDone(db, k.order, k.sequence)
  {
    forall n: nat | 1 <= n <= db.orders[k.order].count
      ensures n == k.sequence <==> InstallmentKey(k.order, n) == k
      ensures n != k.sequence ==>
        db'.installments[InstallmentKey(k.order, n)] == db.installments[InstallmentKey(k.order, n)]
    {
      assert k == InstallmentKey(k.order, k.sequence);
    }
    if SomeLate(db, k.order, k.sequence, today) {
      var n: nat :| 1 <= n <= db.orders[k.order].count && n != k.sequence
        && LateRow(db.installments[InstallmentKey(k.order, n)], today);
      assert LateRow(db'.installments[InstallmentKey(k.order, n)], today);
    }
    if SomeLate(db', k.order, 0, today) {
      var n: nat :| 1 <= n <= db'.orders[k.order].count && LateRow(db'.installments[InstallmentKey(k.order, n)], today);
      assert n != k.sequence;
    }
  }

  /** A payment on a PAST_DUE order: with another late installment it stays PAST_DUE, with none
      it is ACTIVE again, and COMPLETED when every other installment is paid or waived. */
  lemma CaughtUpIff(db: Db, a: AttemptId, s: Receipt)
    requires Linked(db) && a < |db.attempts| && SuccessOutcome(db, a, s.payment).Applied?
    requires db.orders[db.attempts[a].installment.order].status.PastDue?
    ensures var k := db.attempts[a].installment; var o := k.order; var orders := AfterSuccess(db, a, s).orders;
      && o < |orders|
      && (orders[o].status.PastDue? <==> SomeLate(db, o, k.sequence, s.today))
      && (orders[o].status.Completed? <==> AllDone(db, o, k.sequence))
      && (orders[o].status.Active? <==> !SomeLate(db, o, k.sequence, s.today) && !AllDone(db, o, k.sequence))
  {
    StandsAfterCredit(db, a, s);
    OtherRows(db, AfterSuccess(db, a, s), db.attempts[a].installment, s.today);
  }

  /** The same for a waiver. */
  lemma WaivedUpIff(db: Db, k: InstallmentKey, today: int)
    requires Linked(db) && k in db.installments && InstallmentDecision(db, k, InstallmentStatus.Waived).Done?
    requires db.orders[k.order].status.PastDue?
    ensures var orders := AfterWaive(db, k, today).orders;
      && k.order < |orders|
      && (orders[k.order].status.PastDue? <==> SomeLate(db, k.order, k.sequence, today))
      && (orders[k.order].status.Completed? <==> AllDone(db, k.order, k.sequence))
      && (orders[k.order].status.Active? <==>
            !SomeLate(db, k.order, k.sequence, today) && !AllDone(db, k.order, k.sequence))
  {
    StandsAfterWaiver(db, k, today);
    OtherRows(db, AfterWaive(db, k, today), k, today);
  }

  // ----- access -----

  /** The sale gives access: at its first payment, or once everything is paid or waived. */
  predicate Opens(db: Db, o: OrderId)
    requires Linked(db) && o < |db.orders|
  {
    if db.orders[o].policy.FullPayment? then AllDone(db, o, 0) else SomePaid(db, o)
  }

  predicate InForce(requests: seq<Request>, customer: nat, course: nat) {
    exists r | 0 <= r < |requests| ::
      requests[r].contact == customer && requests[r].course == course && !requests[r].status.Cancelled?
  }

  /** The new request of a sale, or none: exactly when the sale gives access and no request in
      force serves its customer and course. */
  ghost predicate Requests(db: Db, db': Db, o: OrderId)
    requires Linked(db') && o < |db.orders| == |db'.orders|
  {
    var order := db.orders[o];
    db'.requests ==
      if Opens(db', o) && !InForce(db.requests, order.customer, order.course)
      then db.requests + [Request(o, order.customer, order.course, RequestStatus.Pending, 0, 0, None)]
      else db.requests
  }

  lemma RequestIff(db: Db, db': Db, o: OrderId)
    requires Linked(db') && o < |db.orders| == |db'.orders| && SameTerms(db.orders[o], db'.orders[o])
    requires db'.requests == if Eligible(db', o) then WithRequest(db.requests, o, db.orders[o]) else db.requests
    ensures Requests(db, db', o)
  {
    RowsSay(db', o, 0);
    assert HasRequest(db.requests, db.orders[o].customer, db.orders[o].course)
      <==> InForce(db.requests, db.orders[o].customer, db.orders[o].course);
  }

  lemma SettlingOpens(db: Db, k: InstallmentKey, row: Installment, today: int)
    requires Linked(db) && k in db.installments
    ensures var db' := Settling(db, k, row, today);
      Linked(db') && |db'.orders| == |db.orders| && Requests(db, db', k.order)
  {
    SettlingStands(db, k, row, today);
    RequestIff(db, Settling(db, k, row, today), k.order);
  }

  /** A credit requests the access exactly when the sale then gives it and no request in force
      serves it. */
  lemma CreditOpens(db: Db, a: AttemptId, s: Receipt)
    requires Linked(db) && a < |db.attempts| && SuccessOutcome(db, a, s.payment).Applied?
    ensures var db' := AfterSuccess(db, a, s); var o := db.attempts[a].installment.order;
      Linked(db') && |db'.orders| == |db.orders| && Requests(db, db', o)
  {
    CreditedIs(db, a, s);
    var k := db.attempts[a].installment;
    var half := db.(attempts := CreditedAttempts(db.attempts, a, s.payment));
    SettlingOpens(half, k, PaidRow(db, a, s), s.today);
    SameRowsStand(Settling(half, k, PaidRow(db, a, s), s.today), AfterSuccess(db, a, s), k.order, s.today);
  }

  /** So does a waiver. */
  lemma WaiverOpens(db: Db, k: InstallmentKey, today: int)
    requires Linked(db) && k in db.installments && InstallmentDecision(db, k, InstallmentStatus.Waived).Done?
    ensures var db' := AfterWaive(db, k, today);
      Linked(db') && |db'.orders| == |db.orders| && Requests(db, db', k.order)
  {
    WaiveIs(db, k, today);
    var half := db.(attempts := ClosedAttempts(db.attempts, {k}));
    SettlingOpens(half, k, db.installments[k].(status := InstallmentStatus.Waived), today);
  }

  // ----- collection -----

  /** Marking: a SCHEDULED installment of an ACTIVE or PAST_DUE order turns DUE on its due day,
      an ACTIVE order PAST_DUE the day after; nothing else changes. */
  lemma MarkingIsExact(db: Db, clock: Clock)
    requires Linked(db)
    ensures var db' := Marked(db, clock); var today := clock.now / 1440;
      && db' == db.(installments := db'.installments, orders := db'.orders)
      && db'.installments.Keys == db.installments.Keys && |db'.orders| == |db.orders|
      && (forall k | k in db.installments :: var row := db.installments[k]; var status := db.orders[k.order].status;
            && db'.installments[k] == row.(status := db'.installments[k].status)
            && (db'.installments[k] != row <==>
                  row.status.Scheduled? && row.due <= today && (status.Active? || status.PastDue?))
            && (db'.installments[k] != row ==> db'.installments[k].status.Due?))
      && (forall o | 0 <= o < |db.orders| ::
            && db'.orders[o] == db.orders[o].(status := db'.orders[o].status)
            && (db'.orders[o] != db.orders[o] <==> db.orders[o].status.Active? && SomeLate(db, o, 0, today))
            && (db'.orders[o] != db.orders[o] ==> db'.orders[o].status.PastDue?))
  {
    var due := AfterMarkDue(db, Day(clock.now));
    forall o | 0 <= o < |db.orders|
      ensures StillLate(due.installments, o, db.orders[o].count, Day(clock.now)) <==> SomeLate(db, o, 0, Day(clock.now))
    {
      RowsSay(due, o, Day(clock.now));
      DueIsAsLate(db, due, o, Day(clock.now));
    }
  }

  lemma DueIsAsLate(db: Db, due: Db, o: OrderId, today: int)
    requires Linked(db) && Linked(due) && o < |db.orders| && due.orders == db.orders
    requires due.installments.Keys == db.installments.Keys
    requires forall k | k in db.installments ::
      LateRow(due.installments[k], today) == LateRow(db.installments[k], today)
    ensures SomeLate(due, o, 0, today) <==> SomeLate(db, o, 0, today)
  {
    forall n: nat | 1 <= n <= db.orders[o].count
      ensures var k := InstallmentKey(o, n);
        LateRow(due.installments[k], today) == LateRow(db.installments[k], today)
    {
      assert InstallmentKey(o, n) in db.installments;
    }
  }
}
