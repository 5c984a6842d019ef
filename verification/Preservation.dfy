/** Each transaction that credits nothing is quiet and keeps the invariant. */
module Preservation {
  import opened Models
  import opened StateMachines
  import opened Credit
  import opened FollowUps
  import opened Administration
  import opened Invariants
  import opened Checkout
  import opened Closing
  import opened Expiry
  import opened Access
  import opened Collection
  import opened Checks

  // ----- steps on attempts only -----

  ghost predicate RowQuiet(row: Attempt, row': Attempt) {
    && AttemptGrows(row, row') && row'.payment == row.payment
    && (row'.status.Succeeded? ==> row.status.Succeeded?)
  }

  ghost predicate AttemptsQuiet(attempts: seq<Attempt>, attempts': seq<Attempt>) {
    && |attempts| <= |attempts'|
    && (forall a | 0 <= a < |attempts| :: RowQuiet(attempts[a], attempts'[a]))
    && (forall a | |attempts| <= a < |attempts'| ::
          attempts'[a].payment.None? && !attempts'[a].status.Succeeded?)
  }

  lemma AttemptsAreQuiet(db: Db, attempts: seq<Attempt>)
    requires AttemptsQuiet(db.attempts, attempts)
    ensures Quiet(db, db.(attempts := attempts))
  {
    forall a | 0 <= a < |db.attempts|
      ensures RowQuiet(db.attempts[a], attempts[a])
    {
    }
  }

  lemma AttemptsStep(db: Db, attempts: seq<Attempt>)
    requires Inv(db)
    requires AttemptsQuiet(db.attempts, attempts) && AttemptsOk(attempts) && AttemptAmountsOk(attempts, db.installments)
    ensures var db' := db.(attempts := attempts); Quiet(db, db') && Inv(db')
  {
    AttemptsAreQuiet(db, attempts);
    QuietKeepsCredit(db, db.(attempts := attempts));
  }

  /** One row changes; if it becomes active, it is the only one of its installment. */
  lemma RowStep(attempts: seq<Attempt>, a: AttemptId, row: Attempt)
    requires AttemptsOk(attempts) && a < |attempts| && RowQuiet(attempts[a], row)
    requires IsActive(row.status) ==> IsActive(attempts[a].status) || !Blocked(attempts, a)
    ensures AttemptsQuiet(attempts, attempts[a := row]) && AttemptsOk(attempts[a := row])
  {
    var attempts' := attempts[a := row];
    forall x | 0 <= x < |attempts| && x != a && attempts[x].installment == attempts[a].installment
      && IsActive(row.status)
      ensures !IsActive(attempts[x].status)
    {
      if IsActive(attempts[a].status) {
        assert x < a || a < x;
      }
    }
  }

  lemma RowKeeps(db: Db, a: AttemptId, row: Attempt)
    requires Inv(db) && a < |db.attempts| && RowQuiet(db.attempts[a], row)
    requires IsActive(row.status) ==> IsActive(db.attempts[a].status) || !Blocked(db.attempts, a)
    ensures var db' := db.(attempts := db.attempts[a := row]); Quiet(db, db') && Inv(db')
  {
    RowStep(db.attempts, a, row);
    AttemptsStep(db, db.attempts[a := row]);
  }

  lemma UnchangedIsQuiet(db: Db)
    ensures Quiet(db, db)
  {
  }

  lemma MoveKeeps(db: Db, a: AttemptId, status: AttemptStatus)
    requires Inv(db) && a < |db.attempts| && !status.Succeeded?
    ensures Quiet(db, AfterMove(db, a, status)) && Inv(AfterMove(db, a, status))
  {
    if AttemptTransitionError(db.attempts, a, status).None? {
      RowKeeps(db, a, db.attempts[a].(status := status));
    } else {
      UnchangedIsQuiet(db);
    }
  }

  lemma LinkKeeps(db: Db, a: AttemptId, link: Option<string>)
    requires Inv(db) && a < |db.attempts|
    ensures Quiet(db, AfterLink(db, a, link)) && Inv(AfterLink(db, a, link))
  {
    if db.attempts[a].status.Created? {
      RowKeeps(db, a, db.attempts[a].(status := AttemptStatus.LinkCreated, link := link));
    } else {
      UnchangedIsQuiet(db);
    }
  }

  lemma BumpKeeps(db: Db, a: AttemptId, now: int)
    requires Inv(db) && a < |db.attempts|
    ensures Quiet(db, AfterBump(db, a, now)) && Inv(AfterBump(db, a, now))
  {
    if Checkable(db.attempts[a].status) {
      RowKeeps(db, a, Bumped(db.attempts[a], now));
    } else {
      UnchangedIsQuiet(db);
    }
  }

  /** A new attempt for an installment that has no active one. */
  lemma NewAttemptOk(attempts: seq<Attempt>, k: InstallmentKey, row: Attempt)
    requires AttemptsOk(attempts) && !HasActive(attempts, k) && row.installment == k
    requires row.payment.None? && !row.status.Succeeded?
    requires forall a | 0 <= a < |attempts| :: attempts[a].product != row.product
    ensures AttemptsOk(attempts + [row])
  {
    var more := attempts + [row];
    assert forall x | 0 <= x < |attempts| :: more[x].installment == k ==> !IsActive(more[x].status);
    assert OneActive(more);
  }

  lemma NewAttemptKeeps(db: Db, k: InstallmentKey, row: Attempt)
    requires Inv(db) && k in db.installments && !HasActive(db.attempts, k)
    requires row.installment == k && row.expected == db.installments[k].expected
    requires row.payment.None? && !row.status.Succeeded?
    requires forall a | 0 <= a < |db.attempts| :: db.attempts[a].product != row.product
    ensures var db' := db.(attempts := db.attempts + [row]); Quiet(db, db') && Inv(db')
  {
    NewAttemptOk(db.attempts, k, row);
    AttemptsStep(db, db.attempts + [row]);
  }

  lemma CurrentAttemptKeeps(db: Db, k: InstallmentKey, product: string)
    requires Inv(db) && k in db.installments
    requires forall a | 0 <= a < |db.attempts| :: db.attempts[a].product != product
    ensures Quiet(db, AfterCurrentAttempt(db, k, product)) && Inv(AfterCurrentAttempt(db, k, product))
  {
    if CurrentAttempt(db.attempts, k).New? {
      NewAttemptKeeps(db, k, NewAttempt(k, db.installments[k].expected, product, AttemptStatus.Created));
    } else {
      UnchangedIsQuiet(db);
    }
  }

  lemma ClosedAreQuiet(attempts: seq<Attempt>, keys: set<InstallmentKey>)
    requires AttemptsOk(attempts)
    ensures AttemptsQuiet(attempts, ClosedAttempts(attempts, keys)) && AttemptsOk(ClosedAttempts(attempts, keys))
  {
  }

  lemma ClosingKeeps(db: Db, keys: set<InstallmentKey>)
    requires Inv(db)
    ensures var db' := db.(attempts := ClosedAttempts(db.attempts, keys)); Quiet(db, db') && Inv(db')
  {
    ClosedAreQuiet(db.attempts, keys);
    AttemptsStep(db, ClosedAttempts(db.attempts, keys));
  }

  // ----- steps on orders only -----

  ghost predicate SameSales(orders: seq<Order>, orders': seq<Order>) {
    |orders'| == |orders| && forall o | 0 <= o < |orders| :: SameTerms(orders[o], orders'[o])
  }

  lemma SameSalesAreQuiet(db: Db, orders: seq<Order>)
    requires SameSales(db.orders, orders)
    ensures Quiet(db, db.(orders := orders))
  {
  }

  lemma SameSalesKeepRows(db: Db, orders: seq<Order>)
    requires SameSales(db.orders, orders) && Linked(db) && AmountsOk(db.orders, db.installments)
    ensures Linked(db.(orders := orders)) && AmountsOk(orders, db.installments)
  {
    forall k | k in db.installments
      ensures k.order < |orders| && AmountOk(db.installments[k], orders[k.order])
    {
      assert AmountOk(db.installments[k], db.orders[k.order]) && SameTerms(db.orders[k.order], orders[k.order]);
    }
  }

  lemma SameSalesKeepRequests(
    requests: seq<Request>, orders: seq<Order>, orders': seq<Order>, installments: map<InstallmentKey, Installment>)
    requires SameSales(orders, orders') && RequestsOk(requests, orders, installments)
    ensures RequestsOk(requests, orders', installments)
  {
    forall o | 0 <= o < |orders'| && Grants(orders'[o], installments, o)
      ensures HasRequest(requests, orders'[o].customer, orders'[o].course)
    {
      assert SameTerms(orders[o], orders'[o]) && Grants(orders[o], installments, o);
    }
    forall r | 0 <= r < |requests|
      ensures Justified(requests[r], orders', installments)
    {
      assert Justified(requests[r], orders, installments);
      assert SameTerms(orders[requests[r].order], orders'[requests[r].order]);
    }
  }

  /** Only the orders change, each to a status its installments agree with. */
  lemma OrdersStep(db: Db, orders: seq<Order>)
    requires Inv(db) && SameSales(db.orders, orders)
    requires forall o | 0 <= o < |orders| :: Matches(orders[o].status, db.installments, o, orders[o].count)
    ensures Quiet(db, db.(orders := orders)) && Inv(db.(orders := orders))
  {
    SameSalesAreQuiet(db, orders);
    SameSalesKeepRows(db, orders);
    SameSalesKeepRequests(db.requests, db.orders, orders, db.installments);
  }

  /** One order changes its status, marker or both. */
  lemma OrderStep(db: Db, o: OrderId, row: Order)
    requires Inv(db) && o < |db.orders|
    requires SameTerms(db.orders[o], row) && Matches(row.status, db.installments, o, row.count)
    ensures var db' := db.(orders := db.orders[o := row]); Quiet(db, db') && Inv(db')
  {
    var orders := db.orders[o := row];
    forall x | 0 <= x < |orders|
      ensures Matches(orders[x].status, db.installments, x, orders[x].count)
    {
      assert Matches(db.orders[x].status, db.installments, x, db.orders[x].count);
    }
    OrdersStep(db, orders);
  }

  lemma ReopeningKeeps(db: Db, o: OrderId)
    requires Inv(db) && o < |db.orders|
    ensures Quiet(db, AfterReopening(db, o)) && Inv(AfterReopening(db, o))
  {
    if db.orders[o].status.Expired? {
      OrderStep(db, o, db.orders[o].(status := OrderStatus.Pending));
    } else {
      UnchangedIsQuiet(db);
    }
  }

  lemma ExpiryKeeps(db: Db, o: OrderId)
    requires Inv(db) && o < |db.orders|
    ensures Quiet(db, AfterExpiry(db, o)) && Inv(AfterExpiry(db, o))
  {
    if Expirable(db, o) {
      var closed := db.(attempts := ClosedAttempts(db.attempts, KeysOf(o, db.orders[o].count)));
      ClosingKeeps(db, KeysOf(o, db.orders[o].count));
      OrderStep(closed, o, db.orders[o].(status := OrderStatus.Expired));
      QuietTransitive(db, closed, WithExpired(db, o));
    } else {
      UnchangedIsQuiet(db);
    }
  }

  lemma MarkLateKeeps(db: Db, today: int)
    requires Inv(db)
    ensures Quiet(db, AfterMarkLate(db, today)) && Inv(AfterMarkLate(db, today))
  {
    OrdersStep(db, AfterMarkLate(db, today).orders);
  }

  // ----- steps that settle nothing -----

  /** Rows change only while they are open, and end open or cancelled. */
  ghost predicate OpenSteps(installments: map<InstallmentKey, Installment>,
      installments': map<InstallmentKey, Installment>)
  {
    && installments'.Keys == installments.Keys
    && forall k | k in installments :: installments'[k] == installments[k]
         || (IsOpen(installments[k].status) && (IsOpen(installments'[k].status) || installments'[k].status.Cancelled?)
             && installments'[k] == installments[k].(status := installments'[k].status))
  }

  lemma OpenStepsKeepVerdicts(
    installments: map<InstallmentKey, Installment>, installments': map<InstallmentKey, Installment>, o: OrderId,
    count: nat)
    requires OpenSteps(installments, installments')
    ensures AnyPaid(installments', o, count) == AnyPaid(installments, o, count)
    ensures AllSettled(installments', o, count) == AllSettled(installments, o, count)
    ensures NoneOpen(installments, o, count) ==> NoneOpen(installments', o, count)
  {
    assert forall s: nat | 1 <= s <= count && InstallmentKey(o, s) in installments ::
      var k := InstallmentKey(o, s);
      && installments'[k].status.Paid? == installments[k].status.Paid?
      && IsSettled(installments'[k].status) == IsSettled(installments[k].status)
      && (IsOpen(installments'[k].status) ==> IsOpen(installments[k].status));
    if AnyPaid(installments, o, count) {
      var s: nat :| 1 <= s <= count && InstallmentKey(o, s) in installments
        && installments[InstallmentKey(o, s)].status.Paid?;
      assert InstallmentKey(o, s) in installments' && installments'[InstallmentKey(o, s)].status.Paid?;
    }
    if AnyPaid(installments', o, count) {
      var s: nat :| 1 <= s <= count && InstallmentKey(o, s) in installments'
        && installments'[InstallmentKey(o, s)].status.Paid?;
      assert InstallmentKey(o, s) in installments && installments[InstallmentKey(o, s)].status.Paid?;
    }
  }

  lemma OpenStepsKeepOrders(
    requests: seq<Request>, orders: seq<Order>,
    installments: map<InstallmentKey, Installment>, installments': map<InstallmentKey, Installment>)
    requires OpenSteps(installments, installments')
    requires OrdersMatch(orders, installments) && RequestsOk(requests, orders, installments)
    ensures OrdersMatch(orders, installments') && RequestsOk(requests, orders, installments')
  {
    forall o | 0 <= o < |orders|
      ensures Matches(orders[o].status, installments', o, orders[o].count)
      ensures Grants(orders[o], installments', o) == Grants(orders[o], installments, o)
    {
      OpenStepsKeepVerdicts(installments, installments', o, orders[o].count);
    }
  }

  lemma OpenStepsKeepAmounts(db: Db, installments: map<InstallmentKey, Installment>)
    requires OpenSteps(db.installments, installments)
    requires Linked(db) && AmountsOk(db.orders, db.installments) && AttemptAmountsOk(db.attempts, db.installments)
    ensures Linked(db.(installments := installments))
    ensures AmountsOk(db.orders, installments) && AttemptAmountsOk(db.attempts, installments)
  {
  }

  lemma OpenStepsAreQuiet(db: Db, installments: map<InstallmentKey, Installment>)
    requires AmountsOk(db.orders, db.installments) && OpenSteps(db.installments, installments)
    ensures Quiet(db, db.(installments := installments))
  {
  }

  lemma InstallmentsStep(db: Db, installments: map<InstallmentKey, Installment>)
    requires Inv(db) && OpenSteps(db.installments, installments)
    ensures var db' := db.(installments := installments); Quiet(db, db') && Inv(db')
  {
    OpenStepsAreQuiet(db, installments);
    QuietKeepsCredit(db, db.(installments := installments));
    OpenStepsKeepOrders(db.requests, db.orders, db.installments, installments);
    OpenStepsKeepAmounts(db, installments);
  }

  lemma MarkDueKeeps(db: Db, today: int)
    requires Inv(db)
    ensures Quiet(db, AfterMarkDue(db, today)) && Inv(AfterMarkDue(db, today))
  {
    InstallmentsStep(db, AfterMarkDue(db, today).installments);
  }

  lemma QuietTransitive(db0: Db, db1: Db, db2: Db)
    requires Quiet(db0, db1) && Quiet(db1, db2)
    ensures Quiet(db0, db2)
  {
    GrowsTransitive(db0, db1, db2);
    forall k | k in db2.installments && k !in db0.installments
      ensures !db2.installments[k].status.Paid?
    {
    }
    forall a | |db0.attempts| <= a < |db2.attempts|
      ensures db2.attempts[a].payment.None? && !db2.attempts[a].status.Succeeded?
    {
    }
  }

  lemma FailureIs(db: Db, a: AttemptId)
    requires Linked(db) && a < |db.attempts|
    ensures AfterFailure(db, a)
      == AfterMove(db, a, AttemptStatus.Failed).(installments := AfterFailure(db, a).installments)
    ensures OpenSteps(db.installments, AfterFailure(db, a).installments)
  {
    assert AfterFailure(db, a).attempts == AfterMove(db, a, AttemptStatus.Failed).attempts;
  }

  lemma FailureKeeps(db: Db, a: AttemptId)
    requires Inv(db) && a < |db.attempts|
    ensures Quiet(db, AfterFailure(db, a)) && Inv(AfterFailure(db, a))
  {
    FailureIs(db, a);
    var installments := AfterFailure(db, a).installments;
    var moved := AfterMove(db, a, AttemptStatus.Failed);
    MoveKeeps(db, a, AttemptStatus.Failed);
    InstallmentsStep(moved, installments);
    QuietTransitive(db, moved, moved.(installments := installments));
  }

  lemma CancellingClosesAll(installments: map<InstallmentKey, Installment>, o: OrderId, count: nat)
    ensures var installments' := CancelledInstallments(installments, OpenKeys(installments, o, count));
      OpenSteps(installments, installments') && NoneOpen(installments', o, count)
  {
    var keys := OpenKeys(installments, o, count);
    assert forall s: nat | 1 <= s <= count && InstallmentKey(o, s) in installments ::
      IsOpen(installments[InstallmentKey(o, s)].status) ==> InstallmentKey(o, s) in keys;
  }

  lemma CancelOrderKeeps(db: Db, o: OrderId)
    requires Inv(db) && o < |db.orders|
    ensures Quiet(db, AfterCancelOrder(db, o)) && Inv(AfterCancelOrder(db, o))
  {
    if CancelOrderDecision(db.orders[o].status).Done? {
      var keys := OpenKeys(db.installments, o, db.orders[o].count);
      var closed := db.(attempts := ClosedAttempts(db.attempts, keys));
      ClosingKeeps(db, keys);
      var cancelled := closed.(installments := CancelledInstallments(db.installments, keys));
      CancellingClosesAll(db.installments, o, db.orders[o].count);
      InstallmentsStep(closed, cancelled.installments);
      QuietTransitive(db, closed, cancelled);
      CancelledOrderStep(cancelled, o);
      QuietTransitive(db, cancelled, AfterCancelOrder(db, o));
    } else {
      UnchangedIsQuiet(db);
    }
  }

  lemma CancelledOrderStep(db: Db, o: OrderId)
    requires Inv(db) && o < |db.orders| && NoneOpen(db.installments, o, db.orders[o].count)
    ensures var db' := db.(orders := db.orders[o := db.orders[o].(status := OrderStatus.Cancelled)]);
      Quiet(db, db') && Inv(db')
  {
    OrderStep(db, o, db.orders[o].(status := OrderStatus.Cancelled));
  }

  lemma CancelInstallmentKeeps(db: Db, k: InstallmentKey)
    requires Inv(db) && k in db.installments
    ensures Quiet(db, AfterCancelInstallment(db, k)) && Inv(AfterCancelInstallment(db, k))
  {
    var db' := AfterCancelInstallment(db, k);
    var status := db.installments[k].status;
    if status.Cancelled? || status.Paid? || HasSucceeded(db.attempts, k) {
      UnchangedIsQuiet(db);
    } else {
      var closed := db.(attempts := ClosedAttempts(db.attempts, {k}));
      ClosingKeeps(db, {k});
      InstallmentsStep(closed, db'.installments);
      QuietTransitive(db, closed, db');
    }
  }

  // ----- steps on the access behind a sale -----

  lemma RequestsStep(db: Db, requests: seq<Request>)
    requires Inv(db) && |requests| == |db.requests|
    requires forall r | 0 <= r < |requests| :: RequestGrows(db.requests[r], requests[r])
    ensures var db' := db.(requests := requests); Quiet(db, db') && Inv(db')
  {
    var db' := db.(requests := requests);
    forall o | 0 <= o < |db.orders| && Grants(db.orders[o], db.installments, o)
      ensures HasRequest(requests, db.orders[o].customer, db.orders[o].course)
    {
      var r :| 0 <= r < |db.requests| && Serves(db.requests[r], db.orders[o].customer, db.orders[o].course);
      assert Serves(requests[r], db.orders[o].customer, db.orders[o].course);
    }
  }

  /** Suspending or restoring access, with the order's status and marker following. */
  lemma SwitchStep(db: Db, o: OrderId, r: RequestId, suspended: bool, order: Order)
    requires Inv(db) && o < |db.orders| && r < |db.requests|
    requires SameTerms(db.orders[o], order) && Matches(order.status, db.installments, o, order.count)
    ensures var db' := db.(requests := db.requests[r := db.requests[r].(access := Some(suspended))],
      orders := db.orders[o := order]);
      Quiet(db, db') && Inv(db')
  {
    var requests := db.requests[r := db.requests[r].(access := Some(suspended))];
    RequestsStep(db, requests);
    var switched := db.(requests := requests);
    OrderStep(switched, o, order);
    QuietTransitive(db, switched, switched.(orders := db.orders[o := order]));
  }

  lemma FlagKeeps(db: Db, r: RequestId, suspended: bool)
    requires Inv(db) && r < |db.requests|
    ensures Quiet(db, AfterFlag(db, r, suspended)) && Inv(AfterFlag(db, r, suspended))
  {
    RequestsStep(db, AfterFlag(db, r, suspended).requests);
  }

  /** The order has been in collection: it is neither PENDING nor EXPIRED. */
  lemma MirrorKeeps(db: Db, o: OrderId, suspended: bool)
    requires Inv(db) && o < |db.orders| && !db.orders[o].status.Pending? && !db.orders[o].status.Expired?
    ensures Quiet(db, AfterMirror(db, o, suspended)) && Inv(AfterMirror(db, o, suspended))
  {
    var target := if suspended then OrderStatus.Suspended else OrderStatus.Active;
    if OrderTransitionError(db.orders[o].status, target).None? {
      assert Matches(db.orders[o].status, db.installments, o, db.orders[o].count);
      OrderStep(db, o, db.orders[o].(status := target));
    } else {
      UnchangedIsQuiet(db);
    }
  }

  lemma MarkKeeps(db: Db, o: OrderId, now: int)
    requires Inv(db) && o < |db.orders|
    ensures Quiet(db, AfterMark(db, o, now)) && Inv(AfterMark(db, o, now))
  {
    assert Matches(db.orders[o].status, db.installments, o, db.orders[o].count);
    OrderStep(db, o, db.orders[o].(nonpayment := Some(now)));
  }

  lemma UnmarkKeeps(db: Db, o: OrderId, today: int)
    requires Inv(db) && o < |db.orders|
    ensures Quiet(db, AfterUnmark(db, o, today)) && Inv(AfterUnmark(db, o, today))
  {
    var order := db.orders[o];
    var status := Recomputed(order.status, db.installments, o, order.count, today);
    assert Matches(order.status, db.installments, o, order.count);
    OrderStep(db, o, order.(nonpayment := None, status := status));
    assert AfterUnmark(db, o, today).orders == db.orders[o := order.(nonpayment := None, status := status)];
  }

  lemma SwitchKeeps(db: Db, o: OrderId, suspended: bool, answers: bool)
    requires Inv(db) && o < |db.orders|
    ensures Quiet(db, AfterSwitch(db, o, suspended, answers)) && Inv(AfterSwitch(db, o, suspended, answers))
  {
    if Switchable(db, o, suspended, answers) {
      SwitchStep(db, o, OpenAccess(db, o).value, suspended, Switched(db, o, suspended).orders[o]);
    } else {
      UnchangedIsQuiet(db);
    }
  }

  lemma SuspendedIs(db: Db, o: OrderId, clock: Clock)
    requires Linked(db) && OrdersMatch(db.orders, db.installments) && o < |db.orders|
    requires Overdue(db, o, clock) && Switchable(db, o, true, o in clock.answers)
    ensures var order := db.orders[o].(status := OrderStatus.Suspended, nonpayment := Some(clock.now));
      var r := OpenAccess(db, o).value;
      && Matches(order.status, db.installments, o, order.count)
      && AfterSuspension(db, o, clock) ==
        db.(requests := db.requests[r := db.requests[r].(access := Some(true))], orders := db.orders[o := order])
  {
    assert Matches(db.orders[o].status, db.installments, o, db.orders[o].count);
    assert db.orders[o := db.orders[o].(status := OrderStatus.Suspended)]
        [o := db.orders[o].(status := OrderStatus.Suspended, nonpayment := Some(clock.now))]
      == db.orders[o := db.orders[o].(status := OrderStatus.Suspended, nonpayment := Some(clock.now))];
  }

  lemma SuspensionKeeps(db: Db, o: OrderId, clock: Clock)
    requires Inv(db) && o < |db.orders|
    ensures Quiet(db, AfterSuspension(db, o, clock)) && Inv(AfterSuspension(db, o, clock))
  {
    if Overdue(db, o, clock) && Switchable(db, o, true, o in clock.answers) {
      SuspendedIs(db, o, clock);
      SwitchStep(db, o, OpenAccess(db, o).value, true,
        db.orders[o].(status := OrderStatus.Suspended, nonpayment := Some(clock.now)));
    } else {
      UnchangedIsQuiet(db);
    }
  }

  /** The order after its automatic suspension has been lifted. */
  function Lifted(db: Db, o: OrderId): Order
    requires o < |db.orders|
  {
    var order := db.orders[o];
    order.(status := if AllSettled(db.installments, o, order.count) then OrderStatus.Completed else OrderStatus.Active,
           nonpayment := None)
  }

  lemma ResumptionIs(db: Db, o: OrderId, clock: Clock)
    requires o < |db.orders| && Resumable(db, o, clock)
    ensures var r := OpenAccess(db, o).value;
      AfterResumption(db, o, clock) ==
        db.(requests := db.requests[r := db.requests[r].(access := Some(false))],
          orders := db.orders[o := Lifted(db, o)])
  {
    assert AfterResumption(db, o, clock).orders == db.orders[o := Lifted(db, o)];
  }

  lemma ResumptionKeeps(db: Db, o: OrderId, clock: Clock)
    requires Inv(db) && o < |db.orders|
    ensures Quiet(db, AfterResumption(db, o, clock)) && Inv(AfterResumption(db, o, clock))
  {
    if Resumable(db, o, clock) {
      ResumptionIs(db, o, clock);
      SwitchStep(db, o, OpenAccess(db, o).value, false, Lifted(db, o));
    } else {
      UnchangedIsQuiet(db);
    }
  }

  // ----- settling one installment -----

  /** Installment k gets the settled row, its order is recomputed, and a sale that is then
      eligible has its request. */
  function Settling(db: Db, k: InstallmentKey, row: Installment, today: int): Db
    requires k.order < |db.orders|
  {
    var settled := db.(installments := db.installments[k := row]);
    var updated := settled.(orders := WithRecomputed(settled, k.order, today));
    if Eligible(updated, k.order)
    then updated.(requests := WithRequest(db.requests, k.order, db.orders[k.order]))
    else updated
  }

  lemma SettlingElsewhere(installments: map<InstallmentKey, Installment>, k: InstallmentKey, row: Installment,
      o: OrderId, count: nat)
    requires k in installments && o != k.order
    ensures var installments' := installments[k := row];
      && AnyPaid(installments', o, count) == AnyPaid(installments, o, count)
      && AllSettled(installments', o, count) == AllSettled(installments, o, count)
      && NoneOpen(installments', o, count) == NoneOpen(installments, o, count)
  {
    var installments' := installments[k := row];
    assert forall s: nat :: InstallmentKey(o, s) != k;
    if AnyPaid(installments, o, count) {
      var s: nat :| 1 <= s <= count && InstallmentKey(o, s) in installments
        && installments[InstallmentKey(o, s)].status.Paid?;
      assert InstallmentKey(o, s) in installments' && installments'[InstallmentKey(o, s)].status.Paid?;
    }
  }

  lemma SettlingHere(installments: map<InstallmentKey, Installment>, k: InstallmentKey, row: Installment, count: nat)
    requires k in installments && 1 <= k.sequence <= count
    requires IsOpen(installments[k].status) && IsSettled(row.status)
    ensures var installments' := installments[k := row];
      && (AnyPaid(installments', k.order, count) <==> AnyPaid(installments, k.order, count) || row.status.Paid?)
      && !AllSettled(installments, k.order, count) && !NoneOpen(installments, k.order, count)
  {
    var installments' := installments[k := row];
    assert InstallmentKey(k.order, k.sequence) == k;
    if AnyPaid(installments, k.order, count) {
      var s: nat :| 1 <= s <= count && InstallmentKey(k.order, s) in installments
        && installments[InstallmentKey(k.order, s)].status.Paid?;
      assert InstallmentKey(k.order, s) in installments' && installments'[InstallmentKey(k.order, s)].status.Paid?;
    }
  }

  ghost predicate Settles(db: Db, k: InstallmentKey, row: Installment) {
    && k in db.installments && k.order < |db.orders| && 1 <= k.sequence <= db.orders[k.order].count
    && IsOpen(db.installments[k].status) && IsSettled(row.status)
    && row.expected == db.installments[k].expected && row.due == db.installments[k].due
    && (row.paid.Some? <==> row.status.Paid?)
  }

  lemma SettlingKeepsOrders(db: Db, k: InstallmentKey, row: Installment, today: int)
    requires Settles(db, k, row) && OrdersMatch(db.orders, db.installments)
    ensures var db' := Settling(db, k, row, today); OrdersMatch(db'.orders, db'.installments)
  {
    var db' := Settling(db, k, row, today);
    SettlingHere(db.installments, k, row, db.orders[k.order].count);
    forall o | 0 <= o < |db.orders|
      ensures Matches(db'.orders[o].status, db'.installments, o, db'.orders[o].count)
    {
      assert Matches(db.orders[o].status, db.installments, o, db.orders[o].count);
      if o != k.order {
        SettlingElsewhere(db.installments, k, row, o, db.orders[o].count);
      }
    }
  }

  lemma GrantsGrow(order: Order, installments: map<InstallmentKey, Installment>, k: InstallmentKey, row: Installment,
      o: OrderId)
    requires k in installments && IsOpen(installments[k].status) && IsSettled(row.status)
    requires Grants(order, installments, o)
    ensures Grants(order, installments[k := row], o)
  {
    if order.policy.FirstInstallment? {
      var s: nat :| 1 <= s <= order.count && InstallmentKey(o, s) in installments
        && installments[InstallmentKey(o, s)].status.Paid?;
      assert installments[k := row][InstallmentKey(o, s)].status.Paid?;
    }
  }

  lemma HasRequestGrows(requests: seq<Request>, o: OrderId, order: Order, contact: nat, course: nat)
    ensures HasRequest(requests, contact, course) ==> HasRequest(WithRequest(requests, o, order), contact, course)
    ensures HasRequest(WithRequest(requests, o, order), order.customer, order.course)
  {
    var requests' := WithRequest(requests, o, order);
    if HasRequest(requests, contact, course) {
      var r :| 0 <= r < |requests| && Serves(requests[r], contact, course);
      assert Serves(requests'[r], contact, course);
    }
    if !HasRequest(requests, order.customer, order.course) {
      assert Serves(requests'[|requests|], order.customer, order.course);
    }
  }

  lemma SettlingServes(db: Db, k: InstallmentKey, row: Installment, today: int, o: OrderId)
    requires Settles(db, k, row) && EligibleServed(db.requests, db.orders, db.installments) && o < |db.orders|
    ensures var db' := Settling(db, k, row, today);
      && (Grants(db.orders[o], db.installments, o) ==> Grants(db'.orders[o], db'.installments, o))
      && (Grants(db'.orders[o], db'.installments, o) ==>
        HasRequest(db'.requests, db'.orders[o].customer, db'.orders[o].course))
  {
    if Grants(db.orders[o], db.installments, o) {
      GrantsGrow(db.orders[o], db.installments, k, row, o);
    }
    if o != k.order {
      SettlingElsewhere(db.installments, k, row, o, db.orders[o].count);
    }
    HasRequestGrows(db.requests, k.order, db.orders[k.order], db.orders[o].customer, db.orders[o].course);
  }

  lemma SettlingKeepsRequests(db: Db, k: InstallmentKey, row: Installment, today: int)
    requires Settles(db, k, row) && RequestsOk(db.requests, db.orders, db.installments)
    ensures var db' := Settling(db, k, row, today); RequestsOk(db'.requests, db'.orders, db'.installments)
  {
    var db' := Settling(db, k, row, today);
    forall o | 0 <= o < |db.orders|
      ensures Grants(db.orders[o], db.installments, o) ==> Grants(db'.orders[o], db'.installments, o)
      ensures Grants(db'.orders[o], db'.installments, o) ==>
        HasRequest(db'.requests, db'.orders[o].customer, db'.orders[o].course)
    {
      SettlingServes(db, k, row, today, o);
    }
    forall r | 0 <= r < |db'.requests|
      ensures Justified(db'.requests[r], db'.orders, db'.installments)
    {
      if r < |db.requests| {
        assert Justified(db.requests[r], db.orders, db.installments);
      }
    }
  }

  lemma SettlingKeepsLinks(db: Db, k: InstallmentKey, row: Installment, today: int)
    requires Settles(db, k, row) && Linked(db)
    ensures Linked(Settling(db, k, row, today))
  {
    var db' := Settling(db, k, row, today);
    assert db'.installments.Keys == db.installments.Keys;
    assert forall o | 0 <= o < |db.orders| :: db'.orders[o].count == db.orders[o].count;
  }

  lemma SettlingKeepsAmounts(db: Db, k: InstallmentKey, row: Installment, today: int)
    requires Settles(db, k, row)
    requires AmountsOk(db.orders, db.installments) && AttemptAmountsOk(db.attempts, db.installments)
    ensures var db' := Settling(db, k, row, today);
      AmountsOk(db'.orders, db'.installments) && AttemptAmountsOk(db'.attempts, db'.installments)
  {
    var db' := Settling(db, k, row, today);
    assert forall o | 0 <= o < |db.orders| :: SameTerms(db.orders[o], db'.orders[o]);
    assert AmountOk(db.installments[k], db.orders[k.order]);
  }

  lemma SettlingKeeps(db: Db, k: InstallmentKey, row: Installment, today: int)
    requires Inv(db) && Settles(db, k, row)
    requires PaidBacked(db.installments[k := row], db.attempts)
    ensures Inv(Settling(db, k, row, today))
  {
    SettlingKeepsOrders(db, k, row, today);
    SettlingKeepsRequests(db, k, row, today);
    SettlingKeepsLinks(db, k, row, today);
    SettlingKeepsAmounts(db, k, row, today);
  }

  lemma WaiveIs(db: Db, k: InstallmentKey, today: int)
    requires Linked(db) && k in db.installments && InstallmentDecision(db, k, InstallmentStatus.Waived).Done?
    ensures AfterWaive(db, k, today) ==
      Settling(db.(attempts := ClosedAttempts(db.attempts, {k})), k,
        db.installments[k].(status := InstallmentStatus.Waived), today)
  {
  }

  lemma WaiveKeeps(db: Db, k: InstallmentKey, today: int)
    requires Inv(db) && k in db.installments
    ensures Quiet(db, AfterWaive(db, k, today)) && Inv(AfterWaive(db, k, today))
  {
    var closed := db.(attempts := ClosedAttempts(db.attempts, {k}));
    ClosingKeeps(db, {k});
    if InstallmentDecision(db, k, InstallmentStatus.Waived).Done? {
      WaiveIs(db, k, today);
      var row := db.installments[k].(status := InstallmentStatus.Waived);
      assert AmountOk(db.installments[k], db.orders[k.order]);
      SettlingKeeps(closed, k, row, today);
      WaivingIsQuiet(closed, k, row, today);
      QuietTransitive(db, closed, AfterWaive(db, k, today));
    } else {
      UnchangedIsQuiet(db);
      assert AfterWaive(db, k, today) == db || AfterWaive(db, k, today) == closed;
    }
  }

  lemma WaivingIsQuiet(db: Db, k: InstallmentKey, row: Installment, today: int)
    requires Settles(db, k, row) && row.status.Waived? && AmountsOk(db.orders, db.installments)
    ensures Quiet(db, Settling(db, k, row, today))
  {
  }
}
