/** OrderAdministrationService: staff decisions on an order or one of its installments. */
module Administration {
  import opened Models
  import opened StateMachines
  import opened Closing
  import opened FollowUps
  import opened Credit

  datatype Decision = Done | AlreadyDone | Declined

  // ----- cancel_order -----

  function OpenKeys(installments: map<InstallmentKey, Installment>, o: OrderId, n: nat): set<InstallmentKey> {
    set s: nat | 1 <= s <= n && InstallmentKey(o, s) in installments
      && IsOpen(installments[InstallmentKey(o, s)].status) ::
      InstallmentKey(o, s)
  }

  function CancelledInstallments(installments: map<InstallmentKey, Installment>, keys: set<InstallmentKey>)
    : map<InstallmentKey, Installment>
  {
    map k | k in installments ::
      if k in keys then installments[k].(status := InstallmentStatus.Cancelled) else installments[k]
  }

  function CancelOrderDecision(status: OrderStatus): Decision {
    if status.Cancelled? then AlreadyDone
    else if status.Completed? then Declined
    else Done
  }

  function AfterCancelOrder(db: Db, o: OrderId): Db
    requires o < |db.orders|
  {
    if CancelOrderDecision(db.orders[o].status).Done? then
      var keys := OpenKeys(db.installments, o, db.orders[o].count);
      db.(orders := db.orders[o := db.orders[o].(status := OrderStatus.Cancelled)],
          attempts := ClosedAttempts(db.attempts, keys),
          installments := CancelledInstallments(db.installments, keys))
    else db
  }

  lemma NextOpenKey(installments: map<InstallmentKey, Installment>, o: OrderId, s: nat)
    requires s >= 1 && InstallmentKey(o, s) in installments
    ensures InstallmentKey(o, s) !in OpenKeys(installments, o, s - 1)
    ensures OpenKeys(installments, o, s) == OpenKeys(installments, o, s - 1) +
      (if IsOpen(installments[InstallmentKey(o, s)].status) then {InstallmentKey(o, s)} else {})
  {
    var k := InstallmentKey(o, s);
    var before, after := OpenKeys(installments, o, s - 1), OpenKeys(installments, o, s);
    forall key
      ensures key in after <==> key in before || (key == k && IsOpen(installments[k].status))
    {
    }
  }

  lemma CancelOneMore(
    installments: map<InstallmentKey, Installment>, keys: set<InstallmentKey>, k: InstallmentKey)
    requires k in installments && k !in keys
    ensures CancelledInstallments(installments, keys)[k := installments[k].(status := InstallmentStatus.Cancelled)]
      == CancelledInstallments(installments, keys + {k})
    ensures CancelledInstallments(installments, keys)[k] == installments[k]
  {
  }

  /** The body of the loop over the installments: neither transition is refused. */
  method CancelOpenInstallment(db: Database, k: InstallmentKey)
    requires k in db.installments && IsOpen(db.installments[k].status)
    modifies db`attempts, db`installments
    ensures db.attempts == ClosedAttempts(old(db.attempts), {k})
    ensures db.installments ==
      old(db.installments)[k := old(db.installments[k]).(status := InstallmentStatus.Cancelled)]
  {
    CloseAttempts(db, k);
    var refused := TransitionInstallment(db, k, InstallmentStatus.Cancelled, None);
    assert refused.None?;
  }

  method CancelOpenInstallments(db: Database, o: OrderId, count: nat)
    requires forall s: nat | 1 <= s <= count :: InstallmentKey(o, s) in db.installments
    modifies db`attempts, db`installments
    ensures var keys := OpenKeys(old(db.installments), o, count);
      && db.attempts == ClosedAttempts(old(db.attempts), keys)
      && db.installments == CancelledInstallments(old(db.installments), keys)
  {
    ghost var attempts, installments := db.attempts, db.installments;
    for s := 1 to count + 1
      invariant db.attempts == ClosedAttempts(attempts, OpenKeys(installments, o, s - 1))
      invariant db.installments == CancelledInstallments(installments, OpenKeys(installments, o, s - 1))
    {
      var k := InstallmentKey(o, s);
      assert k in installments;
      NextOpenKey(installments, o, s);
      if IsOpen(db.installments[k].status) {
        CancelOpenInstallment(db, k);
        CloseTogether(attempts, OpenKeys(installments, o, s - 1), {k});
        CancelOneMore(installments, OpenKeys(installments, o, s - 1), k);
      }
    }
  }

  /** cancel_order: none of the transitions in its nested loops is refused. */
  method CancelOrder(db: Database, o: OrderId) returns (decision: Decision)
    requires Linked(db.State()) && o < |db.orders|
    modifies db`orders, db`attempts, db`installments
    ensures decision == CancelOrderDecision(old(db.orders[o].status))
    ensures db.State() == AfterCancelOrder(old(db.State()), o)
  {
    if db.orders[o].status.Cancelled? {
      return AlreadyDone;
    }
    var refused := TransitionOrder(db, o, OrderStatus.Cancelled);
    if refused.Some? {
      return Declined;
    }
    CancelOpenInstallments(db, o, db.orders[o].count);
    return Done;
  }

  // ----- one installment -----

  predicate HasSucceeded(attempts: seq<Attempt>, k: InstallmentKey) {
    exists x | 0 <= x < |attempts| :: attempts[x].installment == k && attempts[x].status.Succeeded?
  }

  function InstallmentDecision(db: Db, k: InstallmentKey, target: InstallmentStatus): Decision
    requires k in db.installments
  {
    var status := db.installments[k].status;
    if status == target then AlreadyDone
    else if status.Paid? || HasSucceeded(db.attempts, k) || !IsOpen(status) then Declined
    else Done
  }

  /** The open attempts are closed before the installment's own transition is tried, and they
      stay closed when that transition is refused: the refusal is caught inside the transaction. */
  function AfterInstallmentClosed(db: Db, k: InstallmentKey, target: InstallmentStatus): Db
    requires k in db.installments
  {
    var status := db.installments[k].status;
    if status == target || status.Paid? || HasSucceeded(db.attempts, k) then db
    else
      db.(attempts := ClosedAttempts(db.attempts, {k}),
          installments := if IsOpen(status) then db.installments[k := db.installments[k].(status := target)]
            else db.installments)
  }

  function AfterCancelInstallment(db: Db, k: InstallmentKey): Db
    requires k in db.installments
  {
    AfterInstallmentClosed(db, k, InstallmentStatus.Cancelled)
  }

  /** The part that cancelling and waiving share. */
  method CloseInstallment(db: Database, k: InstallmentKey, target: InstallmentStatus) returns (decision: Decision)
    requires k in db.installments && (target.Cancelled? || target.Waived?)
    modifies db`attempts, db`installments
    ensures decision == InstallmentDecision(old(db.State()), k, target)
    ensures db.State() == AfterInstallmentClosed(old(db.State()), k, target)
  {
    if db.installments[k].status == target {
      return AlreadyDone;
    }
    if db.installments[k].status.Paid? || HasSucceeded(db.attempts, k) {
      return Declined;
    }
    CloseAttempts(db, k);
    var refused := TransitionInstallment(db, k, target, None);
    return if refused.Some? then Declined else Done;
  }

  /** cancel_installment: the order's status is not recomputed. */
  method CancelInstallment(db: Database, k: InstallmentKey) returns (decision: Decision)
    requires k in db.installments
    modifies db`attempts, db`installments
    ensures decision == InstallmentDecision(old(db.State()), k, InstallmentStatus.Cancelled)
    ensures db.State() == AfterCancelInstallment(old(db.State()), k)
  {
    decision := CloseInstallment(db, k, InstallmentStatus.Cancelled);
  }

  function AfterWaive(db: Db, k: InstallmentKey, today: int): Db
    requires Linked(db) && k in db.installments
  {
    var closed := AfterInstallmentClosed(db, k, InstallmentStatus.Waived);
    if InstallmentDecision(db, k, InstallmentStatus.Waived).Done? then
      var updated := closed.(orders := WithRecomputed(closed, k.order, today));
      if Eligible(updated, k.order)
      then updated.(requests := WithRequest(db.requests, k.order, db.orders[k.order]))
      else updated
    else closed
  }

  /** waive_installment: the order is recomputed, and a sale that becomes eligible gets its request. */
  method WaiveInstallment(db: Database, k: InstallmentKey, today: int) returns (decision: Decision)
    requires Linked(db.State()) && k in db.installments
    modifies db
    ensures decision == InstallmentDecision(old(db.State()), k, InstallmentStatus.Waived)
    ensures db.State() == AfterWaive(old(db.State()), k, today)
  {
    decision := CloseInstallment(db, k, InstallmentStatus.Waived);
    if decision.Done? {
      UpdateOrderStatus(db, k.order, today);
      if Eligible(db.State(), k.order) {
        CreateRequest(db, k.order);
      }
    }
  }
}
