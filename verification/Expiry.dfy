/** OrderExpiryService: unpaid checkout orders stop looking like open work. */
module Expiry {
  import opened Models
  import opened StateMachines
  import opened Closing

  predicate MightBePaid(s: AttemptStatus) {
    s.Succeeded? || s.Pending? || s.Unknown?
  }

  predicate AnyMightBePaid(attempts: seq<Attempt>, o: OrderId) {
    exists a | 0 <= a < |attempts| :: attempts[a].installment.order == o && MightBePaid(attempts[a].status)
  }

  function KeysOf(o: OrderId, count: nat): set<InstallmentKey> {
    set s: nat | 1 <= s <= count :: InstallmentKey(o, s)
  }

  /** _expire_one accepts the order. */
  predicate Expirable(db: Db, o: OrderId)
    requires o < |db.orders|
  {
    db.orders[o].status.Pending? && !AnyMightBePaid(db.attempts, o)
  }

  function WithExpired(db: Db, o: OrderId): Db
    requires o < |db.orders|
  {
    db.(orders := db.orders[o := db.orders[o].(status := OrderStatus.Expired)],
        attempts := ClosedAttempts(db.attempts, KeysOf(o, db.orders[o].count)))
  }

  function AfterExpiry(db: Db, o: OrderId): Db
    requires o < |db.orders|
  {
    if Expirable(db, o) then WithExpired(db, o) else db
  }

  /** _expire_one. */
  method ExpireOne(db: Database, o: OrderId) returns (expired: bool)
    requires Linked(db.State()) && o < |db.orders|
    modifies db`orders, db`attempts
    ensures expired == old(Expirable(db.State(), o))
    ensures db.State() == AfterExpiry(old(db.State()), o)
  {
    if !db.orders[o].status.Pending? {
      return false;
    }
    if AnyMightBePaid(db.attempts, o) {
      return false;
    }
    ghost var before := db.attempts;
    ghost var keys := KeysOf(o, db.orders[o].count);
    for x := |db.attempts| downto 0
      invariant |db.attempts| == |before| && db.orders == old(db.orders)
      invariant forall y | 0 <= y < |before| ::
        db.attempts[y] == if y < x then before[y] else ClosedRow(before[y], keys)
    {
      assert before[x].installment in keys <==> before[x].installment.order == o by {
        assert before[x].installment in db.installments;
        assert before[x].installment == InstallmentKey(before[x].installment.order, before[x].installment.sequence);
      }
      if db.attempts[x].installment.order == o
        && (db.attempts[x].status.Created? || db.attempts[x].status.LinkCreated?) {
        var refused := TransitionAttempt(db, x, AttemptStatus.Expired);
        assert refused.None?;
      }
    }
    var refused := TransitionOrder(db, o, OrderStatus.Expired);
    assert refused.None?;
    return true;
  }
}
