/** OrderService: creation of an order with its frozen terms and its installments. */
module Orders {
  import opened Models

  datatype Plan = Plan(active: bool, course: nat, amount: int, count: nat, interval: nat, policy: AccessPolicy)

  datatype Placement = Placed(order: OrderId, created: bool) | Refused

  /** The order already placed under this idempotency key. */
  predicate Used(orders: seq<Order>, key: string) {
    exists o | 0 <= o < |orders| :: orders[o].key == key
  }

  /** The lowest order id with this key; the key is unique, so it is the only one. */
  function WithKey(orders: seq<Order>, key: string): (o: OrderId)
    requires Used(orders, key)
    ensures o < |orders| && orders[o].key == key
    ensures forall x | 0 <= x < o :: orders[x].key != key
  {
    if orders[0].key == key then 0
    else
      assert Used(orders[1..], key) by {
        var x :| 0 <= x < |orders| && orders[x].key == key;
        assert orders[1..][x - 1].key == key;
      }
      WithKey(orders[1..], key) + 1
  }

  function NewOrder(key: string, customer: nat, plan: nat, terms: Plan): Order {
    Order(key, customer, plan, terms.course, terms.policy, terms.count, terms.amount, terms.amount * terms.count,
          OrderStatus.Pending, None)
  }

  function NewInstallment(terms: Plan, start: int, s: nat): Installment {
    Installment(terms.amount, start + terms.interval * (s - 1), InstallmentStatus.Scheduled, None)
  }

  function WithInstallments(
    installments: map<InstallmentKey, Installment>, o: OrderId, terms: Plan, start: int, n: nat)
    : map<InstallmentKey, Installment>
  {
    if n == 0 then installments
    else WithInstallments(installments, o, terms, start, n - 1)[InstallmentKey(o, n) := NewInstallment(terms, start, n)]
  }

  /** The check constraints on orders and installments: a violation undoes the insertion. */
  predicate Saveable(terms: Plan) {
    terms.count >= 1 && terms.amount > 0 && terms.amount * terms.count > 0
  }

  function PlacementOf(db: Db, key: string, customer: nat, plan: nat, terms: Option<Plan>): Placement {
    if Used(db.orders, key) then
      var o := WithKey(db.orders, key);
      if db.orders[o].customer == customer && db.orders[o].plan == plan then Placed(o, false) else Refused
    else if terms.None? || !terms.value.active || !Saveable(terms.value) then Refused
    else Placed(|db.orders|, true)
  }

  function AfterPlacement(db: Db, key: string, customer: nat, plan: nat, terms: Option<Plan>, start: int): Db {
    var p := PlacementOf(db, key, customer, plan, terms);
    if p.Placed? && p.created && terms.Some? then
      db.(orders := db.orders + [NewOrder(key, customer, plan, terms.value)],
          installments := WithInstallments(db.installments, |db.orders|, terms.value, start, terms.value.count))
    else db
  }

  /** create_order: idempotent on the key, and refused for a key used on other terms. */
  method CreateOrder(db: Database, key: string, customer: nat, plan: nat, terms: Option<Plan>, start: int)
      returns (p: Placement)
    modifies db`orders, db`installments
    ensures p == PlacementOf(old(db.State()), key, customer, plan, terms)
    ensures db.State() == AfterPlacement(old(db.State()), key, customer, plan, terms, start)
  {
    if Used(db.orders, key) {
      var existing := WithKey(db.orders, key);
      if db.orders[existing].customer != customer || db.orders[existing].plan != plan {
        return Refused;
      }
      return Placed(existing, false);
    }
    if terms.None? || !terms.value.active {
      return Refused;
    }
    if !Saveable(terms.value) {
      return Refused;
    }
    var o := |db.orders|;
    db.orders := db.orders + [NewOrder(key, customer, plan, terms.value)];
    for s := 1 to terms.value.count + 1
      invariant db.orders == old(db.orders) + [NewOrder(key, customer, plan, terms.value)]
      invariant db.installments == WithInstallments(old(db.installments), o, terms.value, start, s - 1)
    {
      db.installments := db.installments[InstallmentKey(o, s) := NewInstallment(terms.value, start, s)];
    }
    return Placed(o, true);
  }

  // ----- what it answers -----

  /** The first order with this key, if there is one. */
  predicate FirstWith(orders: seq<Order>, key: string, o: OrderId) {
    o < |orders| && orders[o].key == key && forall x | 0 <= x < o :: orders[x].key != key
  }

  /** A key already used names its order to the same customer for the same plan, and is refused to
      anyone else and for any other plan; either way nothing changes. */
  lemma UsedKeyIsAnswered(db: Db, key: string, customer: nat, plan: nat, terms: Option<Plan>, start: int, o: OrderId)
    requires FirstWith(db.orders, key, o)
    ensures var p := PlacementOf(db, key, customer, plan, terms);
      && (p == Placed(o, false) <==> db.orders[o].customer == customer && db.orders[o].plan == plan)
      && (p.Refused? <==> db.orders[o].customer != customer || db.orders[o].plan != plan)
      && AfterPlacement(db, key, customer, plan, terms, start) == db
  {
    assert Used(db.orders, key);
    assert WithKey(db.orders, key) == o;
  }

  /** A new key places an order if and only if the plan exists, is active and has at least one
      installment of a positive amount; otherwise nothing changes. */
  lemma NewKeyIsPlacedIff(db: Db, key: string, customer: nat, plan: nat, terms: Option<Plan>, start: int)
    requires forall x | 0 <= x < |db.orders| :: db.orders[x].key != key
    ensures var p := PlacementOf(db, key, customer, plan, terms);
      var db' := AfterPlacement(db, key, customer, plan, terms, start);
      && (p == Placed(|db.orders|, true) <==>
            terms.Some? && terms.value.active && terms.value.count >= 1 && terms.value.amount > 0)
      && (p.Placed? <==> p == Placed(|db.orders|, true)) && (p.Refused? ==> db' == db)
      && (p.Placed? ==>
            && db' == db.(orders := db'.orders, installments := db'.installments)
            && db'.orders == db.orders +
                 [Order(key, customer, plan, terms.value.course, terms.value.policy, terms.value.count,
                        terms.value.amount, terms.value.count * terms.value.amount, OrderStatus.Pending, None)])
  {
    assert !Used(db.orders, key);
    if terms.Some? && terms.value.count >= 1 && terms.value.amount > 0 {
      Positive(terms.value.amount, terms.value.count);
    }
  }

  lemma Positive(amount: int, count: nat)
    requires amount > 0 && count >= 1
    ensures amount * count > 0 && amount * count == count * amount
  {
  }

  /** The rows of a new order: its installments fall due at equal intervals from the start, each
      SCHEDULED for the plan's amount; no other row has changed. */
  lemma {:induction false} NewRowsAre(installments: map<InstallmentKey, Installment>, o: OrderId, terms: Plan,
      start: int, n: nat)
    ensures var all := WithInstallments(installments, o, terms, start, n);
      && (forall s: nat | 1 <= s <= n :: InstallmentKey(o, s) in all
            && all[InstallmentKey(o, s)].expected == terms.amount && all[InstallmentKey(o, s)].paid.None?
            && all[InstallmentKey(o, s)].status.Scheduled?)
      && (n >= 1 ==> all[InstallmentKey(o, 1)].due == start)
      && (forall s: nat | 1 <= s < n ::
            all[InstallmentKey(o, s + 1)].due == all[InstallmentKey(o, s)].due + terms.interval)
  {
    if n == 0 {
    } else {
      NewRowsAre(installments, o, terms, start, n - 1);
      var before := WithInstallments(installments, o, terms, start, n - 1);
      var all := WithInstallments(installments, o, terms, start, n);
      if n >= 2 {
        DueFrom(installments, o, terms, start, n - 1);
        assert all[InstallmentKey(o, n - 1)] == before[InstallmentKey(o, n - 1)];
      }
    }
  }

  lemma DueFrom(installments: map<InstallmentKey, Installment>, o: OrderId, terms: Plan, start: int, n: nat)
    requires n >= 1
    ensures WithInstallments(installments, o, terms, start, n)[InstallmentKey(o, n)].due
      == start + terms.interval * (n - 1)
  {
  }
}
