/** The locked sections of CheckoutService; Tara is called between them, with no lock held. */
module Checkout {
  import opened Models
  import opened StateMachines

  /** The newest attempt of installment k among the first n. */
  function Latest(attempts: seq<Attempt>, k: InstallmentKey, n: nat): (r: Option<AttemptId>)
    requires n <= |attempts|
    ensures r.Some? ==> r.value < n && attempts[r.value].installment == k
    ensures forall x | (if r.Some? then r.value + 1 else 0) <= x < n :: attempts[x].installment != k
  {
    if n == 0 then None
    else if attempts[n - 1].installment == k then Some(n - 1)
    else Latest(attempts, k, n - 1)
  }

  predicate HasActive(attempts: seq<Attempt>, k: InstallmentKey) {
    exists x | 0 <= x < |attempts| :: attempts[x].installment == k && IsActive(attempts[x].status)
  }

  function NewAttempt(k: InstallmentKey, expected: int, product: string, status: AttemptStatus): Attempt {
    Attempt(k, product, None, expected, status, None, 0, None)
  }

  datatype Current = Existing(a: AttemptId) | New(a: AttemptId) | Integrity

  function CurrentAttempt(attempts: seq<Attempt>, k: InstallmentKey): Current {
    var last := Latest(attempts, k, |attempts|);
    if last.Some? && !IsClosed(attempts[last.value].status) then Existing(last.value)
    else if HasActive(attempts, k) then Current.Integrity
    else New(|attempts|)
  }

  function AfterCurrentAttempt(db: Db, k: InstallmentKey, product: string): Db
    requires k in db.installments
  {
    if CurrentAttempt(db.attempts, k).New?
    then db.(attempts := db.attempts + [NewAttempt(k, db.installments[k].expected, product, AttemptStatus.Created)])
    else db
  }

  /** _get_or_create_current_attempt, with the freshly drawn productId it would use. */
  method GetOrCreateCurrentAttempt(db: Database, k: InstallmentKey, product: string) returns (current: Current)
    requires k in db.installments
    modifies db`attempts
    ensures current == CurrentAttempt(old(db.attempts), k)
    ensures db.State() == AfterCurrentAttempt(old(db.State()), k, product)
  {
    var last := Latest(db.attempts, k, |db.attempts|);
    if last.Some? && !IsClosed(db.attempts[last.value].status) {
      return Existing(last.value);
    }
    if HasActive(db.attempts, k) {
      return Current.Integrity;
    }
    db.attempts := db.attempts + [NewAttempt(k, db.installments[k].expected, product, AttemptStatus.Created)];
    return New(|db.attempts| - 1);
  }

  function AfterMove(db: Db, a: AttemptId, status: AttemptStatus): Db
    requires a < |db.attempts|
  {
    if AttemptTransitionError(db.attempts, a, status).None?
    then db.(attempts := db.attempts[a := db.attempts[a].(status := status)])
    else db
  }

  /** _transition_attempt_locked: an illegal transition is swallowed; the constraint's
      IntegrityError (the only error returned) is not, but it leaves nothing behind. */
  method TransitionAttemptLocked(db: Database, a: AttemptId, status: AttemptStatus) returns (error: Option<Error>)
    requires a < |db.attempts|
    modifies db`attempts
    ensures db.State() == AfterMove(old(db.State()), a, status)
    ensures error == if AttemptTransitionError(old(db.attempts), a, status) == Some(Error.Integrity)
      then Some(Error.Integrity) else None
  {
    error := TransitionAttempt(db, a, status);
    if error == Some(InvalidTransition) {
      error := None;
    }
  }

  function AfterLink(db: Db, a: AttemptId, link: Option<string>): Db
    requires a < |db.attempts|
  {
    if db.attempts[a].status.Created?
    then db.(attempts := db.attempts[a := db.attempts[a].(status := AttemptStatus.LinkCreated, link := link)])
    else db
  }

  /** _persist_link_result_locked: only a CREATED attempt takes the link Tara answered. */
  method PersistLinkResult(db: Database, a: AttemptId, link: Option<string>)
    requires a < |db.attempts|
    modifies db`attempts
    ensures db.State() == AfterLink(old(db.State()), a, link)
  {
    if !db.attempts[a].status.Created? {
      return;
    }
    db.attempts := db.attempts[a := db.attempts[a].(link := link)];
    var refused := TransitionAttempt(db, a, AttemptStatus.LinkCreated);
    assert refused.None?;
  }

  function AfterReopening(db: Db, o: OrderId): Db
    requires o < |db.orders|
  {
    if db.orders[o].status.Expired?
    then db.(orders := db.orders[o := db.orders[o].(status := OrderStatus.Pending)])
    else db
  }

  /** The customer comes back to the same checkout: an EXPIRED order is PENDING again. */
  method ReopenExpiredOrder(db: Database, o: OrderId)
    requires o < |db.orders|
    modifies db`orders
    ensures db.State() == AfterReopening(old(db.State()), o)
  {
    if db.orders[o].status.Expired? {
      var refused := TransitionOrder(db, o, OrderStatus.Pending);
      assert refused.None?;
    }
  }
}
