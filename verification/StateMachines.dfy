/** The three transition tables and the only methods that change a status. */
module StateMachines {
  import opened Models

  datatype Error = InvalidTransition | Integrity | PaymentIdConflict | DuplicatePayment

  function OrderTransitions(s: OrderStatus): set<OrderStatus> {
    match s
    case Pending => {OrderStatus.Active, OrderStatus.Cancelled, OrderStatus.Suspended, OrderStatus.Expired}
    case Expired => {OrderStatus.Active, OrderStatus.Pending, OrderStatus.Cancelled}
    case Active => {OrderStatus.PastDue, OrderStatus.Completed, OrderStatus.Cancelled, OrderStatus.Suspended}
    case PastDue => {OrderStatus.Active, OrderStatus.Completed, OrderStatus.Cancelled, OrderStatus.Suspended}
    case Completed => {}
    case Cancelled => {}
    case Suspended => {OrderStatus.Active, OrderStatus.Cancelled}
  }

  function InstallmentTransitions(s: InstallmentStatus): set<InstallmentStatus> {
    match s
    case Scheduled => {InstallmentStatus.Due, InstallmentStatus.Paid, InstallmentStatus.Failed,
                       InstallmentStatus.Waived, InstallmentStatus.Cancelled}
    case Due => {InstallmentStatus.Pending, InstallmentStatus.Paid, InstallmentStatus.Failed,
                 InstallmentStatus.Waived, InstallmentStatus.Cancelled}
    case Pending => {InstallmentStatus.Paid, InstallmentStatus.Failed,
                     InstallmentStatus.Waived, InstallmentStatus.Cancelled}
    case Paid => {}
    case Failed => {InstallmentStatus.Due, InstallmentStatus.Pending, InstallmentStatus.Paid,
                    InstallmentStatus.Waived, InstallmentStatus.Cancelled}
    case Waived => {}
    case Cancelled => {}
  }

  function AttemptTransitions(s: AttemptStatus): set<AttemptStatus> {
    match s
    case Created => {AttemptStatus.LinkCreated, AttemptStatus.Failed, AttemptStatus.Expired, AttemptStatus.Unknown}
    case LinkCreated => {AttemptStatus.Pending, AttemptStatus.Succeeded, AttemptStatus.Failed,
                         AttemptStatus.Expired, AttemptStatus.Unknown}
    case Pending => {AttemptStatus.Succeeded, AttemptStatus.Failed, AttemptStatus.Expired, AttemptStatus.Unknown}
    case Succeeded => {}
    case Failed => {AttemptStatus.Unknown}
    case Expired => {AttemptStatus.Unknown}
    case Unknown => {AttemptStatus.Succeeded, AttemptStatus.Failed, AttemptStatus.Expired}
  }

  /** Another attempt of the same installment is active (or succeeded). */
  predicate Blocked(attempts: seq<Attempt>, a: AttemptId)
    requires a < |attempts|
  {
    exists x | 0 <= x < |attempts| ::
      x != a && attempts[x].installment == attempts[a].installment && IsActive(attempts[x].status)
  }

  function OrderTransitionError(current: OrderStatus, target: OrderStatus): Option<Error> {
    if target == current || target in OrderTransitions(current) then None else Some(InvalidTransition)
  }

  method TransitionOrder(db: Database, o: OrderId, status: OrderStatus) returns (error: Option<Error>)
    requires o < |db.orders|
    modifies db`orders
    ensures error == OrderTransitionError(old(db.orders[o].status), status)
    ensures db.orders == if error.None? then old(db.orders)[o := old(db.orders[o]).(status := status)]
      else old(db.orders)
  {
    if status == db.orders[o].status {
      return None;
    }
    if status !in OrderTransitions(db.orders[o].status) {
      return Some(InvalidTransition);
    }
    db.orders := db.orders[o := db.orders[o].(status := status)];
    return None;
  }

  function InstallmentTransitionError(current: InstallmentStatus, target: InstallmentStatus): Option<Error> {
    if target == current || target in InstallmentTransitions(current) then None else Some(InvalidTransition)
  }

  /** The row after a legal transition: only a first PAID writes the amount. */
  function InstallmentAfter(row: Installment, status: InstallmentStatus, amount: Option<int>): Installment {
    if status == row.status then row
    else if status.Paid? then row.(status := status, paid := Some(if amount.Some? then amount.value else row.expected))
    else row.(status := status)
  }

  method TransitionInstallment(db: Database, k: InstallmentKey, status: InstallmentStatus, amount: Option<int>)
      returns (error: Option<Error>)
    requires k in db.installments
    modifies db`installments
    ensures error == InstallmentTransitionError(old(db.installments[k].status), status)
    ensures db.installments == if error.None?
      then old(db.installments)[k := InstallmentAfter(old(db.installments[k]), status, amount)]
      else old(db.installments)
  {
    if status == db.installments[k].status {
      return None;
    }
    if status !in InstallmentTransitions(db.installments[k].status) {
      return Some(InvalidTransition);
    }
    db.installments := db.installments[k := db.installments[k].(status := status)];
    if status.Paid? {
      var received := if amount.Some? then amount.value else db.installments[k].expected;
      db.installments := db.installments[k := db.installments[k].(paid := Some(received))];
    }
    return None;
  }

  /** The table allows the change and the one-active-attempt constraint lets it be saved. */
  function AttemptTransitionError(attempts: seq<Attempt>, a: AttemptId, status: AttemptStatus): Option<Error>
    requires a < |attempts|
  {
    var from := attempts[a].status;
    if status == from then None
    else if status !in AttemptTransitions(from) then Some(InvalidTransition)
    else if IsActive(status) && !IsActive(from) && Blocked(attempts, a) then Some(Integrity)
    else None
  }

  method TransitionAttempt(db: Database, a: AttemptId, status: AttemptStatus) returns (error: Option<Error>)
    requires a < |db.attempts|
    modifies db`attempts
    ensures error == AttemptTransitionError(old(db.attempts), a, status)
    ensures db.attempts == if error.None?
      then old(db.attempts)[a := old(db.attempts[a]).(status := status)] else old(db.attempts)
  {
    if status == db.attempts[a].status {
      return None;
    }
    if status !in AttemptTransitions(db.attempts[a].status) {
      return Some(InvalidTransition);
    }
    if IsActive(status) && !IsActive(db.attempts[a].status) && Blocked(db.attempts, a) {
      return Some(Integrity);
    }
    db.attempts := db.attempts[a := db.attempts[a].(status := status)];
    return None;
  }

  // ----- who may become what -----

  /** The tables read the other way round: for each status, those it can be reached from. */
  lemma OrdersMayBecome(from: OrderStatus, to: OrderStatus)
    ensures OrderTransitionError(from, to).None? <==>
      || from == to
      || (to.Active? && from in {OrderStatus.Pending, OrderStatus.Expired, OrderStatus.PastDue, OrderStatus.Suspended})
      || (to.PastDue? && from.Active?)
      || (to.Completed? && from in {OrderStatus.Active, OrderStatus.PastDue})
      || (to.Cancelled? && !from.Completed?)
      || (to.Suspended? && from in {OrderStatus.Pending, OrderStatus.Active, OrderStatus.PastDue})
      || (to.Expired? && from.Pending?) || (to.Pending? && from.Expired?)
    ensures OrderTransitionError(from, to) in {None, Some(InvalidTransition)}
  {
  }

  lemma InstallmentsMayBecome(from: InstallmentStatus, to: InstallmentStatus)
    ensures InstallmentTransitionError(from, to).None? <==>
      || from == to
      || (IsOpen(from) && to in {InstallmentStatus.Paid, InstallmentStatus.Waived, InstallmentStatus.Cancelled})
      || (to.Failed? && IsOpen(from))
      || (to.Due? && from in {InstallmentStatus.Scheduled, InstallmentStatus.Failed})
      || (to.Pending? && from in {InstallmentStatus.Due, InstallmentStatus.Failed})
    ensures InstallmentTransitionError(from, to) in {None, Some(InvalidTransition)}
  {
  }

  /** Only an attempt that was sent to Tara succeeds, one given up comes back as UNKNOWN alone, and
      SUCCEEDED is final; a second active attempt is refused by the database. */
  lemma AttemptsMayBecome(attempts: seq<Attempt>, a: AttemptId, to: AttemptStatus)
    requires a < |attempts|
    ensures var from := attempts[a].status; var given := from in {AttemptStatus.Failed, AttemptStatus.Expired};
      var other := exists x | 0 <= x < |attempts| && x != a && attempts[x].installment == attempts[a].installment ::
        attempts[x].status !in {AttemptStatus.Failed, AttemptStatus.Expired};
      && (AttemptTransitionError(attempts, a, to).None? <==>
            || from == to
            || (to.Unknown? && !from.Succeeded? && (given ==> !other))
            || (to.LinkCreated? && from.Created?) || (to.Pending? && from.LinkCreated?)
            || (to.Succeeded? && from in {AttemptStatus.LinkCreated, AttemptStatus.Pending, AttemptStatus.Unknown})
            || (to in {AttemptStatus.Failed, AttemptStatus.Expired} && !given && !from.Succeeded?))
      && (AttemptTransitionError(attempts, a, to) == Some(Error.Integrity) <==> to.Unknown? && given && other)
  {
  }
}
