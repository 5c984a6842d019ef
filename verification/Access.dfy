/** Suspending and restoring the course access behind a sale
    (EnrollmentAdministrationService.freeze_order_enrollment and resume_order_enrollment). */
module Access {
  import opened Models
  import opened StateMachines
  import opened FollowUps

  /** The newest non-cancelled request for (contact, course) among the first n. */
  function LatestRequest(requests: seq<Request>, contact: nat, course: nat, n: nat): (r: Option<RequestId>)
    requires n <= |requests|
    ensures r.Some? ==> r.value < n && Serves(requests[r.value], contact, course)
    ensures forall x | (if r.Some? then r.value + 1 else 0) <= x < n :: !Serves(requests[x], contact, course)
  {
    if n == 0 then None
    else if Serves(requests[n - 1], contact, course) then Some(n - 1)
    else LatestRequest(requests, contact, course, n - 1)
  }

  /** find_open_access: the request whose SUCCESS attempt opened this sale's access. */
  function OpenAccess(db: Db, o: OrderId): (r: Option<RequestId>)
    requires o < |db.orders|
    ensures r.Some? ==> r.value < |db.requests| && db.requests[r.value].access.Some?
  {
    var r := LatestRequest(db.requests, db.orders[o].customer, db.orders[o].course, |db.requests|);
    if r.Some? && db.requests[r.value].access.Some? then r else None
  }

  /** _set_order_suspension goes through: right status, open access, and ClickFunnels either
      answers or has nothing to change. */
  predicate Switchable(db: Db, o: OrderId, suspended: bool, answers: bool)
    requires o < |db.orders|
  {
    && (if suspended then db.orders[o].status.Active? || db.orders[o].status.PastDue?
        else db.orders[o].status.Suspended?)
    && OpenAccess(db, o).Some?
    && (answers || db.requests[OpenAccess(db, o).value].access == Some(suspended))
  }

  function Switched(db: Db, o: OrderId, suspended: bool): Db
    requires o < |db.orders| && OpenAccess(db, o).Some?
  {
    var r := OpenAccess(db, o).value;
    db.(requests := db.requests[r := db.requests[r].(access := Some(suspended))],
        orders := db.orders[o :=
          db.orders[o].(status := if suspended then OrderStatus.Suspended else OrderStatus.Active)])
  }

  function AfterSwitch(db: Db, o: OrderId, suspended: bool, answers: bool): Db
    requires o < |db.orders|
  {
    if Switchable(db, o, suspended, answers) then Switched(db, o, suspended) else db
  }

  // ----- the commits -----

  function AfterFlag(db: Db, r: RequestId, suspended: bool): Db
    requires r < |db.requests|
  {
    db.(requests := db.requests[r := db.requests[r].(access := Some(suspended))])
  }

  function AfterMirror(db: Db, o: OrderId, suspended: bool): Db
    requires o < |db.orders|
  {
    var target := if suspended then OrderStatus.Suspended else OrderStatus.Active;
    if OrderTransitionError(db.orders[o].status, target).None?
    then db.(orders := db.orders[o := db.orders[o].(status := target)])
    else db
  }

  /** _set_attempt_suspension after ClickFunnels has accepted the change. */
  method FlagEnrollment(db: Database, r: RequestId, suspended: bool)
    requires r < |db.requests|
    modifies db`requests
    ensures db.State() == AfterFlag(old(db.State()), r, suspended)
  {
    db.requests := db.requests[r := db.requests[r].(access := Some(suspended))];
  }

  /** The end of _set_order_suspension: the order follows if its status still allows it, and is
      skipped in silence if not. */
  method MirrorOrder(db: Database, o: OrderId, suspended: bool)
    requires o < |db.orders|
    modifies db`orders
    ensures db.State() == AfterMirror(old(db.State()), o, suspended)
  {
    var skipped := TransitionOrder(db, o, if suspended then OrderStatus.Suspended else OrderStatus.Active);
  }

  // ----- the calls, undisturbed -----

  /** _set_attempt_suspension on the enrollment behind request r. */
  method SetAttemptSuspension(db: Database, r: RequestId, suspended: bool, answers: bool) returns (done: bool)
    requires r < |db.requests| && db.requests[r].access.Some?
    modifies db`requests
    ensures done == (answers || old(db.requests[r]).access == Some(suspended))
    ensures db.State() == if done then AfterFlag(old(db.State()), r, suspended) else old(db.State())
  {
    if db.requests[r].access == Some(suspended) {
      return true;
    }
    if !answers {
      return false;
    }
    FlagEnrollment(db, r, suspended);
    return true;
  }

  /** _set_order_suspension; `answers` says whether ClickFunnels accepts the change if asked. */
  method SetOrderSuspension(db: Database, o: OrderId, suspended: bool, answers: bool) returns (done: bool)
    requires o < |db.orders|
    modifies db`requests, db`orders
    ensures done == Switchable(old(db.State()), o, suspended, answers)
    ensures db.State() == AfterSwitch(old(db.State()), o, suspended, answers)
  {
    var status := db.orders[o].status;
    if !(if suspended then status.Active? || status.PastDue? else status.Suspended?) {
      return false;
    }
    var r := OpenAccess(db.State(), o);
    if r.None? {
      return false;
    }
    done := SetAttemptSuspension(db, r.value, suspended, answers);
    if done {
      MirrorOrder(db, o, suspended);
    }
  }
}
