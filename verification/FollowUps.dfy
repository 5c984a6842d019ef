/** Creation of the durable follow-up work: confirmations and provisioning requests. */
module FollowUps {
  import opened Models

  /** get_or_create on the idempotency key, an injective hash of attempt and recipient. */
  function WithConfirmation(confirmations: map<ConfirmationKey, Confirmation>, a: AttemptId, recipient: string)
    : map<ConfirmationKey, Confirmation>
  {
    var key := ConfirmationKey(a, recipient);
    if key in confirmations then confirmations else confirmations[key := Confirmation(DeliveryStatus.Pending, 0, None)]
  }

  method CreateConfirmation(db: Database, a: AttemptId, recipient: string)
    modifies db`confirmations
    ensures db.confirmations == WithConfirmation(old(db.confirmations), a, recipient)
  {
    var key := ConfirmationKey(a, recipient);
    if key !in db.confirmations {
      db.confirmations := db.confirmations[key := Confirmation(DeliveryStatus.Pending, 0, None)];
    }
  }

  predicate Serves(request: Request, contact: nat, course: nat) {
    request.contact == contact && request.course == course && !request.status.Cancelled?
  }

  predicate HasRequest(requests: seq<Request>, contact: nat, course: nat) {
    exists r | 0 <= r < |requests| :: Serves(requests[r], contact, course)
  }

  function WithRequest(requests: seq<Request>, o: OrderId, order: Order): seq<Request> {
    if HasRequest(requests, order.customer, order.course) then requests
    else requests + [Request(o, order.customer, order.course, RequestStatus.Pending, 0, 0, None)]
  }

  /** ProvisioningService.create_request_from_order. */
  method CreateRequest(db: Database, o: OrderId)
    requires o < |db.orders|
    modifies db`requests
    ensures db.requests == WithRequest(old(db.requests), o, db.orders[o])
  {
    var order := db.orders[o];
    if !HasRequest(db.requests, order.customer, order.course) {
      db.requests := db.requests + [Request(o, order.customer, order.course, RequestStatus.Pending, 0, 0, None)];
    }
  }
}
