/** Concrete sales, each reached from the empty database by a run of steps. */
module Sales {
  import opened Models
  import opened Credit
  import opened FollowUps
  import opened Orders
  import opened Checkout
  import opened Closing
  import opened Administration
  import opened Access
  import opened Collection
  import opened Verification
  import opened Webhooks
  import opened Composites
  import opened Invariants
  import opened Steps
  import F = Effects
  import R = Runs
  import P = Provisioning

  // ----- reachable databases -----

  function Empty(): Db {
    Db([], map[], [], map[], [], [])
  }

  ghost predicate Reachable(db: Db) {
    Inv(Empty()) && exists steps: seq<Step> :: R.Run(Empty(), steps) == db
  }

  lemma EmptyIsReachable()
    ensures Reachable(Empty()) && Inv(Empty())
  {
    R.EmptyIsGood();
    assert R.Run(Empty(), []) == Empty();
  }

  lemma EndIsReachable(steps: seq<Step>)
    requires Inv(Empty())
    ensures Reachable(R.Run(Empty(), steps))
  {
  }

  lemma ReachesNext(steps: seq<Step>, db: Db, step: Step, db': Db)
    requires Inv(Empty()) && R.Run(Empty(), steps) == db && Apply(db, step) == db'
    ensures Reachable(db') && Inv(db')
  {
    R.OneMore(Empty(), steps, db, step, db');
    EndIsReachable(steps + [step]);
  }

  lemma Reaches(db: Db, step: Step, db': Db)
    requires Reachable(db) && Linked(db) && Apply(db, step) == db'
    ensures Reachable(db') && Inv(db')
  {
    var steps: seq<Step> :| R.Run(Empty(), steps) == db;
    ReachesNext(steps, db, step, db');
  }

  lemma ReachesByPlacement(db: Db, key: string, terms: Plan, db': Db)
    requires Reachable(db) && Linked(db) && AfterPlacement(db, key, 0, 0, Some(terms), 0) == db'
    ensures Reachable(db') && Inv(db')
  {
    F.PlaceDoes(db, key, 0, 0, Some(terms), 0);
    Reaches(db, Place(key, 0, 0, Some(terms), 0), db');
  }

  lemma ReachesByCheckout(db: Db, k: InstallmentKey, product: string, db': Db)
    requires Reachable(db) && Linked(db) && k in db.installments && FreshProduct(db, product)
    requires AfterCurrentAttempt(db, k, product) == db'
    ensures Reachable(db') && Inv(db')
  {
    F.CurrentAttemptDoes(db, k, product);
    Reaches(db, CurrentAttempt(k, product), db');
  }

  lemma ReachesByLink(db: Db, a: AttemptId, link: Option<string>, db': Db)
    requires Reachable(db) && Linked(db) && a < |db.attempts| && AfterLink(db, a, link) == db'
    ensures Reachable(db') && Inv(db')
  {
    F.SaveLinkDoes(db, a, link);
    Reaches(db, SaveLink(a, link), db');
  }

  lemma ReachesByTimeout(db: Db, a: AttemptId, db': Db)
    requires Reachable(db) && Linked(db) && a < |db.attempts| && AfterMove(db, a, AttemptStatus.Unknown) == db'
    ensures Reachable(db') && Inv(db')
  {
    F.MoveDoes(db, a, AttemptStatus.Unknown);
    Reaches(db, Move(a, AttemptStatus.Unknown), db');
  }

  lemma ReachesByWebhook(db: Db, d: Delivery, db': Db)
    requires Reachable(db) && Linked(db) && AfterDelivery(db, d) == db'
    ensures Reachable(db') && Inv(db')
  {
    F.WebhookDoes(db, d);
    Reaches(db, Webhook(d), db');
  }

  lemma ReachesByWaiver(db: Db, k: InstallmentKey, today: int, db': Db)
    requires Reachable(db) && Linked(db) && k in db.installments && AfterWaive(db, k, today) == db'
    ensures Reachable(db') && Inv(db')
  {
    F.WaiveDoes(db, k, today);
    Reaches(db, Waive(k, today), db');
  }

  lemma ReachesByFreeze(db: Db, o: OrderId, db': Db)
    requires Reachable(db) && Linked(db) && o < |db.orders| && AfterSwitch(db, o, true, true) == db'
    ensures Reachable(db') && Inv(db')
  {
    F.FreezeDoes(db, o, true);
    Reaches(db, Freeze(o, true), db');
  }

  lemma ReachesByRestore(db: Db, o: OrderId, db': Db)
    requires Reachable(db) && Linked(db) && o < |db.orders| && AfterSwitch(db, o, false, true) == db'
    ensures Reachable(db') && Inv(db')
  {
    F.RestoreDoes(db, o, true);
    Reaches(db, Restore(o, true), db');
  }

  lemma ReachesBySuspension(db: Db, o: OrderId, clock: Clock, db': Db)
    requires Reachable(db) && Linked(db) && o < |db.orders| && AfterSuspension(db, o, clock) == db'
    ensures Reachable(db') && Inv(db')
  {
    F.SuspendDoes(db, o, clock);
    Reaches(db, Suspend(o, clock), db');
  }

  lemma ReachesByWork(db: Db, r: RequestId, act: P.Action, row: Request)
    requires Reachable(db) && Linked(db) && r < |db.requests| && db.requests[r].order < |db.orders|
    requires MayAct(db, r, act) && P.RowAfter(db.requests[r], act) == row
    ensures var db' := db.(requests := db.requests[r := row]); Reachable(db') && Inv(db')
  {
    F.ProvisionDoes(db, r, act);
    Reaches(db, Provision(r, act), db.(requests := db.requests[r := row]));
  }

  // ----- Tara -----

  /** Tara confirms each payment it is asked about as one of 5000 for this productId. */
  function Tara(product: string): Client {
    Client("us", id => Answered(Verdict.Success, Some(product), Some(id), Some("us"), Some(5000)),
           named => AnsweredProduct(Verdict.Success, named))
  }

  function Notice(body: string, product: string, payment: string): Delivery {
    Delivery(body, Some(Payload("us", Some(product), Some(payment), None, true)), Some("us"), Some(Tara(product)),
             "mail", Clock(0, 24, {}))
  }

  function Handled(body: string, product: string, payment: string, a: AttemptId): Event {
    Event(body, Some(product), Some(payment), true, Processing.Processed, NoFailure, Some(a))
  }

  lemma TaraConfirms(db: Db, a: AttemptId, product: string, payment: string)
    requires a < |db.attempts| && db.attempts[a].product == product && db.attempts[a].expected == 5000
    requires Usable(payment, product)
    ensures Checked(db, a, Tara(product), Some(payment))
      == Verified(Verdict.Success, Verdict.Success, Some(payment), Some(5000), Clean)
  {
    var ids := Candidates(db.events, product, db.attempts[a].payment, Some(payment));
    CandidatesAreDistinct(db.events, product, db.attempts[a].payment, Some(payment));
    assert Creditable(Tara(product), product, 5000, ids[0]);
    FirstAt(ids, id => Stops(Tara(product), product, 5000, id), 0);
  }

  /** When nothing is suspended, the end of a confirmed payment lifts nothing. */
  lemma ConfirmedIsCredited(db: Db, a: AttemptId, s: Receipt, clock: Clock)
    requires Linked(db) && a < |db.attempts| && !SuccessOutcome(db, a, s.payment).Raised?
    requires forall o | 0 <= o < |AfterSuccess(db, a, s).orders| ::
      !AfterSuccess(db, a, s).orders[o].status.Suspended?
    ensures a < |AfterSuccess(db, a, s).attempts|
    ensures AfterConfirmed(db, a, s, clock) == AfterResolution(AfterSuccess(db, a, s), a)
  {
  }

  lemma AcceptedIsConfirmed(db: Db, e: nat, a: AttemptId, p: Payload, payment: string, clock: Clock)
    requires Linked(db) && a < |db.attempts| && e < |db.events| && p.amount.None?
    requires payment != "" && !SuccessOutcome(db, a, Some(payment)).Raised?
    ensures var r := Verified(Verdict.Success, Verdict.Success, Some(payment), Some(5000), Clean);
      var confirmed := AfterConfirmed(db, a, Receipt(Some(payment), Some(5000), "mail", Day(clock.now)), clock);
      && |confirmed.events| == |db.events|
      && AfterVerdict(db, e, a, r, p, "mail", clock)
        == confirmed.(events := confirmed.events[e :=
             db.events[e].(reportsSuccess := true, processing := Processing.Processed)])
  {
  }

  lemma NoticeIsVerified(db: Db, a: AttemptId, body: string, product: string, payment: string)
    requires Linked(db) && a < |db.attempts| && product != "" && !Delivered(db.events, body)
    requires WithProduct(db.attempts, Some(product)) == Some(a)
    ensures var d := Notice(body, product, payment); var attached := AttachedTo(db, d, d.payload.value, a);
      AfterDelivery(db, d) == AfterVerdict(attached, |db.events|, a, Checked(attached, a, Tara(product), Some(payment)),
                                           d.payload.value, "mail", d.clock)
  {
  }

  lemma SameOutcome(db: Db, events: seq<Event>, a: AttemptId, payment: string)
    requires Linked(db) && a < |db.attempts|
    ensures SuccessOutcome(db.(events := events), a, Some(payment)) == SuccessOutcome(db, a, Some(payment))
  {
  }

  /** The notice of a payment that can be credited ends in the credit and its own event. */
  lemma NoticeIs(db: Db, a: AttemptId, body: string, product: string, payment: string)
    requires Linked(db) && a < |db.attempts| && db.attempts[a].product == product && db.attempts[a].expected == 5000
    requires product != "" && Usable(payment, product) && !Delivered(db.events, body)
    requires WithProduct(db.attempts, Some(product)) == Some(a)
    requires !SuccessOutcome(db, a, Some(payment)).Raised?
    ensures var d := Notice(body, product, payment); var attached := AttachedTo(db, d, d.payload.value, a);
      var confirmed := AfterConfirmed(attached, a, Receipt(Some(payment), Some(5000), "mail", 0), d.clock);
      && |confirmed.events| == |db.events| + 1
      && AfterDelivery(db, d)
        == confirmed.(events := confirmed.events[|db.events| := Handled(body, product, payment, a)])
  {
    var d := Notice(body, product, payment);
    var attached := AttachedTo(db, d, d.payload.value, a);
    NoticeIsVerified(db, a, body, product, payment);
    TaraConfirms(attached, a, product, payment);
    SameOutcome(db, attached.events, a, payment);
    AcceptedIsConfirmed(attached, |db.events|, a, d.payload.value, payment, d.clock);
  }

  /** The other events are about other products: they stay. */
  lemma ResolutionKeeps(paid: Db, events: seq<Event>, a: AttemptId, row: Event, body: string, payment: string)
    requires a < |paid.attempts| && paid.attempts[a].status.Succeeded?
    requires forall e | 0 <= e < |events| :: events[e].product != Some(paid.attempts[a].product)
    ensures var attached := paid.(events := events + [row]);
      var resolved := AfterResolution(attached, a);
      && |resolved.events| == |events| + 1 && resolved == attached.(events := resolved.events)
      && resolved.events[|events| := Handled(body, paid.attempts[a].product, payment, a)]
        == events + [Handled(body, paid.attempts[a].product, payment, a)]
  {
    var resolved := AfterResolution(paid.(events := events + [row]), a);
    forall e | 0 <= e < |events|
      ensures resolved.events[e] == events[e]
    {
      assert (events + [row])[e] == events[e];
    }
  }

  lemma NoticeCredits(db: Db, a: AttemptId, body: string, product: string, payment: string, paid: Db)
    requires Linked(db) && a < |db.attempts| && db.attempts[a].product == product && db.attempts[a].expected == 5000
    requires product != "" && Usable(payment, product) && !Delivered(db.events, body)
    requires WithProduct(db.attempts, Some(product)) == Some(a)
    requires !SuccessOutcome(db, a, Some(payment)).Raised?
    requires a < |paid.attempts| && paid.attempts[a].status.Succeeded? && paid.attempts[a].product == product
    requires forall e | 0 <= e < |db.events| :: db.events[e].product != Some(product)
    requires forall o | 0 <= o < |paid.orders| :: !paid.orders[o].status.Suspended?
    requires forall events: seq<Event> ::
      AfterSuccess(db.(events := events), a, Receipt(Some(payment), Some(5000), "mail", 0)) == paid.(events := events)
    ensures AfterDelivery(db, Notice(body, product, payment))
      == paid.(events := db.events + [Handled(body, product, payment, a)])
  {
    var d := Notice(body, product, payment);
    var row := Opened(body, d.payload.value).(attempt := Some(a));
    var attached := AttachedTo(db, d, d.payload.value, a);
    NoticeIs(db, a, body, product, payment);
    SameOutcome(db, attached.events, a, payment);
    assert AfterSuccess(attached, a, Receipt(Some(payment), Some(5000), "mail", 0)) == paid.(events := attached.events);
    ConfirmedIsCredited(attached, a, Receipt(Some(payment), Some(5000), "mail", 0), d.clock);
    ResolutionKeeps(paid, db.events, a, row, body, payment);
  }

  // ----- one sale in three installments -----

  function Terms(): Plan {
    Plan(true, 0, 5000, 3, 30, FirstInstallment)
  }

  function Sale(status: OrderStatus, marker: Option<int>): Order {
    Order("key", 0, 0, 0, FirstInstallment, 3, 5000, 15000, status, marker)
  }

  function Key(s: nat): InstallmentKey {
    InstallmentKey(0, s)
  }

  function Row(s: nat, status: InstallmentStatus): Installment {
    Installment(5000, 30 * (s - 1), status, if status.Paid? then Some(5000) else None)
  }

  function Rows(first: InstallmentStatus, second: InstallmentStatus): map<InstallmentKey, Installment> {
    map[Key(1) := Row(1, first), Key(2) := Row(2, second), Key(3) := Row(3, InstallmentStatus.Scheduled)]
  }

  function FirstAttempt(status: AttemptStatus): Attempt {
    Attempt(Key(1), "first", if status.Succeeded? then Some("pay") else None, 5000, status,
            if status.Created? then None else Some("link"), 0, None)
  }

  function Served(status: RequestStatus, access: Option<bool>): Request {
    Request(0, 0, 0, status, if status.Pending? then 0 else 1, if access.Some? then 1 else 0, access)
  }

  function Ordered(): Db {
    Db([Sale(OrderStatus.Pending, None)], Rows(InstallmentStatus.Scheduled, InstallmentStatus.Scheduled), [], map[],
       [], [])
  }

  lemma OrderedIsReachable()
    ensures Reachable(Ordered()) && Inv(Ordered())
  {
    EmptyIsReachable();
    var terms := Terms();
    var one := WithInstallments(map[], 0, terms, 0, 1);
    assert one == map[Key(1) := Row(1, InstallmentStatus.Scheduled)];
    var two := WithInstallments(map[], 0, terms, 0, 2);
    assert two == one[Key(2) := Row(2, InstallmentStatus.Scheduled)];
    var three := WithInstallments(map[], 0, terms, 0, 3);
    assert three == two[Key(3) := Row(3, InstallmentStatus.Scheduled)];
    ReachesByPlacement(Empty(), "key", terms, Ordered());
  }

  function Begun(status: AttemptStatus): Db {
    Ordered().(attempts := [FirstAttempt(status)])
  }

  lemma CheckoutIs()
    ensures Key(1) in Ordered().installments
    ensures AfterCurrentAttempt(Ordered(), Key(1), "first") == Begun(AttemptStatus.Created)
    ensures AfterLink(Begun(AttemptStatus.Created), 0, Some("link")) == Begun(AttemptStatus.LinkCreated)
    ensures AfterMove(Begun(AttemptStatus.LinkCreated), 0, AttemptStatus.Unknown) == Begun(AttemptStatus.Unknown)
  {
  }

  lemma BegunIsReachable()
    ensures Reachable(Begun(AttemptStatus.Created)) && Inv(Begun(AttemptStatus.Created))
  {
    OrderedIsReachable();
    CheckoutIs();
    ReachesByCheckout(Ordered(), Key(1), "first", Begun(AttemptStatus.Created));
  }

  lemma LinkedIsReachable()
    ensures Reachable(Begun(AttemptStatus.LinkCreated)) && Inv(Begun(AttemptStatus.LinkCreated))
  {
    BegunIsReachable();
    CheckoutIs();
    ReachesByLink(Begun(AttemptStatus.Created), 0, Some("link"), Begun(AttemptStatus.LinkCreated));
  }

  lemma UnknownIsReachable()
    ensures Reachable(Begun(AttemptStatus.Unknown)) && Inv(Begun(AttemptStatus.Unknown))
  {
    LinkedIsReachable();
    CheckoutIs();
    ReachesByTimeout(Begun(AttemptStatus.LinkCreated), 0, Begun(AttemptStatus.Unknown));
  }

  // ----- its first installment is paid -----

  function PaidSale(requests: seq<Request>): Db {
    Db([Sale(OrderStatus.Active, None)], Rows(InstallmentStatus.Paid, InstallmentStatus.Scheduled),
       [FirstAttempt(AttemptStatus.Succeeded)],
       map[ConfirmationKey(0, "mail") := Confirmation(DeliveryStatus.Pending, 0, None)],
       requests, [Handled("paid", "first", "pay", 0)])
  }

  lemma CreditIs(events: seq<Event>)
    requires Linked(Begun(AttemptStatus.LinkCreated).(events := events))
    ensures AfterSuccess(Begun(AttemptStatus.LinkCreated).(events := events), 0,
                         Receipt(Some("pay"), Some(5000), "mail", 0))
      == PaidSale([Served(RequestStatus.Pending, None)]).(events := events)
  {
    var before := Begun(AttemptStatus.LinkCreated).(events := events);
    var paid := PaidSale([Served(RequestStatus.Pending, None)]);
    assert SuccessOutcome(before, 0, Some("pay")).Applied?;
    assert CreditedAttempts(before.attempts, 0, Some("pay")) == paid.attempts;
    assert before.installments[Key(1) := Row(1, InstallmentStatus.Paid)] == paid.installments;
    assert InstallmentKey(0, 1) in paid.installments && AnyPaid(paid.installments, 0, 3);
    assert InstallmentKey(0, 2) in paid.installments && !AllSettled(paid.installments, 0, 3);
    assert !HasRequest(before.requests, 0, 0);
  }

  lemma FirstIsCorrelated()
    ensures WithProduct(Begun(AttemptStatus.LinkCreated).attempts, Some("first")) == Some(0)
    ensures SuccessOutcome(Begun(AttemptStatus.LinkCreated), 0, Some("pay")).Applied?
  {
    assert Begun(AttemptStatus.LinkCreated).attempts[..0] == [] && WithProduct([], Some("first")).None?;
  }

  lemma CreditsAre()
    requires Linked(Begun(AttemptStatus.LinkCreated))
    ensures forall events: seq<Event> ::
      AfterSuccess(Begun(AttemptStatus.LinkCreated).(events := events), 0,
                   Receipt(Some("pay"), Some(5000), "mail", 0))
        == PaidSale([Served(RequestStatus.Pending, None)]).(events := events)
  {
    forall events: seq<Event>
      ensures AfterSuccess(Begun(AttemptStatus.LinkCreated).(events := events), 0,
                           Receipt(Some("pay"), Some(5000), "mail", 0))
        == PaidSale([Served(RequestStatus.Pending, None)]).(events := events)
    {
      CreditIs(events);
    }
  }

  lemma PaymentIs()
    requires Linked(Begun(AttemptStatus.LinkCreated))
    ensures AfterDelivery(Begun(AttemptStatus.LinkCreated), Notice("paid", "first", "pay"))
      == PaidSale([Served(RequestStatus.Pending, None)])
  {
    FirstIsCorrelated();
    CreditsAre();
    NoticeCredits(Begun(AttemptStatus.LinkCreated), 0, "paid", "first", "pay",
      PaidSale([Served(RequestStatus.Pending, None)]));
  }

  /** The webhook of a payment has arrived, Tara has confirmed it. */
  lemma PaidIsReachable()
    ensures var db := PaidSale([Served(RequestStatus.Pending, None)]); Reachable(db) && Inv(db)
  {
    LinkedIsReachable();
    PaymentIs();
    ReachesByWebhook(Begun(AttemptStatus.LinkCreated), Notice("paid", "first", "pay"),
      PaidSale([Served(RequestStatus.Pending, None)]));
  }

  // ----- its access is open -----

  function Enrolled(): Db {
    PaidSale([Served(RequestStatus.Completed, Some(false))])
  }

  lemma OneRequest(row: Request, row': Request)
    ensures PaidSale([row]).(requests := PaidSale([row]).requests[0 := row']) == PaidSale([row'])
  {
    assert [row][0 := row'] == [row'];
  }

  lemma WorkReaches(row: Request, act: P.Action, row': Request)
    requires Reachable(PaidSale([row])) && Inv(PaidSale([row])) && row.order == 0
    requires MayAct(PaidSale([row]), 0, act) && P.RowAfter(row, act) == row'
    ensures Reachable(PaidSale([row'])) && Inv(PaidSale([row']))
  {
    ReachesByWork(PaidSale([row]), 0, act, row');
    OneRequest(row, row');
  }

  lemma WorkIs()
    ensures P.RowAfter(Served(RequestStatus.Pending, None), P.Enter(0)) == Served(RequestStatus.InProgress, None)
    ensures P.RowAfter(Served(RequestStatus.InProgress, None), P.Try(0, P.Success(true)))
      == Served(RequestStatus.InProgress, Some(false))
    ensures P.RowAfter(Served(RequestStatus.InProgress, Some(false)), P.Conclude(0, P.Success(true)))
      == Served(RequestStatus.Completed, Some(false))
  {
  }

  lemma ClaimedIsReachable()
    ensures var db := PaidSale([Served(RequestStatus.InProgress, None)]); Reachable(db) && Inv(db)
  {
    PaidIsReachable();
    WorkIs();
    WorkReaches(Served(RequestStatus.Pending, None), P.Enter(0), Served(RequestStatus.InProgress, None));
  }

  lemma TriedIsReachable()
    ensures var db := PaidSale([Served(RequestStatus.InProgress, Some(false))]); Reachable(db) && Inv(db)
  {
    ClaimedIsReachable();
    WorkIs();
    WorkReaches(Served(RequestStatus.InProgress, None), P.Try(0, P.Success(true)),
      Served(RequestStatus.InProgress, Some(false)));
  }

  lemma EnrolledIsReachable()
    ensures Reachable(Enrolled()) && Inv(Enrolled())
  {
    TriedIsReachable();
    WorkIs();
    WorkReaches(Served(RequestStatus.InProgress, Some(false)), P.Conclude(0, P.Success(true)),
      Served(RequestStatus.Completed, Some(false)));
  }

  /** The sale with its access open or suspended, and its second installment waived or not. */
  function Later(suspended: bool, status: OrderStatus, marker: Option<int>, second: InstallmentStatus): Db {
    Enrolled().(orders := [Sale(status, marker)], installments := Rows(InstallmentStatus.Paid, second),
                requests := [Served(RequestStatus.Completed, Some(suspended))])
  }

  lemma TheAccess(suspended: bool, status: OrderStatus, marker: Option<int>, second: InstallmentStatus)
    ensures OpenAccess(Later(suspended, status, marker, second), 0) == Some(0)
  {
    var db := Later(suspended, status, marker, second);
    assert LatestRequest(db.requests, 0, 0, 1) == Some(0);
  }

  /** The instant at which the second installment is long late; ClickFunnels answers. */
  function Late(): Clock {
    Clock(50000, 24, {0})
  }

  lemma SecondIsLate()
    ensures Overdue(Enrolled(), 0, Late())
    ensures forall status: OrderStatus, marker: Option<int>, suspended: bool ::
      BeyondDeadline(Later(suspended, status, marker, InstallmentStatus.Scheduled), 0, Clock(50100, 24, {0}))
  {
    var db := Enrolled();
    assert InstallmentKey(0, 2) in db.installments && IsOpen(db.installments[InstallmentKey(0, 2)].status);
    assert LongLate(db, 0, Late());
    forall status: OrderStatus, marker: Option<int>, suspended: bool
      ensures BeyondDeadline(Later(suspended, status, marker, InstallmentStatus.Scheduled), 0, Clock(50100, 24, {0}))
    {
      var later := Later(suspended, status, marker, InstallmentStatus.Scheduled);
      assert InstallmentKey(0, 2) in later.installments && IsOpen(later.installments[InstallmentKey(0, 2)].status);
    }
  }

  lemma NoLongerLate(suspended: bool, status: OrderStatus, marker: Option<int>)
    ensures !BeyondDeadline(Later(suspended, status, marker, InstallmentStatus.Waived), 0, Clock(50100, 24, {0}))
  {
  }

  lemma SuspensionIs()
    ensures AfterSuspension(Enrolled(), 0, Late())
      == Later(true, OrderStatus.Suspended, Some(50000), InstallmentStatus.Scheduled)
  {
    TheAccess(false, OrderStatus.Active, None, InstallmentStatus.Scheduled);
    assert Enrolled() == Later(false, OrderStatus.Active, None, InstallmentStatus.Scheduled);
    SecondIsLate();
  }

  lemma FreezeIs(suspended: bool, marker: Option<int>, second: InstallmentStatus)
    ensures AfterSwitch(Later(suspended, OrderStatus.Active, marker, second), 0, true, true)
      == Later(true, OrderStatus.Suspended, marker, second)
  {
    TheAccess(suspended, OrderStatus.Active, marker, second);
  }

  lemma RestoreIs(suspended: bool, marker: Option<int>, second: InstallmentStatus)
    ensures AfterSwitch(Later(suspended, OrderStatus.Suspended, marker, second), 0, false, true)
      == Later(false, OrderStatus.Active, marker, second)
  {
    TheAccess(suspended, OrderStatus.Suspended, marker, second);
  }

  // ----- its second installment is waived -----

  lemma SecondCloses(suspended: bool, status: OrderStatus, marker: Option<int>)
    ensures var before := Later(suspended, status, marker, InstallmentStatus.Scheduled);
      && InstallmentDecision(before, Key(2), InstallmentStatus.Waived).Done?
      && AfterInstallmentClosed(before, Key(2), InstallmentStatus.Waived)
        == Later(suspended, status, marker, InstallmentStatus.Waived)
  {
    var before := Later(suspended, status, marker, InstallmentStatus.Scheduled);
    var after := Later(suspended, status, marker, InstallmentStatus.Waived);
    assert !HasSucceeded(before.attempts, Key(2));
    assert ClosedAttempts(before.attempts, {Key(2)}) == before.attempts;
    assert before.installments[Key(2) := Row(2, InstallmentStatus.Waived)] == after.installments;
  }

  lemma SaleGoesOn(suspended: bool, status: OrderStatus, marker: Option<int>)
    requires status.Active? || status.Suspended?
    ensures var after := Later(suspended, status, marker, InstallmentStatus.Waived);
      && WithRecomputed(after, 0, 34) == after.orders
      && WithRequest(after.requests, 0, after.orders[0]) == after.requests
  {
    var after := Later(suspended, status, marker, InstallmentStatus.Waived);
    assert InstallmentKey(0, 1) in after.installments && AnyPaid(after.installments, 0, 3);
    assert InstallmentKey(0, 3) in after.installments && !AllSettled(after.installments, 0, 3);
    assert Serves(after.requests[0], 0, 0);
  }

  lemma WaiverLeaves(db: Db, closed: Db, today: int)
    requires Linked(db) && Key(2) in db.installments && |db.orders| == 1 == |closed.orders|
    requires InstallmentDecision(db, Key(2), InstallmentStatus.Waived).Done?
    requires AfterInstallmentClosed(db, Key(2), InstallmentStatus.Waived) == closed
    requires WithRecomputed(closed, 0, today) == closed.orders && closed.orders[0] == db.orders[0]
    requires WithRequest(closed.requests, 0, closed.orders[0]) == closed.requests && db.requests == closed.requests
    ensures AfterWaive(db, Key(2), today) == closed
  {
  }

  lemma WaiverIs(suspended: bool, status: OrderStatus, marker: Option<int>)
    requires Linked(Later(suspended, status, marker, InstallmentStatus.Scheduled))
    requires status.Active? || status.Suspended?
    ensures AfterWaive(Later(suspended, status, marker, InstallmentStatus.Scheduled), Key(2), 34)
      == Later(suspended, status, marker, InstallmentStatus.Waived)
  {
    SecondCloses(suspended, status, marker);
    SaleGoesOn(suspended, status, marker);
    WaiverLeaves(Later(suspended, status, marker, InstallmentStatus.Scheduled),
      Later(suspended, status, marker, InstallmentStatus.Waived), 34);
  }
}
