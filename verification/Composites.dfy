/** The larger transactions keep the invariant: confirmed payments, webhook deliveries, checks,
    attributions and new orders. */
module Composites {
  import opened Models
  import opened Credit
  import opened Collection
  import opened Verification
  import opened Webhooks
  import opened Checkout
  import opened Checks
  import opened Orders
  import opened Invariants
  import opened Preservation
  import opened CreditProofs

  lemma EventsStep(db: Db, events: seq<Event>)
    requires Inv(db)
    ensures var db' := db.(events := events); Inv(db') && Quiet(db, db')
  {
  }

  /** A credit in the middle of a transaction that otherwise credits nothing. */
  datatype Crediting = Crediting(middle: Db, a: AttemptId, receipt: Receipt)

  ghost predicate Applicable(c: Crediting) {
    && Inv(c.middle) && c.a < |c.middle.attempts|
    && SuccessOutcome(c.middle, c.a, c.receipt.payment).Applied?
  }

  /** db becomes db' by crediting c and nothing else. */
  ghost predicate Through(db: Db, c: Crediting, db': Db) {
    Applicable(c) && Quiet(db, c.middle) && Quiet(Credited(c.middle, c.a, c.receipt), db')
  }

  lemma ThroughGrows(db: Db, c: Crediting, db': Db)
    requires Through(db, c, db')
    ensures Grows(db, db')
  {
    AppliedKeeps(c.middle, c.a, c.receipt);
    GrowsTransitive(db, c.middle, Credited(c.middle, c.a, c.receipt));
    GrowsTransitive(db, Credited(c.middle, c.a, c.receipt), db');
  }

  // ----- confirmed payments -----

  lemma ConfirmedKeeps(db: Db, a: AttemptId, s: Receipt, clock: Clock)
    requires Inv(db) && a < |db.attempts|
    ensures Inv(AfterConfirmed(db, a, s, clock))
    ensures if SuccessOutcome(db, a, s.payment).Applied?
      then Quiet(Credited(db, a, s), AfterConfirmed(db, a, s, clock))
      else Quiet(db, AfterConfirmed(db, a, s, clock))
  {
    if SuccessOutcome(db, a, s.payment).Raised? {
      UnchangedIsQuiet(db);
    } else {
      CreditKeeps(db, a, s);
      var after := AfterSuccess(db, a, s);
      var resolved := AfterResolution(after, a);
      EventsStep(after, resolved.events);
      ResumptionKeeps(resolved, db.attempts[a].installment.order, clock);
      QuietTransitive(after, resolved, AfterConfirmed(db, a, s, clock));
    }
  }

  // ----- deliveries -----

  /** The verdict on which a delivery credits its attempt. */
  predicate Convincing(db: Db, a: AttemptId, r: Result, p: Payload)
    requires a < |db.attempts|
  {
    Accepts(r) && !DoubtfulAmount(db, a, r, p)
  }

  /** r is Tara's verdict on attempt a, asked first about the preferred paymentId. */
  ghost predicate VerdictOn(db: Db, a: AttemptId, client: Option<Client>, preferred: Option<string>, r: Result)
    requires a < |db.attempts|
  {
    if client.None? then r.Raised? else r == Checked(db, a, client.value, preferred)
  }

  lemma SuccessIsCleanOrMismatch(db: Db, a: AttemptId, client: Option<Client>, preferred: Option<string>, r: Result)
    requires a < |db.attempts| && VerdictOn(db, a, client, preferred, r) && r.Verified? && r.status.Success?
    ensures r.category.Clean? || r.category.AmountMismatch?
    ensures r.category.Clean? ==> r.amount.None? || r.amount == Some(db.attempts[a].expected)
  {
    if r.category.Clean? {
      var row := db.attempts[a];
      AcceptedMeansPaid(client.value, row.product, row.expected,
        Candidates(db.events, row.product, row.payment, preferred));
    }
  }

  /** Apart from the event itself, a verdict confirms the payment, applies the failure, or
      leaves everything as it is. */
  lemma VerdictIs(db: Db, e: nat, a: AttemptId, r: Result, p: Payload, recipient: string, clock: Clock)
    requires Linked(db) && a < |db.attempts| && e < |db.events|
    requires r.Verified? && r.status.Success? ==> r.category.Clean? || r.category.AmountMismatch?
    ensures var db' := AfterVerdict(db, e, a, r, p, recipient, clock);
      db' == (if Convincing(db, a, r, p) then AfterConfirmed(db, a, AppliedSuccess(r, p, recipient, clock), clock)
              else if r.Verified? && (r.category.Clean? || r.category.AmountMismatch?) && r.status.Failure?
                then AfterFailure(db, a)
              else db).(events := db'.events)
  {
  }

  lemma VerdictKeeps(db: Db, e: nat, a: AttemptId, client: Option<Client>, r: Result, p: Payload, recipient: string,
      clock: Clock)
    requires Inv(db) && a < |db.attempts| && e < |db.events| && VerdictOn(db, a, client, p.payment, r)
    ensures var db' := AfterVerdict(db, e, a, r, p, recipient, clock);
      Inv(db') &&
      if Convincing(db, a, r, p) && SuccessOutcome(db, a, AppliedSuccess(r, p, recipient, clock).payment).Applied?
      then Through(db, Crediting(db, a, AppliedSuccess(r, p, recipient, clock)), db')
      else Quiet(db, db')
  {
    var events := AfterVerdict(db, e, a, r, p, recipient, clock).events;
    UnchangedIsQuiet(db);
    if r.Verified? && r.status.Success? {
      SuccessIsCleanOrMismatch(db, a, client, p.payment, r);
    }
    VerdictIs(db, e, a, r, p, recipient, clock);
    if Convincing(db, a, r, p) {
      ConfirmedEvents(db, a, AppliedSuccess(r, p, recipient, clock), clock, events);
    } else if r.Verified? && r.status.Failure? {
      FailureKeeps(db, a);
      EventsStep(AfterFailure(db, a), events);
      QuietTransitive(db, AfterFailure(db, a), AfterFailure(db, a).(events := events));
      EventsStep(db, events);
    } else {
      EventsStep(db, events);
    }
  }

  lemma ConfirmedEvents(db: Db, a: AttemptId, s: Receipt, clock: Clock, events: seq<Event>)
    requires Inv(db) && a < |db.attempts|
    ensures var db' := AfterConfirmed(db, a, s, clock).(events := events);
      Inv(db') && if SuccessOutcome(db, a, s.payment).Applied? then Through(db, Crediting(db, a, s), db')
        else Quiet(db, db')
  {
    UnchangedIsQuiet(db);
    ConfirmedKeeps(db, a, s, clock);
    var confirmed := AfterConfirmed(db, a, s, clock);
    EventsStep(confirmed, events);
    if SuccessOutcome(db, a, s.payment).Applied? {
      QuietTransitive(Credited(db, a, s), confirmed, confirmed.(events := events));
    } else {
      QuietTransitive(db, confirmed, confirmed.(events := events));
    }
  }

  function DeliveryCrediting(db: Db, d: Delivery): Option<Crediting>
    requires Linked(db)
  {
    if !Inquires(db, d) || d.client.None? then None
    else
      var p := d.payload.value;
      var a := Correlated(db, p).value;
      var middle := AttachedTo(db, d, p, a);
      var r := Checked(middle, a, d.client.value, p.payment);
      if Convincing(middle, a, r, p)
        && SuccessOutcome(middle, a, AppliedSuccess(r, p, d.recipient, d.clock).payment).Applied?
      then Some(Crediting(middle, a, AppliedSuccess(r, p, d.recipient, d.clock)))
      else None
  }

  ghost predicate Explains(db: Db, c: Option<Crediting>, db': Db) {
    if c.Some? then Through(db, c.value, db') else Quiet(db, db')
  }

  lemma QuietThen(db: Db, middle: Db, c: Option<Crediting>, db': Db)
    requires Quiet(db, middle) && Explains(middle, c, db')
    ensures Explains(db, c, db')
  {
    QuietTransitive(db, middle, if c.Some? then c.value.middle else db');
  }

  lemma RecordingKeeps(db: Db, d: Delivery)
    requires Inv(db)
    ensures Inv(AfterRecording(db, d)) && Quiet(db, AfterRecording(db, d))
  {
    UnchangedIsQuiet(db);
    EventsStep(db, AfterRecording(db, d).events);
  }

  lemma DeliveryKeeps(db: Db, d: Delivery)
    requires Inv(db)
    ensures Inv(AfterDelivery(db, d)) && Explains(db, DeliveryCrediting(db, d), AfterDelivery(db, d))
  {
    if Inquires(db, d) {
      var p := d.payload.value;
      var a := Correlated(db, p).value;
      var middle := AttachedTo(db, d, p, a);
      EventsStep(db, middle.events);
      var r := if d.client.None? then Result.Raised else Checked(middle, a, d.client.value, p.payment);
      VerdictKeeps(middle, |db.events|, a, d.client, r, p, d.recipient, d.clock);
      QuietThen(db, middle, DeliveryCrediting(db, d), AfterDelivery(db, d));
    } else {
      RecordingKeeps(db, d);
    }
  }

  // ----- checks -----

  function CheckCrediting(db: Db, a: AttemptId, q: Inquiry): Option<Crediting>
    requires Linked(db) && a < |db.attempts|
  {
    var r := ResultOf(db, a, q);
    if Checkable(db.attempts[a].status) && Accepts(r) && SuccessOutcome(db, a, r.payment).Applied?
    then Some(Crediting(db, a, ReceiptOf(r, q)))
    else None
  }

  lemma StaffCheckIs(db: Db, a: AttemptId, q: Inquiry)
    requires Linked(db) && a < |db.attempts|
    ensures var r := ResultOf(db, a, q);
      AfterStaffCheck(db, a, q) ==
        if !Checkable(db.attempts[a].status) then db
        else if Accepts(r) then AfterConfirmed(db, a, ReceiptOf(r, q), q.clock)
        else if r.Verified? && r.category.Clean? && r.status.Failure? then AfterFailure(db, a)
        else db
  {
  }

  lemma StaffCheckKeeps(db: Db, a: AttemptId, q: Inquiry)
    requires Inv(db) && a < |db.attempts|
    ensures Inv(AfterStaffCheck(db, a, q)) && Explains(db, CheckCrediting(db, a, q), AfterStaffCheck(db, a, q))
  {
    UnchangedIsQuiet(db);
    StaffCheckIs(db, a, q);
    var r := ResultOf(db, a, q);
    if Accepts(r) {
      ConfirmedKeeps(db, a, ReceiptOf(r, q), q.clock);
    } else if r.Verified? && r.status.Failure? {
      FailureKeeps(db, a);
    }
  }

  /** The hourly check applies what the staff check would apply, and otherwise only counts. */
  lemma StaleCheckIs(db: Db, a: AttemptId, q: Inquiry)
    requires Linked(db) && a < |db.attempts|
    ensures || AfterStaleCheck(db, a, q) == AfterStaffCheck(db, a, q)
            || (AfterStaleCheck(db, a, q) == AfterBump(db, a, q.clock.now) && CheckCrediting(db, a, q).None?)
  {
  }

  lemma StaleCheckKeeps(db: Db, a: AttemptId, q: Inquiry)
    requires Inv(db) && a < |db.attempts|
    ensures Inv(AfterStaleCheck(db, a, q)) && Explains(db, CheckCrediting(db, a, q), AfterStaleCheck(db, a, q))
  {
    StaleCheckIs(db, a, q);
    StaffCheckKeeps(db, a, q);
    BumpKeeps(db, a, q.clock.now);
  }

  // ----- attributions -----

  predicate FreshProduct(db: Db, product: string) {
    forall a | 0 <= a < |db.attempts| :: db.attempts[a].product != product
  }

  function AttributionCrediting(db: Db, d: Attribution): Option<Crediting>
    requires Linked(db) && d.event < |db.events| && d.key in db.installments
  {
    var (a, carried) := Carrier(db, d);
    if Carried(db, d) && SuccessOutcome(carried, a, AttributedReceipt(db, d).payment).Applied?
    then Some(Crediting(carried, a, AttributedReceipt(db, d)))
    else None
  }

  lemma CarrierKeeps(db: Db, d: Attribution)
    requires Inv(db) && d.event < |db.events| && d.key in db.installments && Carried(db, d)
    requires FreshProduct(db, d.product)
    ensures var (a, carried) := Carrier(db, d);
      Inv(carried) && Quiet(db, carried)
  {
    UnchangedIsQuiet(db);
    if LatestOpen(db.attempts, d.key, |db.attempts|).None? {
      NewAttemptKeeps(db, d.key, NewAttempt(d.key, db.installments[d.key].expected, d.product, AttemptStatus.Pending));
    }
  }

  lemma AttributionIs(db: Db, d: Attribution)
    requires Linked(db) && d.event < |db.events| && d.key in db.installments
    ensures var (a, carried) := Carrier(db, d);
      var db' := AfterAttribution(db, d);
      || (db' == db && AttributionCrediting(db, d).None?)
      || (db' == carried && Carried(db, d) && AttributionCrediting(db, d).None?)
      || (Carried(db, d) && !SuccessOutcome(carried, a, AttributedReceipt(db, d).payment).Raised?
          && db' == AfterSuccess(carried, a, AttributedReceipt(db, d)).(events := db'.events))
  {
  }

  lemma AttributedKeeps(carried: Db, a: AttemptId, s: Receipt, events: seq<Event>)
    requires Inv(carried) && a < |carried.attempts|
    ensures var db' := AfterSuccess(carried, a, s).(events := events);
      Inv(db') && Explains(carried,
        if SuccessOutcome(carried, a, s.payment).Applied? then Some(Crediting(carried, a, s)) else None, db')
  {
    CreditKeeps(carried, a, s);
    EventsStep(AfterSuccess(carried, a, s), events);
    UnchangedIsQuiet(carried);
  }

  lemma AttributionKeeps(db: Db, d: Attribution)
    requires Inv(db) && d.event < |db.events| && d.key in db.installments && FreshProduct(db, d.product)
    ensures Inv(AfterAttribution(db, d)) && Explains(db, AttributionCrediting(db, d), AfterAttribution(db, d))
  {
    UnchangedIsQuiet(db);
    AttributionIs(db, d);
    if Carried(db, d) {
      CarrierKeeps(db, d);
      var (a, carried) := Carrier(db, d);
      AttributedKeeps(carried, a, AttributedReceipt(db, d), AfterAttribution(db, d).events);
      if !SuccessOutcome(carried, a, AttributedReceipt(db, d).payment).Raised? && AfterAttribution(db, d) != carried {
        QuietThen(db, carried, AttributionCrediting(db, d), AfterAttribution(db, d));
      }
    }
  }

  // ----- new orders -----

  /** The new order's installments, and nobody else's. */
  lemma {:induction false} NewInstallments(
    installments: map<InstallmentKey, Installment>, o: OrderId, terms: Plan, start: int, n: nat)
    ensures var all := WithInstallments(installments, o, terms, start, n);
      && (forall k :: k in all <==> k in installments || (k.order == o && 1 <= k.sequence <= n))
      && (forall k | k in all :: all[k] ==
            if k.order == o && 1 <= k.sequence <= n then NewInstallment(terms, start, k.sequence) else installments[k])
  {
    if n == 0 {
    } else {
      NewInstallments(installments, o, terms, start, n - 1);
    }
  }

  ghost predicate SameFor(installments: map<InstallmentKey, Installment>, all: map<InstallmentKey, Installment>,
      o: OrderId)
  {
    forall s: nat :: (InstallmentKey(o, s) in all <==> InstallmentKey(o, s) in installments)
      && (InstallmentKey(o, s) in installments ==> all[InstallmentKey(o, s)] == installments[InstallmentKey(o, s)])
  }

  lemma SameVerdicts(installments: map<InstallmentKey, Installment>, all: map<InstallmentKey, Installment>,
      o: OrderId, count: nat)
    requires SameFor(installments, all, o)
    ensures AnyPaid(all, o, count) == AnyPaid(installments, o, count)
    ensures AllSettled(all, o, count) == AllSettled(installments, o, count)
    ensures NoneOpen(all, o, count) == NoneOpen(installments, o, count)
  {
  }

  /** The installments of one more order, all of them scheduled. */
  ghost predicate Places(db: Db, order: Order, all: map<InstallmentKey, Installment>) {
    && order.count >= 1 && order.amount > 0 && order.total == order.amount * order.count && order.status.Pending?
    && (forall k :: k in all <==> k in db.installments || (k.order == |db.orders| && 1 <= k.sequence <= order.count))
    && (forall k | k in db.installments :: all[k] == db.installments[k])
    && (forall k | k in all && k.order == |db.orders| ::
          all[k].status.Scheduled? && all[k].expected == order.amount && all[k].paid.None?)
  }

  lemma PlacedQuietly(db: Db, order: Order, all: map<InstallmentKey, Installment>)
    requires Linked(db) && Places(db, order, all)
    ensures Quiet(db, db.(orders := db.orders + [order], installments := all))
    ensures Linked(db.(orders := db.orders + [order], installments := all))
  {
  }

  lemma PlacedAmounts(db: Db, order: Order, all: map<InstallmentKey, Installment>)
    requires Linked(db) && Places(db, order, all)
    requires AmountsOk(db.orders, db.installments) && AttemptAmountsOk(db.attempts, db.installments)
    ensures AmountsOk(db.orders + [order], all) && AttemptAmountsOk(db.attempts, all)
  {
    var orders := db.orders + [order];
    forall k | k in all
      ensures k.order < |orders| && AmountOk(all[k], orders[k.order])
    {
      if k in db.installments {
        assert AmountOk(db.installments[k], db.orders[k.order]);
      }
    }
  }

  lemma PlacedOrders(db: Db, order: Order, all: map<InstallmentKey, Installment>)
    requires Linked(db) && Places(db, order, all)
    requires OrdersMatch(db.orders, db.installments) && RequestsOk(db.requests, db.orders, db.installments)
    ensures OrdersMatch(db.orders + [order], all) && RequestsOk(db.requests, db.orders + [order], all)
  {
    assert InstallmentKey(|db.orders|, 1) in all;
    forall x | 0 <= x < |db.orders|
      ensures Matches(db.orders[x].status, all, x, db.orders[x].count)
      ensures Grants(db.orders[x], all, x) == Grants(db.orders[x], db.installments, x)
    {
      SameVerdicts(db.installments, all, x, db.orders[x].count);
      assert Matches(db.orders[x].status, db.installments, x, db.orders[x].count);
    }
    PlacedRequests(db, order, all);
  }

  lemma PlacedKeeps(db: Db, order: Order, all: map<InstallmentKey, Installment>)
    requires Inv(db) && Places(db, order, all)
    ensures var db' := db.(orders := db.orders + [order], installments := all); Inv(db') && Quiet(db, db')
  {
    PlacedQuietly(db, order, all);
    QuietKeepsCredit(db, db.(orders := db.orders + [order], installments := all));
    PlacedAmounts(db, order, all);
    PlacedOrders(db, order, all);
  }

  lemma PlacedRequests(db: Db, order: Order, all: map<InstallmentKey, Installment>)
    requires RequestsOk(db.requests, db.orders, db.installments)
    requires forall x | 0 <= x < |db.orders| :: Grants(db.orders[x], all, x) == Grants(db.orders[x], db.installments, x)
    requires !AnyPaid(all, |db.orders|, order.count) && !AllSettled(all, |db.orders|, order.count)
    ensures RequestsOk(db.requests, db.orders + [order], all)
  {
    var orders := db.orders + [order];
    forall r | 0 <= r < |db.requests|
      ensures Justified(db.requests[r], orders, all)
    {
      assert Justified(db.requests[r], db.orders, db.installments);
    }
  }

  lemma PlacementKeeps(db: Db, key: string, customer: nat, plan: nat, terms: Option<Plan>, start: int)
    requires Inv(db)
    ensures var db' := AfterPlacement(db, key, customer, plan, terms, start); Inv(db') && Quiet(db, db')
  {
    UnchangedIsQuiet(db);
    var p := PlacementOf(db, key, customer, plan, terms);
    if p.Placed? && p.created {
      var t := terms.value;
      NewInstallments(db.installments, |db.orders|, t, start, t.count);
      PlacedKeeps(db, NewOrder(key, customer, plan, t),
        WithInstallments(db.installments, |db.orders|, t, start, t.count));
    }
  }
}
