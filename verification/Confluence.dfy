/** Verified verdicts on one installment, in any order and any number of times: the first
    success that can be applied decides everything. */
module Confluence {
  import opened Models
  import opened StateMachines
  import opened Credit
  import opened Administration
  import opened Invariants
  import opened Checks
  import opened Preservation
  import opened CreditProofs

  datatype Report = Success(a: AttemptId, receipt: Receipt) | Failure(a: AttemptId)

  ghost predicate Fits(db: Db, r: Report) {
    r.a < |db.attempts|
  }

  function AfterReport(db: Db, r: Report): Db
    requires Linked(db) && r.a < |db.attempts|
  {
    match r
    case Success(a, receipt) => AfterSuccess(db, a, receipt)
    case Failure(a) => AfterFailure(db, a)
  }

  lemma ReportKeeps(db: Db, r: Report)
    requires Inv(db) && Fits(db, r)
    ensures var db' := AfterReport(db, r); Inv(db') && Grows(db, db') && |db'.attempts| == |db.attempts|
  {
    if r.Success? {
      CreditKeeps(db, r.a, r.receipt);
    } else {
      FailureKeeps(db, r.a);
    }
  }

  ghost predicate Next(db: Db, r: Report, db': Db) {
    Inv(db) && Fits(db, r) && db' == AfterReport(db, r)
  }

  /** The databases between the reports. */
  ghost predicate Execution(states: seq<Db>, reports: seq<Report>) {
    |states| == |reports| + 1 && forall i | 0 <= i < |reports| :: Next(states[i], reports[i], states[i + 1])
  }

  lemma Prepended(db: Db, states: seq<Db>, reports: seq<Report>)
    requires reports != [] && Execution(states, reports[1..]) && Next(db, reports[0], states[0])
    ensures Execution([db] + states, reports) && ([db] + states)[0] == db
  {
    var all := [db] + states;
    forall i | 0 <= i < |reports|
      ensures Next(all[i], reports[i], all[i + 1])
    {
      if i > 0 {
        assert Next(states[i - 1], reports[1..][i - 1], states[i]);
      }
    }
  }

  lemma FirstReport(db: Db, reports: seq<Report>) returns (next: Db)
    requires reports != [] && Inv(db) && forall i | 0 <= i < |reports| :: Fits(db, reports[i])
    ensures Next(db, reports[0], next) && Inv(next)
    ensures forall i | 0 <= i < |reports[1..]| :: Fits(next, reports[1..][i])
  {
    next := AfterReport(db, reports[0]);
    ReportKeeps(db, reports[0]);
    forall i | 0 <= i < |reports[1..]|
      ensures Fits(next, reports[1..][i])
    {
      FitsLater(db, next, reports[i + 1]);
    }
  }

  /** Any reports have their execution: none of them is ever impossible. */
  lemma {:induction false} Executes(db: Db, reports: seq<Report>) returns (states: seq<Db>)
    requires Inv(db) && forall i | 0 <= i < |reports| :: Fits(db, reports[i])
    ensures Execution(states, reports) && states[0] == db
    decreases |reports|
  {
    if reports == [] {
      states := [db];
    } else {
      var next := FirstReport(db, reports);
      var rest := Executes(next, reports[1..]);
      Prepended(db, rest, reports);
      states := [db] + rest;
    }
  }

  lemma FitsLater(db: Db, now: Db, r: Report)
    requires Grows(db, now) && Fits(db, r)
    ensures Fits(now, r)
  {
    assert AttemptGrows(db.attempts[r.a], now.attempts[r.a]);
  }

  // ----- the setting -----

  /** Reports about one open installment none of whose attempts has succeeded, with paymentIds
      that are not in use. */
  ghost predicate About(db: Db, k: InstallmentKey, reports: seq<Report>) {
    && Inv(db) && k in db.installments && IsOpen(db.installments[k].status) && !HasSucceeded(db.attempts, k)
    && forall i | 0 <= i < |reports| ::
         && Fits(db, reports[i]) && db.attempts[reports[i].a].installment == k
         && (reports[i].Success? && Present(reports[i].receipt.payment) ==>
               !PaymentTaken(db.attempts, reports[i].a, reports[i].receipt.payment))
  }

  /** A failure of attempt a is among the first n reports. */
  predicate FailedBefore(reports: seq<Report>, n: nat, a: AttemptId)
    requires n <= |reports|
  {
    exists j | 0 <= j < n :: reports[j] == Failure(a)
  }

  /** A success that can be applied when its turn comes: Tara was given the attempt's link, or
      has reported it failed. */
  predicate Effective(db: Db, reports: seq<Report>, i: nat)
    requires i < |reports| && reports[i].a < |db.attempts|
  {
    reports[i].Success? && (!db.attempts[reports[i].a].status.Created? || FailedBefore(reports, i, reports[i].a))
  }

  /** The first effective success is at i. */
  ghost predicate Decisive(db: Db, k: InstallmentKey, reports: seq<Report>, i: nat)
    requires About(db, k, reports)
  {
    && i < |reports| && Effective(db, reports, i)
    && forall j | 0 <= j < i :: !Effective(db, reports, j)
  }

  // ----- until then -----

  function WaitingRow(db: Db, reports: seq<Report>, n: nat, x: AttemptId): Attempt
    requires n <= |reports| && x < |db.attempts|
  {
    var row := db.attempts[x];
    if FailedBefore(reports, n, x) && IsNonTerminal(row.status) then row.(status := AttemptStatus.Failed) else row
  }

  /** Before the first effective success only failures have left a trace. */
  ghost predicate Waiting(db: Db, k: InstallmentKey, reports: seq<Report>, n: nat, now: Db)
    requires n <= |reports| && k in db.installments
  {
    && now.orders == db.orders && now.confirmations == db.confirmations && now.requests == db.requests
    && now.events == db.events
    && |now.attempts| == |db.attempts|
    && (forall x | 0 <= x < |db.attempts| :: now.attempts[x] == WaitingRow(db, reports, n, x))
    && now.installments.Keys == db.installments.Keys
    && (forall j | j in db.installments && j != k :: now.installments[j] == db.installments[j])
    && IsOpen(now.installments[k].status)
    && now.installments[k] == db.installments[k].(status := now.installments[k].status)
  }

  lemma WaitingAfterFailure(db: Db, reports: seq<Report>, n: nat, now: seq<Attempt>, x: AttemptId)
    requires n < |reports| && reports[n].Failure? && reports[n].a < |db.attempts| == |now| && x < |now|
    requires now[x] == WaitingRow(db, reports, n, x)
    ensures WaitingRow(db, reports, n + 1, x) ==
      if x == reports[n].a && IsNonTerminal(now[x].status) then now[x].(status := AttemptStatus.Failed) else now[x]
  {
    assert FailedBefore(reports, n + 1, x) <==> FailedBefore(reports, n, x) || reports[n] == Failure(x);
  }

  lemma FailureRows(db: Db, k: InstallmentKey, reports: seq<Report>, n: nat, now: Db)
    requires About(db, k, reports) && n < |reports| && reports[n].Failure? && Waiting(db, k, reports, n, now)
    requires Linked(now)
    ensures var attempts := AfterFailure(now, reports[n].a).attempts;
      && |attempts| == |db.attempts|
      && forall x | 0 <= x < |db.attempts| :: attempts[x] == WaitingRow(db, reports, n + 1, x)
  {
    forall x | 0 <= x < |db.attempts|
      ensures AfterFailure(now, reports[n].a).attempts[x] == WaitingRow(db, reports, n + 1, x)
    {
      WaitingAfterFailure(db, reports, n, now.attempts, x);
    }
  }

  lemma FailureWaits(db: Db, k: InstallmentKey, reports: seq<Report>, n: nat, now: Db)
    requires About(db, k, reports) && n < |reports| && reports[n].Failure? && Waiting(db, k, reports, n, now)
    requires Linked(now)
    ensures Waiting(db, k, reports, n + 1, AfterFailure(now, reports[n].a))
  {
    FailureRows(db, k, reports, n, now);
    assert now.attempts[reports[n].a] == WaitingRow(db, reports, n, reports[n].a);
  }

  lemma WaitingRows(db: Db, k: InstallmentKey, reports: seq<Report>, n: nat, now: Db, x: AttemptId)
    requires n <= |reports| && k in db.installments && Waiting(db, k, reports, n, now) && x < |db.attempts|
    ensures var row := now.attempts[x];
      && row == db.attempts[x].(status := row.status)
      && (row.status.Succeeded? <==> db.attempts[x].status.Succeeded?)
      && (Checkable(row.status)
        <==> Checkable(db.attempts[x].status) || (db.attempts[x].status.Created? && FailedBefore(reports, n, x)))
  {
    assert now.attempts[x] == WaitingRow(db, reports, n, x);
  }

  lemma WaitingSiblings(db: Db, k: InstallmentKey, reports: seq<Report>, n: nat, now: Db, a: AttemptId,
      payment: Option<string>)
    requires n <= |reports| && k in db.installments && Waiting(db, k, reports, n, now)
    requires a < |db.attempts| && db.attempts[a].installment == k && !HasSucceeded(db.attempts, k)
    ensures !SucceededSibling(now.attempts, a)
    ensures PaymentTaken(now.attempts, a, payment) <==> PaymentTaken(db.attempts, a, payment)
  {
    forall x | 0 <= x < |db.attempts|
      ensures now.attempts[x].payment == db.attempts[x].payment
      ensures now.attempts[x].installment == db.attempts[x].installment
      ensures now.attempts[x].status.Succeeded? ==> db.attempts[x].status.Succeeded?
    {
      WaitingRows(db, k, reports, n, now, x);
    }
    if PaymentTaken(now.attempts, a, payment) {
      var x :| 0 <= x < |db.attempts| && x != a && now.attempts[x].payment == payment;
      assert db.attempts[x].payment == payment;
    }
    if PaymentTaken(db.attempts, a, payment) {
      var x :| 0 <= x < |db.attempts| && x != a && db.attempts[x].payment == payment;
      assert now.attempts[x].payment == payment;
    }
  }

  /** Whether the success at n is applied depends on the initial state and the earlier failures. */
  lemma AppliedWhenEffective(db: Db, k: InstallmentKey, reports: seq<Report>, n: nat, now: Db)
    requires About(db, k, reports) && n < |reports| && reports[n].Success? && Waiting(db, k, reports, n, now)
    requires Inv(now)
    ensures SuccessOutcome(now, reports[n].a, reports[n].receipt.payment).Applied? <==> Effective(db, reports, n)
  {
    var a := reports[n].a;
    WaitingRows(db, k, reports, n, now, a);
    WaitingSiblings(db, k, reports, n, now, a, reports[n].receipt.payment);
    assert !db.attempts[a].status.Succeeded?;
    AppliedIff(now, a, reports[n].receipt.payment);
  }

  lemma StillWaiting(db: Db, k: InstallmentKey, reports: seq<Report>, n: nat, now: Db, next: Db)
    requires About(db, k, reports) && n < |reports| && Waiting(db, k, reports, n, now) && Next(now, reports[n], next)
    requires !Effective(db, reports, n)
    ensures Waiting(db, k, reports, n + 1, next)
  {
    if reports[n].Failure? {
      FailureWaits(db, k, reports, n, now);
    } else {
      AppliedWhenEffective(db, k, reports, n, now);
      forall x | 0 <= x < |db.attempts|
        ensures now.attempts[x] == WaitingRow(db, reports, n + 1, x)
      {
        assert FailedBefore(reports, n + 1, x) <==> FailedBefore(reports, n, x);
      }
    }
  }

  lemma {:induction false} WaitsUntilEffective(k: InstallmentKey, reports: seq<Report>, states: seq<Db>, n: nat)
    requires Execution(states, reports) && n <= |reports| && About(states[0], k, reports)
    requires forall j | 0 <= j < n :: !Effective(states[0], reports, j)
    ensures Waiting(states[0], k, reports, n, states[n])
  {
    if n == 0 {
    } else {
      WaitsUntilEffective(k, reports, states, n - 1);
      StillWaiting(states[0], k, reports, n - 1, states[n - 1], states[n]);
    }
  }

  // ----- from then on -----

  /** k is PAID by attempt a, and its other attempts are closed. */
  ghost predicate Settled(db: Db, k: InstallmentKey, a: AttemptId) {
    && k in db.installments && db.installments[k].status.Paid?
    && a < |db.attempts| && db.attempts[a].installment == k && db.attempts[a].status.Succeeded?
    && forall x | 0 <= x < |db.attempts| && x != a && db.attempts[x].installment == k ::
      !IsActive(db.attempts[x].status)
  }

  /** Whatever is reported about a settled installment, nothing changes; a success of any
      other attempt is refused as a second payment. */
  lemma SettledIgnores(db: Db, k: InstallmentKey, a: AttemptId, r: Report)
    requires Linked(db) && Settled(db, k, a) && r.a < |db.attempts| && db.attempts[r.a].installment == k
    ensures AfterReport(db, r) == db
    ensures r.Success? && r.a != a ==> SuccessOutcome(db, r.a, r.receipt.payment) == Raised(DuplicatePayment)
    ensures r.Success? && r.a == a ==> SuccessOutcome(db, r.a, r.receipt.payment).AlreadyApplied?
  {
  }

  lemma CreditSettles(db: Db, a: AttemptId, s: Receipt)
    requires Inv(db) && a < |db.attempts| && SuccessOutcome(db, a, s.payment).Applied?
    ensures |Credited(db, a, s).attempts| == |db.attempts|
    ensures forall x | 0 <= x < |db.attempts| ::
      Credited(db, a, s).attempts[x].installment == db.attempts[x].installment
    ensures Settled(Credited(db, a, s), db.attempts[a].installment, a)
  {
    CreditTouchesOneInstallment(db, a, s);
  }

  ghost predicate Credits(db: Db, r: Report) {
    Inv(db) && Fits(db, r) && r.Success? && SuccessOutcome(db, r.a, r.receipt.payment).Applied?
  }

  lemma FrozenStep(k: InstallmentKey, a: AttemptId, now: Db, r: Report, next: Db)
    requires Next(now, r, next) && Settled(now, k, a) && r.a < |now.attempts| && now.attempts[r.a].installment == k
    ensures next == now
  {
    SettledIgnores(now, k, a, r);
  }

  lemma {:induction false} Frozen(k: InstallmentKey, a: AttemptId, reports: seq<Report>, states: seq<Db>, i: nat,
      n: nat)
    requires Execution(states, reports) && i <= n <= |reports| && Settled(states[i], k, a)
    requires forall j | 0 <= j < |reports| ::
      reports[j].a < |states[i].attempts| && states[i].attempts[reports[j].a].installment == k
    ensures states[n] == states[i]
    decreases n - i
  {
    if n == i {
    } else {
      Frozen(k, a, reports, states, i, n - 1);
      FrozenStep(k, a, states[n - 1], reports[n - 1], states[n]);
    }
  }

  // ----- the outcome -----

  lemma WaitingInstallments(db: Db, k: InstallmentKey, reports: seq<Report>, i: nat, now: Db)
    requires k in db.installments && i <= |reports| && Waiting(db, k, reports, i, now)
    ensures forall x | 0 <= x < |db.attempts| :: now.attempts[x].installment == db.attempts[x].installment
  {
    forall x | 0 <= x < |db.attempts|
      ensures now.attempts[x].installment == db.attempts[x].installment
    {
      assert now.attempts[x] == WaitingRow(db, reports, i, x);
    }
  }

  lemma Decided(db: Db, k: InstallmentKey, reports: seq<Report>, i: nat, now: Db, next: Db)
    requires About(db, k, reports) && i < |reports| && Effective(db, reports, i)
    requires Waiting(db, k, reports, i, now) && Next(now, reports[i], next)
    ensures Credits(now, reports[i]) && next == Credited(now, reports[i].a, reports[i].receipt)
    ensures Settled(next, k, reports[i].a)
    ensures forall j | 0 <= j < |reports| ::
      reports[j].a < |next.attempts| && next.attempts[reports[j].a].installment == k
  {
    var a := reports[i].a;
    AppliedWhenEffective(db, k, reports, i, now);
    CreditSettles(now, a, reports[i].receipt);
    WaitingInstallments(db, k, reports, i, now);
  }

  /** With an effective success among the reports, the final database is that of the first one,
      credited to its attempt; every report after it leaves the database unchanged. */
  lemma FirstSuccessDecides(k: InstallmentKey, reports: seq<Report>, states: seq<Db>, i: nat)
    requires Execution(states, reports) && About(states[0], k, reports) && Decisive(states[0], k, reports, i)
    ensures Waiting(states[0], k, reports, i, states[i]) && Credits(states[i], reports[i])
    ensures states[i + 1] == Credited(states[i], reports[i].a, reports[i].receipt)
    ensures Settled(states[i + 1], k, reports[i].a)
    ensures forall n | i < n <= |reports| :: states[n] == states[i + 1]
  {
    WaitsUntilEffective(k, reports, states, i);
    Decided(states[0], k, reports, i, states[i], states[i + 1]);
    forall n | i < n <= |reports|
      ensures states[n] == states[i + 1]
    {
      Frozen(k, reports[i].a, reports, states, i + 1, n);
    }
  }

  lemma {:induction false} FirstEffective(db: Db, k: InstallmentKey, reports: seq<Report>, i: nat) returns (first: nat)
    requires About(db, k, reports) && i < |reports| && Effective(db, reports, i)
    ensures Decisive(db, k, reports, first)
  {
    if j :| 0 <= j < i && Effective(db, reports, j) {
      first := FirstEffective(db, k, reports, j);
    } else {
      first := i;
    }
  }

  /** The installment ends PAID exactly when one of the reports is an effective success;
      otherwise it is still open. */
  lemma PaidIffEffective(k: InstallmentKey, reports: seq<Report>, states: seq<Db>)
    requires Execution(states, reports) && About(states[0], k, reports)
    ensures var last := states[|reports|];
      k in last.installments
      && (last.installments[k].status.Paid? <==> exists i | 0 <= i < |reports| :: Effective(states[0], reports, i))
      && (!last.installments[k].status.Paid? ==> IsOpen(last.installments[k].status))
  {
    if i :| 0 <= i < |reports| && Effective(states[0], reports, i) {
      var first := FirstEffective(states[0], k, reports, i);
      FirstSuccessDecides(k, reports, states, first);
    } else {
      WaitsUntilEffective(k, reports, states, |reports|);
    }
  }

  /** When every attempt had been sent to Tara, only the presence of a success matters, in
      whatever order the reports come. */
  lemma PaidIffSuccess(k: InstallmentKey, reports: seq<Report>, states: seq<Db>)
    requires Execution(states, reports) && About(states[0], k, reports)
    requires forall i | 0 <= i < |reports| :: !states[0].attempts[reports[i].a].status.Created?
    ensures var last := states[|reports|];
      k in last.installments
        && (last.installments[k].status.Paid? <==> exists i | 0 <= i < |reports| :: reports[i].Success?)
  {
    PaidIffEffective(k, reports, states);
    assert forall i | 0 <= i < |reports| :: Effective(states[0], reports, i) <==> reports[i].Success?;
  }

  /** What the first success fixes: the installment's row, the order's status, the one new
      confirmation and the follow-up work are those of crediting it to the initial database. */
  lemma DecidedRows(db: Db, k: InstallmentKey, reports: seq<Report>, i: nat, now: Db)
    requires About(db, k, reports) && i < |reports| && Waiting(db, k, reports, i, now) && Credits(now, reports[i])
    ensures var paid := Credited(now, reports[i].a, reports[i].receipt);
      var ideal := Credited(db, reports[i].a, reports[i].receipt);
      && paid.installments == ideal.installments && paid.orders == ideal.orders
      && paid.confirmations == ideal.confirmations && paid.requests == ideal.requests && paid.events == ideal.events
  {
    assert now.attempts[reports[i].a] == WaitingRow(db, reports, i, reports[i].a);
    SameCredit(db, now, reports[i].a, reports[i].receipt);
  }

  /** A credit sees the order, the installments and the follow-up work, and of the attempts only
      which installment it is for. */
  lemma SameCredit(db: Db, now: Db, a: AttemptId, s: Receipt)
    requires Linked(db) && Linked(now) && a < |db.attempts| && a < |now.attempts|
    requires now.orders == db.orders && now.confirmations == db.confirmations && now.requests == db.requests
    requires now.events == db.events
    requires now.attempts[a].installment == db.attempts[a].installment
    requires var k := db.attempts[a].installment;
      && IsOpen(db.installments[k].status) && IsOpen(now.installments[k].status)
      && now.installments.Keys == db.installments.Keys
      && (forall j | j in db.installments && j != k :: now.installments[j] == db.installments[j])
      && now.installments[k] == db.installments[k].(status := now.installments[k].status)
    ensures var paid := Credited(now, a, s); var ideal := Credited(db, a, s);
      && paid.installments == ideal.installments && paid.orders == ideal.orders
      && paid.confirmations == ideal.confirmations && paid.requests == ideal.requests && paid.events == ideal.events
  {
    var k := db.attempts[a].installment;
    var row := InstallmentAfter(db.installments[k], InstallmentStatus.Paid, s.amount);
    assert InstallmentAfter(now.installments[k], InstallmentStatus.Paid, s.amount) == row;
    assert now.installments[k := row] == db.installments[k := row];
    SameAfterPaying(db, now, a, s, row);
  }

  lemma SameAfterPaying(db: Db, now: Db, a: AttemptId, s: Receipt, row: Installment)
    requires Linked(db) && Linked(now) && a < |db.attempts| && a < |now.attempts|
    requires now.orders == db.orders && now.confirmations == db.confirmations && now.requests == db.requests
    requires now.events == db.events
    requires now.attempts[a].installment == db.attempts[a].installment
    requires var k := db.attempts[a].installment;
      && InstallmentAfter(db.installments[k], InstallmentStatus.Paid, s.amount) == row
      && InstallmentAfter(now.installments[k], InstallmentStatus.Paid, s.amount) == row
      && now.installments[k := row] == db.installments[k := row]
    ensures var paid := Credited(now, a, s); var ideal := Credited(db, a, s);
      && paid.installments == ideal.installments && paid.orders == ideal.orders
      && paid.confirmations == ideal.confirmations && paid.requests == ideal.requests && paid.events == ideal.events
  {
  }

  /** Confluence: two executions from one database whose first effective successes are the same
      report agree in the end on all but how the unsuccessful attempts were closed. */
  lemma OrderDoesNotMatter(
    k: InstallmentKey, some: seq<Report>, states: seq<Db>, i: nat, other: seq<Report>, others: seq<Db>, j: nat)
    requires Execution(states, some) && Execution(others, other) && others[0] == states[0]
    requires About(states[0], k, some) && About(states[0], k, other)
    requires Decisive(states[0], k, some, i) && Decisive(states[0], k, other, j) && some[i] == other[j]
    ensures var db1 := states[|some|]; var db2 := others[|other|];
      && db1.installments == db2.installments && db1.orders == db2.orders && db1.confirmations == db2.confirmations
      && db1.requests == db2.requests && db1.events == db2.events && Settled(db1, k, some[i].a)
      && Settled(db2, k, some[i].a)
  {
    FirstSuccessDecides(k, some, states, i);
    FirstSuccessDecides(k, other, others, j);
    DecidedRows(states[0], k, some, i, states[i]);
    DecidedRows(others[0], k, other, j, others[j]);
  }

  // ----- a CREATED attempt -----

  /** A sale just placed, whose only attempt has no link yet. */
  function JustPlaced(): Db {
    var k := InstallmentKey(0, 1);
    Db([Order("key", 0, 0, 0, FirstInstallment, 1, 5000, 5000, OrderStatus.Pending, None)],
       map[k := Installment(5000, 0, InstallmentStatus.Scheduled, None)],
       [Attempt(k, "product", None, 5000, AttemptStatus.Created, None, 0, None)],
       map[], [], [])
  }

  /** Order does matter for a CREATED attempt: its success alone is refused, and credited when
      its failure comes first. */
  lemma JustPlacedIsLinked()
    ensures Linked(JustPlaced()) && JustPlaced().installments.Keys == {InstallmentKey(0, 1)}
  {
  }

  lemma JustFailedIs()
    ensures var failed := AfterFailure(JustPlaced(), 0);
      && Linked(failed) && |failed.attempts| == 1 && failed.installments.Keys == {InstallmentKey(0, 1)}
      && failed.attempts[0].status.Failed? && failed.installments[InstallmentKey(0, 1)].status.Failed?
  {
    JustPlacedIsLinked();
  }

  lemma CreatedIsRefused(s: Receipt)
    requires s.payment.None? && Linked(JustPlaced())
    ensures AfterSuccess(JustPlaced(), 0, s) == JustPlaced()
  {
  }

  lemma FailedIsCredited(db: Db, s: Receipt)
    requires s.payment.None? && Linked(db) && db == AfterFailure(JustPlaced(), 0)
    requires |db.attempts| == 1 && db.attempts[0].status.Failed? && db.installments.Keys == {InstallmentKey(0, 1)}
    requires db.installments[InstallmentKey(0, 1)].status.Failed?
    ensures AfterSuccess(db, 0, s).installments.Keys == {InstallmentKey(0, 1)}
    ensures AfterSuccess(db, 0, s).installments[InstallmentKey(0, 1)].status.Paid?
  {
    assert SuccessOutcome(db, 0, s.payment).Applied?;
  }

  lemma CreatedNeedsAFailure(s: Receipt)
    requires s.payment.None?
    ensures Linked(JustPlaced()) && AfterSuccess(JustPlaced(), 0, s) == JustPlaced()
    ensures var failed := AfterFailure(JustPlaced(), 0);
      && Linked(failed) && |failed.attempts| == 1
      && AfterSuccess(failed, 0, s).installments.Keys == {InstallmentKey(0, 1)}
      && AfterSuccess(failed, 0, s).installments[InstallmentKey(0, 1)].status.Paid?
  {
    JustPlacedIsLinked();
    CreatedIsRefused(s);
    JustFailedIs();
    FailedIsCredited(AfterFailure(JustPlaced(), 0), s);
  }

  lemma JustPlacedOrdersOk()
    ensures var db := JustPlaced(); AmountsOk(db.orders, db.installments) && OrdersMatch(db.orders, db.installments)
  {
    var db := JustPlaced();
    assert db.installments.Keys == {InstallmentKey(0, 1)};
    assert !AllSettled(db.installments, 0, 1) && !AnyPaid(db.installments, 0, 1) by {
      assert InstallmentKey(0, 1) in db.installments;
    }
  }

  lemma JustPlacedRequestsOk()
    ensures var db := JustPlaced(); RequestsOk(db.requests, db.orders, db.installments)
  {
    assert !AnyPaid(JustPlaced().installments, 0, 1);
  }

  lemma JustPlacedAttemptsOk()
    ensures var db := JustPlaced();
      && AttemptsOk(db.attempts) && AttemptAmountsOk(db.attempts, db.installments)
      && PaidBacked(db.installments, db.attempts) && ConfirmationsOk(db.confirmations, db.attempts)
  {
  }

  lemma JustPlacedIsGood()
    ensures Inv(JustPlaced())
  {
    JustPlacedIsLinked();
    JustPlacedOrdersOk();
    JustPlacedRequestsOk();
    JustPlacedAttemptsOk();
  }

  /** The setting is met: after the failure the success is the decisive report. */
  lemma FailureThenSuccess(s: Receipt)
    requires s.payment.None?
    ensures var reports := [Failure(0), Success(0, s)];
      About(JustPlaced(), InstallmentKey(0, 1), reports) && Decisive(JustPlaced(), InstallmentKey(0, 1), reports, 1)
  {
    JustPlacedIsGood();
    var reports := [Failure(0), Success(0, s)];
    assert reports[0] == Failure(0) && FailedBefore(reports, 1, 0);
    assert forall j | 0 <= j < 1 :: !Effective(JustPlaced(), reports, j);
  }
}
