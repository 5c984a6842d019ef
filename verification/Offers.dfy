/** What a checkout does and shows, told from the rows: which installment is paid next, which
    attempt is used for it, and what each answer of Tara leads to. */
module Offers {
  import opened Models
  import opened Checkout
  import opened Verification
  import opened Paying
  import opened Invariants

  /** Neither paid nor waived nor cancelled. */
  predicate Payable(row: Installment) {
    row.status !in {InstallmentStatus.Paid, InstallmentStatus.Waived, InstallmentStatus.Cancelled}
  }

  /** k is the first installment of the order still to be paid. */
  predicate PaidNext(db: Db, o: OrderId, k: InstallmentKey)
    requires Linked(db) && o < |db.orders|
  {
    && k.order == o && 1 <= k.sequence <= db.orders[o].count && Payable(db.installments[InstallmentKey(o, k.sequence)])
    && forall n: nat | 1 <= n < k.sequence :: !Payable(db.installments[InstallmentKey(o, n)])
  }

  lemma {:induction false} NextFrom(db: Db, o: OrderId, s: nat, k: InstallmentKey)
    requires Linked(db) && o < |db.orders| && PaidNext(db, o, k) && 1 <= s <= k.sequence
    ensures NextOutstanding(db.installments, o, s, db.orders[o].count) == Some(k)
    decreases k.sequence - s
  {
    assert InstallmentKey(o, s) in db.installments && k == InstallmentKey(o, k.sequence);
    if s == k.sequence {
    } else {
      assert !Payable(db.installments[InstallmentKey(o, s)]);
      NextFrom(db, o, s + 1, k);
    }
  }

  /** Attempt a is the newest of installment k. */
  predicate NewestOf(attempts: seq<Attempt>, k: InstallmentKey, a: AttemptId) {
    && a < |attempts| && attempts[a].installment == k
    && forall x | a < x < |attempts| :: attempts[x].installment != k
  }

  /** Neither FAILED nor EXPIRED. */
  predicate Unfinished(row: Attempt) {
    row.status !in {AttemptStatus.Failed, AttemptStatus.Expired}
  }

  lemma CurrentIs(db: Db, o: OrderId, k: InstallmentKey, a: AttemptId)
    requires Linked(db) && o < |db.orders| && PaidNext(db, o, k)
    requires NewestOf(db.attempts, k, a) && Unfinished(db.attempts[a])
    ensures NextOutstanding(db.installments, o, 1, db.orders[o].count) == Some(k) && k in db.installments
    ensures CurrentAttempt(db.attempts, k) == Existing(a)
    ensures forall answers :: Pay(db, o, answers) == OfferedOrReplaced(db, k, a, answers)
  {
    NextFrom(db, o, 1, k);
    var last := Latest(db.attempts, k, |db.attempts|);
    assert last.Some? && last.value == a;
  }

  // ----- nothing to pay -----

  lemma NoneDueIff(db: Db, o: OrderId)
    requires Linked(db) && o < |db.orders|
    ensures NextOutstanding(db.installments, o, 1, db.orders[o].count).None? <==>
      forall n: nat | 1 <= n <= db.orders[o].count :: !Payable(db.installments[InstallmentKey(o, n)])
  {
    var k := NextOutstanding(db.installments, o, 1, db.orders[o].count);
    if k.Some? {
      assert k.value == InstallmentKey(o, k.value.sequence);
      assert Payable(db.installments[InstallmentKey(o, k.value.sequence)]);
    } else {
      forall n: nat | 1 <= n <= db.orders[o].count
        ensures !Payable(db.installments[InstallmentKey(o, n)])
      {
        assert InstallmentKey(o, n) in db.installments;
      }
    }
  }

  /** The customer is told that nothing is due exactly when nothing is. */
  lemma NothingDueIff(db: Db, o: OrderId, answers: Answers)
    requires Linked(db) && o < |db.orders|
    ensures Pay(db, o, answers).1.NoPaymentDue? <==>
      forall n: nat | 1 <= n <= db.orders[o].count :: !Payable(db.installments[InstallmentKey(o, n)])
    ensures Pay(db, o, answers).1.NoPaymentDue? ==> Pay(db, o, answers).0 == db
  {
    NoneDueIff(db, o);
    var k := NextOutstanding(db.installments, o, 1, db.orders[o].count);
    if k.Some? && !CurrentAttempt(db.attempts, k.value).Integrity? {
      PayBegins(db, o, answers);
      var begun := AfterCurrentAttempt(db, k.value, answers.product);
      SomethingIsOffered(begun, k.value, CurrentAttempt(db.attempts, k.value).a, answers);
    }
  }

  lemma SomethingIsOffered(db: Db, k: InstallmentKey, a: AttemptId, answers: Answers)
    requires k in db.installments && a < |db.attempts|
    ensures !OfferedOrReplaced(db, k, a, answers).1.NoPaymentDue?
  {
  }

  // ----- an attempt that is used as it is -----

  predicate Shows(row: Attempt) {
    row.link !in {None, Some("")}
  }

  lemma ShowsIff(row: Attempt)
    ensures Shows(row) <==> Present(row.link)
  {
  }

  /** The attempt at hand is kept: unless Tara timed out on its link, or the link is too old. */
  predicate Kept(row: Attempt, answers: Answers) {
    && !(row.status.Unknown? && !Shows(row) && answers.first !in {Some(Verdict.Success), Some(Verdict.Pending)})
    && !(row.status.LinkCreated? && answers.tooOld)
  }

  /** Only the status of attempt a has changed, to this one. */
  predicate Moves(db: Db, db': Db, a: AttemptId, status: AttemptStatus)
    requires a < |db.attempts|
  {
    db' == db.(attempts := db.attempts[a := db.attempts[a].(status := status)])
  }

  /** What Tara says of an UNKNOWN attempt, and what the customer is told. */
  predicate Learns(db: Db, db': Db, a: AttemptId, reply: Option<Verdict>, shown: Shown)
    requires a < |db.attempts|
  {
    && (reply == Some(Verdict.Success) <==> shown.AlreadyPaid?)
    && (reply == Some(Verdict.Failure) <==> shown.PaymentFailed?)
    && (shown.AlreadyPaid? ==> Moves(db, db', a, AttemptStatus.Succeeded))
    && (shown.PaymentFailed? ==> Moves(db, db', a, AttemptStatus.Failed))
    && (shown.AlreadyPaid? || shown.PaymentFailed? || (shown.VerificationPending? && db' == db))
  }

  /** What becomes of an attempt for which a link is asked.  The link is recorded on a CREATED
      attempt only. */
  predicate Begins(db: Db, db': Db, a: AttemptId, reply: LinkReply, shown: Shown)
    requires a < |db.attempts|
  {
    && (shown.LinkReady? <==> reply.Issued? && reply.safe) && (shown.LinkReady? || shown.NotStarted?)
    && match reply
       case Issued(link, _) =>
         if db.attempts[a].status.Created?
         then db' == db.(attempts :=
           db.attempts[a := db.attempts[a].(status := AttemptStatus.LinkCreated, link := link)])
         else db' == db
       case Indeterminate => Moves(db, db', a, AttemptStatus.Unknown)
       case Rejected => Moves(db, db', a, AttemptStatus.Failed)
       case NotSent => db' == db
  }

  lemma LearnsFrom(db: Db, a: AttemptId, reply: Option<Verdict>)
    requires a < |db.attempts| && db.attempts[a].status.Unknown?
    ensures Learns(db, AfterAsking(db, a, reply), a, reply, ShownAfterAsking(reply))
  {
  }

  lemma BeginsWith(db: Db, a: AttemptId, reply: LinkReply)
    requires a < |db.attempts|
    requires db.attempts[a].status in {AttemptStatus.Created, AttemptStatus.LinkCreated, AttemptStatus.Pending}
    ensures Begins(db, AfterLinkReply(db, a, reply), a, reply, ShownAfterLinkReply(db.attempts, a, reply))
  {
  }

  /** Every unfinished attempt that is kept: a SUCCEEDED one is paid already, a link that was shown
      is shown again, Tara is asked about an UNKNOWN one, and a link is asked for any other. */
  lemma KeptIsOffered(db: Db, o: OrderId, answers: Answers, k: InstallmentKey, a: AttemptId)
    requires Linked(db) && o < |db.orders| && PaidNext(db, o, k)
    requires NewestOf(db.attempts, k, a) && Unfinished(db.attempts[a]) && Kept(db.attempts[a], answers)
    ensures var row := db.attempts[a]; var (db', shown) := Pay(db, o, answers);
      && (row.status.Succeeded? ==> db' == db && shown.AlreadyPaid?)
      && (row.status in {AttemptStatus.LinkCreated, AttemptStatus.Pending} && Shows(row) ==>
            db' == db && shown.LinkReady?)
      && (row.status.Unknown? ==> Learns(db, db', a, if Shows(row) then answers.second else answers.first, shown))
      && (row.status.Created?
          || (row.status in {AttemptStatus.LinkCreated, AttemptStatus.Pending} && !Shows(row)) ==>
            Begins(db, db', a, answers.link, shown))
  {
    CurrentIs(db, o, k, a);
    var row := db.attempts[a];
    ShowsIff(row);
    if row.status.Unknown? {
      LearnsFrom(db, a, answers.first);
      LearnsFrom(db, a, answers.second);
    } else if !row.status.Succeeded? {
      BeginsWith(db, a, answers.link);
    }
  }

  // ----- a new attempt -----

  function Fresh(db: Db, k: InstallmentKey, product: string): Attempt
    requires k in db.installments
  {
    Attempt(k, product, None, db.installments[k].expected, AttemptStatus.Created, None, 0, None)
  }

  predicate NoneActive(attempts: seq<Attempt>, k: InstallmentKey) {
    forall x | 0 <= x < |attempts| :: attempts[x].installment == k ==> !Unfinished(attempts[x])
  }

  lemma NewIs(attempts: seq<Attempt>, k: InstallmentKey)
    requires NoneActive(attempts, k)
    ensures CurrentAttempt(attempts, k) == New(|attempts|)
  {
  }

  /** An installment whose attempts have all failed or expired gets a new one, with its own product
      and the installment's amount, and a link is asked for it. */
  lemma NewIsBegun(db: Db, o: OrderId, answers: Answers, k: InstallmentKey)
    requires Linked(db) && o < |db.orders| && PaidNext(db, o, k) && NoneActive(db.attempts, k)
    ensures k in db.installments
    ensures var begun := db.(attempts := db.attempts + [Fresh(db, k, answers.product)]);
      Begins(begun, Pay(db, o, answers).0, |db.attempts|, answers.link, Pay(db, o, answers).1)
  {
    NextFrom(db, o, 1, k);
    NewIs(db.attempts, k);
    var begun := AfterCurrentAttempt(db, k, answers.product);
    assert begun == db.(attempts := db.attempts + [Fresh(db, k, answers.product)]);
    BeginsWith(begun, |db.attempts|, answers.link);
  }

  /** An attempt that is not kept is closed, as FAILED when Tara said so and else as EXPIRED, and a
      new one is begun in its place, with the other new product. */
  lemma OtherIsReplaced(db: Db, o: OrderId, answers: Answers, k: InstallmentKey, a: AttemptId)
    requires Inv(db) && o < |db.orders| && PaidNext(db, o, k)
    requires NewestOf(db.attempts, k, a) && Unfinished(db.attempts[a]) && !Kept(db.attempts[a], answers)
    ensures k in db.installments
    ensures var row := db.attempts[a];
      var status := if row.status.Unknown? && answers.first == Some(Verdict.Failure) then AttemptStatus.Failed
        else AttemptStatus.Expired;
      var begun := db.(attempts := db.attempts[a := row.(status := status)] + [Fresh(db, k, answers.spare)]);
      Begins(begun, Pay(db, o, answers).0, |db.attempts|, answers.link, Pay(db, o, answers).1)
  {
    CurrentIs(db, o, k, a);
    var vacated := Vacated(db, a, answers);
    OnlyOneUnfinished(db, k, a);
    ReplacedRow(db, a, answers);
    assert NoneActive(vacated.attempts, k);
    NewIs(vacated.attempts, k);
    BeginsWith(AfterCurrentAttempt(vacated, k, answers.spare), |db.attempts|, answers.link);
  }

  lemma OnlyOneUnfinished(db: Db, k: InstallmentKey, a: AttemptId)
    requires Inv(db) && NewestOf(db.attempts, k, a) && Unfinished(db.attempts[a])
    ensures forall x | 0 <= x < |db.attempts| && x != a && db.attempts[x].installment == k ::
      !Unfinished(db.attempts[x])
  {
    forall x | 0 <= x < |db.attempts| && x != a && db.attempts[x].installment == k
      ensures !Unfinished(db.attempts[x])
    {
      assert x < a;
    }
  }

  lemma ReplacedRow(db: Db, a: AttemptId, answers: Answers)
    requires a < |db.attempts| && Unfinished(db.attempts[a]) && !Kept(db.attempts[a], answers)
    ensures var row := db.attempts[a];
      var status := if row.status.Unknown? && answers.first == Some(Verdict.Failure) then AttemptStatus.Failed
        else AttemptStatus.Expired;
      && Replaces(row, answers)
      && Vacated(db, a, answers) == db.(attempts := db.attempts[a := row.(status := status)])
  {
    ShowsIff(db.attempts[a]);
  }

  /** With the newest attempt closed and an older one in the way, the database refuses a new one and
      the customer is turned away; nothing changes. */
  lemma OlderIsInTheWay(db: Db, o: OrderId, answers: Answers, k: InstallmentKey, a: AttemptId, x: AttemptId)
    requires Linked(db) && o < |db.orders| && PaidNext(db, o, k) && NewestOf(db.attempts, k, a)
    requires !Unfinished(db.attempts[a])
    requires x < a && db.attempts[x].installment == k && Unfinished(db.attempts[x])
    ensures Pay(db, o, answers) == (db, Refused)
  {
    NextFrom(db, o, 1, k);
    assert Latest(db.attempts, k, |db.attempts|) == Some(a);
    assert HasActive(db.attempts, k);
  }

  /** Tara's reply finds the attempt closed meanwhile: its link is shown but not recorded, a timeout
      reopens it unless another attempt is in the way, a rejection changes nothing. */
  lemma LateReply(db: Db, a: AttemptId, reply: LinkReply)
    requires a < |db.attempts| && !Unfinished(db.attempts[a])
    ensures var db' := AfterLinkReply(db, a, reply); var shown := ShownAfterLinkReply(db.attempts, a, reply);
      var other := exists x | 0 <= x < |db.attempts| && x != a ::
        db.attempts[x].installment == db.attempts[a].installment && Unfinished(db.attempts[x]);
      && (reply.Indeterminate? && !other ==> Moves(db, db', a, AttemptStatus.Unknown))
      && (!reply.Indeterminate? || other ==> db' == db)
      && (shown.Refused? <==> reply.Indeterminate? && other)
      && (shown.LinkReady? <==> reply.Issued? && reply.safe)
      && (shown.NotStarted? <==> !shown.Refused? && !shown.LinkReady?)
  {
  }

  /** A customer who comes back makes an EXPIRED order PENDING again, and no other. */
  lemma ReopenedIff(db: Db, o: OrderId)
    requires o < |db.orders|
    ensures var db' := AfterReopening(db, o);
      && (db.orders[o].status.Expired? ==>
            db' == db.(orders := db.orders[o := db.orders[o].(status := OrderStatus.Pending)]))
      && (!db.orders[o].status.Expired? ==> db' == db)
  {
  }
}
