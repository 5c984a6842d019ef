/** Money is conserved over every run: what an order has received is what the ledger of its
    first-time credits adds up to. */
module Money {
  import opened Models
  import opened Credit
  import opened Verification
  import opened Checks
  import opened Invariants
  import opened CreditProofs
  import opened Composites
  import opened Steps
  import opened Runs
  import opened SingleCredit

  /** One first-time credit; `manual` when staff attributed the payment. */
  datatype Entry = Entry(key: InstallmentKey, amount: int, manual: bool)

  function EntryOf(c: Crediting, manual: bool): Entry
    requires Linked(c.middle) && c.a < |c.middle.attempts|
  {
    var k := c.middle.attempts[c.a].installment;
    Entry(k, if c.receipt.amount.Some? then c.receipt.amount.value else c.middle.installments[k].expected, manual)
  }

  ghost function StepLedger(db: Db, step: Step): seq<Entry>
    requires Inv(db)
  {
    var c := CreditedBy(db, step);
    if c.None? then []
    else
      StepKeeps(db, step);
      [EntryOf(c.value, step.Attribute?)]
  }

  ghost function Ledger(db: Db, steps: seq<Step>): seq<Entry>
    requires Inv(db)
    decreases |steps|
  {
    if steps == [] then []
    else
      StepIsGood(db, steps[0]);
      StepLedger(db, steps[0]) + Ledger(Apply(db, steps[0]), steps[1..])
  }

  ghost function Received(ledger: seq<Entry>, o: OrderId): int {
    if ledger == [] then 0
    else (if ledger[0].key.order == o then ledger[0].amount else 0) + Received(ledger[1..], o)
  }

  lemma {:induction false} ReceivedConcat(some: seq<Entry>, more: seq<Entry>, o: OrderId)
    ensures Received(some + more, o) == Received(some, o) + Received(more, o)
  {
    if some == [] {
      assert some + more == more;
    } else {
      assert (some + more)[1..] == some[1..] + more;
      ReceivedConcat(some[1..], more, o);
    }
  }

  /** total_paid_amount of an order; nothing before the order exists. */
  function Total(db: Db, o: OrderId): int {
    if o < |db.orders| then TotalPaid(db.installments, o, db.orders[o].count) else 0
  }

  // ----- the total is the ledger -----

  lemma {:induction false} QuietKeepsSum(db: Db, db': Db, o: OrderId, n: nat)
    requires Quiet(db, db')
    ensures TotalPaid(db'.installments, o, n) == TotalPaid(db.installments, o, n)
  {
    if n == 0 {
    } else {
      QuietKeepsSum(db, db', o, n - 1);
      var k := InstallmentKey(o, n);
      if k in db.installments {
        assert InstallmentGrows(db.installments[k], db'.installments[k]);
      }
    }
  }

  lemma {:induction false} NothingWithoutRows(installments: map<InstallmentKey, Installment>, o: OrderId, n: nat)
    requires forall k | k in installments :: k.order != o
    ensures TotalPaid(installments, o, n) == 0
  {
    if n == 0 {
    } else {
      NothingWithoutRows(installments, o, n - 1);
    }
  }

  lemma QuietKeepsTotal(db: Db, db': Db, o: OrderId)
    requires Linked(db) && Quiet(db, db')
    ensures Total(db', o) == Total(db, o)
  {
    if o < |db.orders| {
      assert SameTerms(db.orders[o], db'.orders[o]);
      QuietKeepsSum(db, db', o, db.orders[o].count);
    } else if o < |db'.orders| {
      QuietKeepsSum(db, db', o, db'.orders[o].count);
      NothingWithoutRows(db.installments, o, db'.orders[o].count);
    }
  }

  lemma {:induction false} CreditAddsOnce(
    installments: map<InstallmentKey, Installment>, k: InstallmentKey, row: Installment, o: OrderId, n: nat)
    requires k in installments && !installments[k].status.Paid? && row.status.Paid? && row.paid.Some?
    ensures TotalPaid(installments[k := row], o, n) ==
      TotalPaid(installments, o, n) + (if k.order == o && 1 <= k.sequence <= n then row.paid.value else 0)
  {
    if n == 0 {
    } else {
      CreditAddsOnce(installments, k, row, o, n - 1);
      assert InstallmentKey(o, n) == k <==> o == k.order && n == k.sequence;
    }
  }

  lemma CreditAddsToTotal(c: Crediting, o: OrderId)
    requires Applicable(c)
    ensures Total(Credited(c.middle, c.a, c.receipt), o) == Total(c.middle, o) + Received([EntryOf(c, false)], o)
  {
    var k := c.middle.attempts[c.a].installment;
    AppliedIff(c.middle, c.a, c.receipt.payment);
    if o < |c.middle.orders| {
      CreditAddsOnce(c.middle.installments, k, PaidRow(c.middle, c.a, c.receipt), o, c.middle.orders[o].count);
    }
  }

  lemma ThroughAddsToTotal(db: Db, c: Crediting, db': Db, o: OrderId)
    requires Inv(db) && Through(db, c, db')
    ensures Total(db', o) == Total(db, o) + Received([EntryOf(c, false)], o)
  {
    QuietKeepsTotal(db, c.middle, o);
    CreditAddsToTotal(c, o);
    AppliedKeeps(c.middle, c.a, c.receipt);
    QuietKeepsTotal(Credited(c.middle, c.a, c.receipt), db', o);
  }

  /** A step that credits enters that credit; any other enters nothing and pays nothing. */
  lemma RecheckCases(db: Db, step: Step)
    requires Inv(db) && step.Recheck?
    ensures CreditedBy(db, step).None? && StepLedger(db, step) == []
    ensures Apply(db, step).installments == db.installments && Apply(db, step).orders == db.orders
  {
    StepKeeps(db, step);
  }

  lemma CreditCases(db: Db, step: Step)
    requires Inv(db) && CreditedBy(db, step).Some?
    ensures var c := CreditedBy(db, step).value;
      Through(db, c, Apply(db, step)) && StepLedger(db, step) == [EntryOf(c, step.Attribute?)]
  {
    StepKeeps(db, step);
  }

  lemma QuietCases(db: Db, step: Step)
    requires Inv(db) && CreditedBy(db, step).None? && !step.Recheck?
    ensures Quiet(db, Apply(db, step)) && StepLedger(db, step) == []
  {
    StepKeeps(db, step);
  }

  lemma StepCases(db: Db, step: Step)
    requires Inv(db)
    ensures var c := CreditedBy(db, step); var db' := Apply(db, step);
      if c.Some? then Through(db, c.value, db') && StepLedger(db, step) == [EntryOf(c.value, step.Attribute?)]
      else (
        && (Quiet(db, db') || (db'.installments == db.installments && db'.orders == db.orders))
        && StepLedger(db, step) == [])
  {
    if CreditedBy(db, step).Some? {
      CreditCases(db, step);
    } else if step.Recheck? {
      RecheckCases(db, step);
    } else {
      QuietCases(db, step);
    }
  }

  lemma EnteredAmount(c: Crediting, manual: bool, o: OrderId)
    requires Applicable(c)
    ensures Received([EntryOf(c, manual)], o) == Received([EntryOf(c, false)], o)
  {
  }

  lemma StepIsEntered(db: Db, step: Step, o: OrderId)
    requires Inv(db)
    ensures Total(Apply(db, step), o) == Total(db, o) + Received(StepLedger(db, step), o)
  {
    StepCases(db, step);
    var c := CreditedBy(db, step);
    var db' := Apply(db, step);
    if c.Some? {
      ThroughAddsToTotal(db, c.value, db', o);
      EnteredAmount(c.value, step.Attribute?, o);
    } else if Quiet(db, db') {
      QuietKeepsTotal(db, db', o);
    }
  }

  /** The total of every order is what it was, plus the credits the run entered for it. */
  lemma {:induction false} TotalIsTheLedger(db: Db, steps: seq<Step>, o: OrderId)
    requires Inv(db)
    ensures Total(Run(db, steps), o) == Total(db, o) + Received(Ledger(db, steps), o)
    decreases |steps|
  {
    if steps == [] {
    } else {
      StepIsEntered(db, steps[0], o);
      StepIsGood(db, steps[0]);
      TotalIsTheLedger(Apply(db, steps[0]), steps[1..], o);
      ReceivedConcat(StepLedger(db, steps[0]), Ledger(Apply(db, steps[0]), steps[1..]), o);
    }
  }

  // ----- each credit is entered once -----

  predicate Entered(ledger: seq<Entry>, k: InstallmentKey) {
    exists i | 0 <= i < |ledger| :: ledger[i].key == k
  }

  ghost predicate EnteredOnce(ledger: seq<Entry>) {
    forall i, j | 0 <= i < j < |ledger| :: ledger[i].key != ledger[j].key
  }

  lemma ThroughPaysAnew(db: Db, c: Crediting, db': Db, k: InstallmentKey)
    requires Through(db, c, db')
    ensures IsPaid(db', k) <==> IsPaid(db, k) || k == EntryOf(c, false).key
    ensures !IsPaid(db, EntryOf(c, false).key)
  {
    ThroughPaysOne(db, c, db', k);
    QuietPaysNone(db, c.middle, EntryOf(c, false).key);
    AppliedIff(c.middle, c.a, c.receipt.payment);
  }

  lemma StepEntersThePaid(db: Db, step: Step, k: InstallmentKey)
    requires Inv(db)
    ensures IsPaid(Apply(db, step), k) <==> IsPaid(db, k) || Entered(StepLedger(db, step), k)
    ensures !(IsPaid(db, k) && Entered(StepLedger(db, step), k))
  {
    StepCases(db, step);
    var c := CreditedBy(db, step);
    var db' := Apply(db, step);
    if c.Some? {
      ThroughPaysAnew(db, c.value, db', k);
      OnlyEntry(EntryOf(c.value, step.Attribute?), k);
    } else if Quiet(db, db') {
      QuietPaysNone(db, db', k);
    }
  }

  lemma OnlyEntry(e: Entry, k: InstallmentKey)
    ensures Entered([e], k) <==> e.key == k
  {
    assert [e][0] == e;
  }

  /** The ledger of a run holds exactly the installments the run made PAID, each once. */
  lemma {:induction false} LedgerIsExact(db: Db, steps: seq<Step>)
    requires Inv(db)
    ensures EnteredOnce(Ledger(db, steps))
    ensures forall k :: IsPaid(Run(db, steps), k) <==> IsPaid(db, k) || Entered(Ledger(db, steps), k)
    ensures forall k :: !(IsPaid(db, k) && Entered(Ledger(db, steps), k))
    decreases |steps|
  {
    if steps == [] {
    } else {
      StepIsGood(db, steps[0]);
      var next := Apply(db, steps[0]);
      LedgerIsExact(next, steps[1..]);
      var first := StepLedger(db, steps[0]);
      var rest := Ledger(next, steps[1..]);
      forall k
        ensures IsPaid(next, k) <==> IsPaid(db, k) || Entered(first, k)
        ensures !(IsPaid(db, k) && Entered(first, k))
        ensures Entered(first + rest, k) <==> Entered(first, k) || Entered(rest, k)
      {
        StepEntersThePaid(db, steps[0], k);
        EnteredConcat(first, rest, k);
      }
      EnteredOnceConcat(first, rest);
    }
  }

  lemma EnteredConcat(some: seq<Entry>, more: seq<Entry>, k: InstallmentKey)
    ensures Entered(some + more, k) <==> Entered(some, k) || Entered(more, k)
  {
    if Entered(some, k) {
      var i :| 0 <= i < |some| && some[i].key == k;
      assert (some + more)[i].key == k;
    }
    if Entered(more, k) {
      var i :| 0 <= i < |more| && more[i].key == k;
      assert (some + more)[|some| + i].key == k;
    }
  }

  lemma EnteredOnceConcat(some: seq<Entry>, more: seq<Entry>)
    requires EnteredOnce(some) && EnteredOnce(more)
    requires forall k :: !(Entered(some, k) && Entered(more, k))
    ensures EnteredOnce(some + more)
  {
    var all := some + more;
    forall i, j | 0 <= i < j < |all|
      ensures all[i].key != all[j].key
    {
      if i < |some| <= j {
        assert Entered(some, some[i].key) && !Entered(more, some[i].key);
        assert more[j - |some|].key != some[i].key;
      }
    }
  }

  // ----- amounts -----

  /** Every entry is its installment's paid amount, at least what was expected, and exactly
      that unless staff attributed it. */
  ghost predicate EntryOk(e: Entry, db: Db) {
    && IsPaid(db, e.key)
    && db.installments[e.key].paid == Some(e.amount)
    && e.amount >= db.installments[e.key].expected
    && (!e.manual ==> e.amount == db.installments[e.key].expected)
  }

  /** Tara's own verdicts credit exactly the expected amount. */
  lemma VerdictsAreExact(db: Db, step: Step)
    requires Inv(db) && CreditedBy(db, step).Some? && !step.Attribute?
    ensures var c := CreditedBy(db, step).value;
      c.a < |c.middle.attempts|
        && (c.receipt.amount.Some? ==> c.receipt.amount.value == c.middle.attempts[c.a].expected)
  {
    var c := CreditedBy(db, step).value;
    var row := c.middle.attempts[c.a];
    match step
    case Webhook(d) =>
      var p := d.payload.value;
      AcceptedMeansPaid(d.client.value, row.product, row.expected,
        Candidates(c.middle.events, row.product, row.payment, p.payment));
    case StaffCheck(a, q) =>
      AcceptedMeansPaid(q.client.value, row.product, row.expected,
        Candidates(db.events, row.product, row.payment, None));
    case StaleCheck(a, q) =>
      AcceptedMeansPaid(q.client.value, row.product, row.expected,
        Candidates(db.events, row.product, row.payment, None));
    case _ =>
  }

  lemma CreditedRowIs(c: Crediting)
    requires Applicable(c)
    ensures var k := c.middle.attempts[c.a].installment; var row := c.middle.installments[k];
      && IsOpen(row.status) && c.middle.attempts[c.a].expected == row.expected
      && k in Credited(c.middle, c.a, c.receipt).installments
      && Credited(c.middle, c.a, c.receipt).installments[k] ==
           row.(status := InstallmentStatus.Paid, paid := Some(EntryOf(c, false).amount))
  {
    AppliedIff(c.middle, c.a, c.receipt.payment);
  }

  /** Staff cannot attribute less than what was expected. */
  lemma AttributionsSuffice(db: Db, d: Attribution)
    requires Linked(db) && d.event < |db.events| && d.key in db.installments && AttributionCrediting(db, d).Some?
    ensures var c := AttributionCrediting(db, d).value;
      && Linked(c.middle) && c.a < |c.middle.attempts| && c.middle.attempts[c.a].installment == d.key
      && c.middle.installments == db.installments
      && c.receipt.amount == Some(d.amount) && d.amount >= db.installments[d.key].expected
  {
  }

  /** What a credit may write: at least what was expected, and exactly that unless attributed. */
  ghost predicate Fair(c: Crediting, manual: bool) {
    && Applicable(c)
    && var expected := c.middle.attempts[c.a].expected;
       c.receipt.amount.Some? ==> c.receipt.amount.value >= expected && (!manual ==> c.receipt.amount.value == expected)
  }

  lemma StepIsFair(db: Db, step: Step)
    requires Inv(db) && CreditedBy(db, step).Some? && Applicable(CreditedBy(db, step).value)
    ensures Fair(CreditedBy(db, step).value, step.Attribute?)
  {
    if step.Attribute? {
      AttributionsSuffice(db, step.attribution);
    } else {
      VerdictsAreExact(db, step);
    }
  }

  lemma ThroughEntryOk(db: Db, c: Crediting, db': Db, manual: bool)
    requires Through(db, c, db') && Fair(c, manual)
    ensures EntryOk(EntryOf(c, manual), db')
  {
    CreditedRowIs(c);
    var k := c.middle.attempts[c.a].installment;
    assert InstallmentGrows(Credited(c.middle, c.a, c.receipt).installments[k], db'.installments[k]);
  }

  lemma StepEntryOk(db: Db, step: Step)
    requires Inv(db)
    ensures StepLedger(db, step) == []
      || (|StepLedger(db, step)| == 1 && EntryOk(StepLedger(db, step)[0], Apply(db, step)))
  {
    StepCases(db, step);
    var c := CreditedBy(db, step);
    if c.Some? {
      StepIsFair(db, step);
      ThroughEntryOk(db, c.value, Apply(db, step), step.Attribute?);
    }
  }

  lemma GrownEntryOk(e: Entry, db: Db, db': Db)
    requires EntryOk(e, db) && Grows(db, db')
    ensures EntryOk(e, db')
  {
    assert InstallmentGrows(db.installments[e.key], db'.installments[e.key]);
  }

  lemma EntryStaysOk(e: Entry, db: Db, steps: seq<Step>)
    requires Inv(db) && EntryOk(e, db)
    ensures EntryOk(e, Run(db, steps))
  {
    RunGrows(db, steps);
    GrownEntryOk(e, db, Run(db, steps));
  }

  lemma {:induction false} EntriesAreOk(db: Db, steps: seq<Step>)
    requires Inv(db)
    ensures forall e | e in Ledger(db, steps) :: EntryOk(e, Run(db, steps))
    decreases |steps|
  {
    if steps == [] {
    } else {
      StepIsGood(db, steps[0]);
      StepEntryOk(db, steps[0]);
      var next := Apply(db, steps[0]);
      EntriesAreOk(next, steps[1..]);
      forall e | e in Ledger(db, steps)
        ensures EntryOk(e, Run(db, steps))
      {
        if e in StepLedger(db, steps[0]) {
          EntryStaysOk(e, next, steps[1..]);
        }
      }
    }
  }

  // ----- the remaining balance -----

  /** No PAID installment received more than was expected. */
  ghost predicate Exact(db: Db) {
    forall k | k in db.installments && db.installments[k].status.Paid? ::
      db.installments[k].paid == Some(db.installments[k].expected)
  }

  lemma EntriesExact(db: Db, db': Db, ledger: seq<Entry>)
    requires Exact(db) && Grows(db, db') && forall e | e in ledger :: !e.manual && EntryOk(e, db')
    requires forall k :: IsPaid(db', k) <==> IsPaid(db, k) || Entered(ledger, k)
    ensures Exact(db')
  {
    forall k | k in db'.installments && db'.installments[k].status.Paid?
      ensures db'.installments[k].paid == Some(db'.installments[k].expected)
    {
      assert IsPaid(db', k);
      if IsPaid(db, k) {
        assert InstallmentGrows(db.installments[k], db'.installments[k]);
      } else {
        var i :| 0 <= i < |ledger| && ledger[i].key == k;
        assert EntryOk(ledger[i], db');
      }
    }
  }

  lemma ExactWithoutAttribution(db: Db, steps: seq<Step>)
    requires Inv(db) && Exact(db) && forall i | 0 <= i < |steps| :: !steps[i].Attribute?
    ensures Exact(Run(db, steps))
  {
    LedgerIsExact(db, steps);
    EntriesAreOk(db, steps);
    NoneManual(db, steps);
    RunGrows(db, steps);
    EntriesExact(db, Run(db, steps), Ledger(db, steps));
  }

  lemma {:induction false} NoneManual(db: Db, steps: seq<Step>)
    requires Inv(db) && forall i | 0 <= i < |steps| :: !steps[i].Attribute?
    ensures forall e | e in Ledger(db, steps) :: !e.manual
    decreases |steps|
  {
    if steps == [] {
    } else {
      assert !steps[0].Attribute?;
      StepIsGood(db, steps[0]);
      NoneManual(Apply(db, steps[0]), steps[1..]);
    }
  }

  /** What is still expected of the first n installments: all but the PAID ones. */
  function Outstanding(installments: map<InstallmentKey, Installment>, o: OrderId, n: nat): int {
    if n == 0 then 0 else
      var k := InstallmentKey(o, n);
      Outstanding(installments, o, n - 1) +
        (if k in installments && !installments[k].status.Paid? then installments[k].expected else 0)
  }

  /** Every PAID installment received at least what was expected. */
  ghost predicate Enough(db: Db) {
    forall k | k in db.installments && db.installments[k].status.Paid? ::
      db.installments[k].paid.Some? && db.installments[k].paid.value >= db.installments[k].expected
  }

  lemma EntriesSuffice(db: Db, db': Db, ledger: seq<Entry>)
    requires Enough(db) && Grows(db, db') && forall e | e in ledger :: EntryOk(e, db')
    requires forall k :: IsPaid(db', k) <==> IsPaid(db, k) || Entered(ledger, k)
    ensures Enough(db')
  {
    forall k | k in db'.installments && db'.installments[k].status.Paid?
      ensures db'.installments[k].paid.Some? && db'.installments[k].paid.value >= db'.installments[k].expected
    {
      assert IsPaid(db', k);
      if IsPaid(db, k) {
        assert InstallmentGrows(db.installments[k], db'.installments[k]);
      } else {
        var i :| 0 <= i < |ledger| && ledger[i].key == k;
        assert EntryOk(ledger[i], db');
      }
    }
  }

  lemma EnoughInEveryRun(db: Db, steps: seq<Step>)
    requires Inv(db) && Enough(db)
    ensures Enough(Run(db, steps))
  {
    LedgerIsExact(db, steps);
    EntriesAreOk(db, steps);
    RunGrows(db, steps);
    EntriesSuffice(db, Run(db, steps), Ledger(db, steps));
  }

  lemma {:induction false} BalanceOfFirst(db: Db, o: OrderId, n: nat)
    requires Linked(db) && AmountsOk(db.orders, db.installments) && o < |db.orders| && n <= db.orders[o].count
    ensures Enough(db) ==>
      TotalPaid(db.installments, o, n) + Outstanding(db.installments, o, n) >= db.orders[o].amount * n
    ensures Exact(db) ==>
      TotalPaid(db.installments, o, n) + Outstanding(db.installments, o, n) == db.orders[o].amount * n
  {
    if n == 0 {
    } else {
      BalanceOfFirst(db, o, n - 1);
      assert AmountOk(db.installments[InstallmentKey(o, n)], db.orders[o]);
      assert db.orders[o].amount * n == db.orders[o].amount * (n - 1) + db.orders[o].amount;
    }
  }

  /** The frozen total never exceeds what was received plus what is still expected; without
      manual attribution the remaining balance is exactly what is still expected. */
  lemma RemainingBalance(db: Db, steps: seq<Step>, o: OrderId)
    requires Inv(db) && Enough(db) && o < |Run(db, steps).orders|
    ensures var db' := Run(db, steps); var order := db'.orders[o];
      && order.total - Total(db', o) <= Outstanding(db'.installments, o, order.count)
      && (Exact(db) && (forall i | 0 <= i < |steps| :: !steps[i].Attribute?) ==>
            order.total - Total(db', o) == Outstanding(db'.installments, o, order.count))
  {
    var db' := Run(db, steps);
    EnoughInEveryRun(db, steps);
    BalanceOfFirst(db', o, db'.orders[o].count);
    if Exact(db) && forall i | 0 <= i < |steps| :: !steps[i].Attribute? {
      ExactWithoutAttribution(db, steps);
    }
  }
}
