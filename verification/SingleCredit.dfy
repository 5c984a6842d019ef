/** Over every run an installment is paid at most once, for good, and never without proof. */
module SingleCredit {
  import opened Models
  import opened Credit
  import opened Administration
  import opened Verification
  import opened Webhooks
  import opened Checks
  import opened Invariants
  import opened CreditProofs
  import opened Composites
  import opened Steps
  import opened Runs

  // ----- one credit -----

  lemma OthersAreInactive(attempts: seq<Attempt>, a: AttemptId)
    requires OneActive(attempts) && a < |attempts| && IsActive(attempts[a].status)
    ensures forall x | 0 <= x < |attempts| && x != a && attempts[x].installment == attempts[a].installment ::
      !IsActive(attempts[x].status)
  {
    forall x | 0 <= x < |attempts| && x != a && attempts[x].installment == attempts[a].installment
      ensures !IsActive(attempts[x].status)
    {
      assert x < a || a < x;
    }
  }

  /** A PAID installment keeps its row, amount included, through every run; exactly one of its
      attempts is SUCCEEDED, with the same paymentId for ever, and no other is ever active. */
  lemma PaidStaysPaidOnce(db: Db, db': Db, k: InstallmentKey, a: AttemptId)
    requires Grows(db, db') && OneActive(db'.attempts)
    requires k in db.installments && db.installments[k].status.Paid?
    requires a < |db.attempts| && db.attempts[a].installment == k && db.attempts[a].status.Succeeded?
    ensures k in db'.installments && db'.installments[k] == db.installments[k]
    ensures a < |db'.attempts| && db'.attempts[a].status.Succeeded? && db'.attempts[a].payment == db.attempts[a].payment
    ensures forall x | 0 <= x < |db'.attempts| && x != a && db'.attempts[x].installment == k ::
      !IsActive(db'.attempts[x].status)
  {
    assert AttemptGrows(db.attempts[a], db'.attempts[a]);
    assert InstallmentGrows(db.installments[k], db'.installments[k]);
    OthersAreInactive(db'.attempts, a);
  }

  lemma PaidOnceForAll(db: Db, steps: seq<Step>, k: InstallmentKey) returns (a: AttemptId)
    requires Inv(db) && k in db.installments && db.installments[k].status.Paid?
    ensures a < |db.attempts| && db.attempts[a].installment == k && db.attempts[a].status.Succeeded?
    ensures var db' := Run(db, steps);
      && k in db'.installments && db'.installments[k] == db.installments[k]
      && a < |db'.attempts| && db'.attempts[a].status.Succeeded? && db'.attempts[a].payment == db.attempts[a].payment
      && (forall x | 0 <= x < |db'.attempts| && x != a && db'.attempts[x].installment == k ::
        !IsActive(db'.attempts[x].status))
  {
    a := TheSucceeded(db, k);
    RunGrows(db, steps);
    PaidStaysPaidOnce(db, Run(db, steps), k, a);
  }

  lemma TheSucceeded(db: Db, k: InstallmentKey) returns (a: AttemptId)
    requires PaidBacked(db.installments, db.attempts) && k in db.installments && db.installments[k].status.Paid?
    ensures a < |db.attempts| && db.attempts[a].installment == k && db.attempts[a].status.Succeeded?
  {
    assert HasSucceeded(db.attempts, k);
    a :| 0 <= a < |db.attempts| && db.attempts[a].installment == k && db.attempts[a].status.Succeeded?;
  }

  /** PaymentIds are injective and final over every run. */
  lemma PaymentIdsAreFinal(db: Db, steps: seq<Step>, a: AttemptId)
    requires Inv(db) && a < |db.attempts| && db.attempts[a].payment.Some?
    ensures var attempts := Run(db, steps).attempts;
      && a < |attempts| && attempts[a].status.Succeeded? && attempts[a].payment == db.attempts[a].payment
      && (forall x | 0 <= x < |attempts| && x != a :: attempts[x].payment != db.attempts[a].payment)
  {
    RunGrows(db, steps);
    var attempts := Run(db, steps).attempts;
    assert AttemptGrows(db.attempts[a], attempts[a]);
    forall x | 0 <= x < |attempts| && x != a
      ensures attempts[x].payment != attempts[a].payment
    {
      assert x < a || a < x;
    }
  }

  // ----- SUCCEEDED means PAID, but for the recheck -----

  lemma CreditedSucceededPaid(db: Db, a: AttemptId, s: Receipt)
    requires Inv(db) && a < |db.attempts| && SuccessOutcome(db, a, s.payment).Applied?
    requires SucceededPaid(db.installments, db.attempts)
    ensures var db' := Credited(db, a, s); SucceededPaid(db'.installments, db'.attempts)
  {
    CreditTouchesOneInstallment(db, a, s);
    var db' := Credited(db, a, s);
    forall x | 0 <= x < |db'.attempts| && db'.attempts[x].status.Succeeded?
      ensures db'.attempts[x].installment in db'.installments
      ensures db'.installments[db'.attempts[x].installment].status.Paid?
    {
      assert db'.attempts[x] == CreditedAttempt(db.attempts, a, s.payment, x);
    }
  }

  lemma ThroughKeepsSucceededPaid(db: Db, c: Crediting, db': Db)
    requires Inv(db) && Through(db, c, db') && SucceededPaid(db.installments, db.attempts)
    ensures SucceededPaid(db'.installments, db'.attempts)
  {
    QuietKeepsCredit(db, c.middle);
    CreditedSucceededPaid(c.middle, c.a, c.receipt);
    AppliedKeeps(c.middle, c.a, c.receipt);
    QuietKeepsCredit(Credited(c.middle, c.a, c.receipt), db');
  }

  lemma StepKeepsSucceededPaid(db: Db, step: Step)
    requires Inv(db) && SucceededPaid(db.installments, db.attempts) && !step.Recheck?
    ensures var db' := Apply(db, step); SucceededPaid(db'.installments, db'.attempts)
  {
    StepKeeps(db, step);
    var c := CreditedBy(db, step);
    if c.Some? {
      ThroughKeepsSucceededPaid(db, c.value, Apply(db, step));
    } else {
      QuietKeepsCredit(db, Apply(db, step));
    }
  }

  /** An attempt SUCCEEDED without its installment being PAID. */
  ghost predicate Stranded(db: Db, k: InstallmentKey, a: AttemptId) {
    && k in db.installments && !db.installments[k].status.Paid?
    && a < |db.attempts| && db.attempts[a].installment == k && db.attempts[a].status.Succeeded?
  }

  lemma QuietKeepsStranded(db: Db, db': Db, k: InstallmentKey, a: AttemptId)
    requires Quiet(db, db') && Stranded(db, k, a)
    ensures Stranded(db', k, a)
  {
    assert AttemptGrows(db.attempts[a], db'.attempts[a]);
    assert InstallmentGrows(db.installments[k], db'.installments[k]);
  }

  lemma CreditKeepsStranded(db: Db, c: AttemptId, s: Receipt, k: InstallmentKey, a: AttemptId)
    requires Inv(db) && c < |db.attempts| && SuccessOutcome(db, c, s.payment).Applied? && Stranded(db, k, a)
    ensures Stranded(Credited(db, c, s), k, a)
  {
    AppliedIff(db, c, s.payment);
    assert Siblings(db.attempts, c, a) <==> db.attempts[c].installment == k;
    assert CreditedAttempts(db.attempts, c, s.payment)[a].status.Succeeded?;
  }

  lemma ThroughKeepsStranded(db: Db, c: Crediting, db': Db, k: InstallmentKey, a: AttemptId)
    requires Through(db, c, db') && Stranded(db, k, a)
    ensures Stranded(db', k, a)
  {
    QuietKeepsStranded(db, c.middle, k, a);
    CreditKeepsStranded(c.middle, c.a, c.receipt, k, a);
    QuietKeepsStranded(Credited(c.middle, c.a, c.receipt), db', k, a);
  }

  lemma RecheckKeepsStranded(db: Db, db': Db, k: InstallmentKey, a: AttemptId)
    requires Grows(db, db') && db'.installments == db.installments && Stranded(db, k, a)
    ensures Stranded(db', k, a)
  {
    assert AttemptGrows(db.attempts[a], db'.attempts[a]);
  }

  lemma StepKeepsStranded(db: Db, step: Step, k: InstallmentKey, a: AttemptId)
    requires Inv(db) && Stranded(db, k, a)
    ensures Stranded(Apply(db, step), k, a)
  {
    StepKeeps(db, step);
    var c := CreditedBy(db, step);
    if step.Recheck? {
      RecheckKeepsStranded(db, Apply(db, step), k, a);
    } else if c.Some? {
      ThroughKeepsStranded(db, c.value, Apply(db, step), k, a);
    } else {
      QuietKeepsStranded(db, Apply(db, step), k, a);
    }
  }

  lemma RecheckStrands(db: Db, a: AttemptId)
    requires Inv(db) && a < |db.attempts| && db.attempts[a].status.Unknown?
    ensures Stranded(Apply(db, Recheck(a)), db.attempts[a].installment, a)
  {
    ActiveIsUnpaid(db, a);
  }

  /** When checkout's recheck finds that an UNKNOWN attempt was paid, it marks the attempt
      SUCCEEDED and nothing more.  Its installment then never will be PAID: in no run does any
      later verdict credit it. */
  lemma RecheckedIsNeverPaid(db: Db, a: AttemptId, steps: seq<Step>)
    requires Inv(db) && a < |db.attempts| && db.attempts[a].status.Unknown?
    ensures var next := Apply(db, Recheck(a)); var k := db.attempts[a].installment;
      && Inv(next) && next.attempts[a].status.Succeeded?
      && k in Run(next, steps).installments && !Run(next, steps).installments[k].status.Paid?
  {
    RecheckStrands(db, a);
    StepKeeps(db, Recheck(a));
    StrandedForEver(Apply(db, Recheck(a)), db.attempts[a].installment, a, steps);
  }

  lemma {:induction false} StrandedForEver(db: Db, k: InstallmentKey, a: AttemptId, steps: seq<Step>)
    requires Inv(db) && Stranded(db, k, a)
    ensures Stranded(Run(db, steps), k, a)
    decreases |steps|
  {
    if steps == [] {
    } else {
      StepKeepsStranded(db, steps[0], k, a);
      StepIsGood(db, steps[0]);
      StrandedForEver(Apply(db, steps[0]), k, a, steps[1..]);
    }
  }

  /** Step i of the run is a recheck that finds its attempt UNKNOWN when its turn comes. */
  ghost predicate RechecksAt(db: Db, steps: seq<Step>, i: nat)
    requires Inv(db) && i < |steps|
  {
    steps[i].Recheck? && Possible(Before(db, steps, i), steps[i])
  }

  lemma StrandedBreaks(db: Db, k: InstallmentKey, a: AttemptId)
    requires Stranded(db, k, a)
    ensures !SucceededPaid(db.installments, db.attempts)
  {
    assert db.attempts[a].status.Succeeded? && db.attempts[a].installment == k;
  }

  /** The step decides what the rest of the run can still reach. */
  lemma StepStrandsIff(db: Db, step: Step)
    requires Inv(db) && SucceededPaid(db.installments, db.attempts)
    ensures var db' := Apply(db, step);
      SucceededPaid(db'.installments, db'.attempts) <==> !(step.Recheck? && Possible(db, step))
  {
    if step.Recheck? && Possible(db, step) {
      RecheckStrands(db, step.attempt);
      StrandedBreaks(Apply(db, step), db.attempts[step.attempt].installment, step.attempt);
    } else if !step.Recheck? {
      StepKeepsSucceededPaid(db, step);
    }
  }

  lemma RunAfterRecheck(db: Db, steps: seq<Step>)
    requires Inv(db) && steps != [] && steps[0].Recheck? && Possible(db, steps[0])
    ensures !SucceededPaid(Run(db, steps).installments, Run(db, steps).attempts)
  {
    var a := steps[0].attempt;
    var k := db.attempts[a].installment;
    RecheckStrands(db, a);
    StepIsGood(db, steps[0]);
    StrandedForEver(Apply(db, steps[0]), k, a, steps[1..]);
    StrandedBreaks(Run(db, steps), k, a);
  }

  /** SUCCEEDED still implies PAID at the end of a run if and only if checkout's recheck never
      found, when its turn came, that an UNKNOWN attempt had been paid. */
  lemma {:induction false} SucceededIsPaidIff(db: Db, steps: seq<Step>)
    requires Inv(db) && SucceededPaid(db.installments, db.attempts)
    ensures SucceededPaid(Run(db, steps).installments, Run(db, steps).attempts)
      <==> (forall i | 0 <= i < |steps| :: !RechecksAt(db, steps, i))
    decreases |steps|
  {
    if steps == [] {
    } else {
      StepIsGood(db, steps[0]);
      StepStrandsIff(db, steps[0]);
      BeforeFirst(db, steps);
      if RechecksAt(db, steps, 0) {
        RunAfterRecheck(db, steps);
      } else {
        SucceededIsPaidIff(Apply(db, steps[0]), steps[1..]);
        RechecksNext(db, steps, Apply(db, steps[0]));
        LaterRechecks(db, steps, Apply(db, steps[0]));
      }
    }
  }

  lemma RechecksNext(db: Db, steps: seq<Step>, next: Db)
    requires Inv(db) && steps != [] && Inv(next) && next == Apply(db, steps[0])
    ensures forall j | 0 <= j < |steps[1..]| :: RechecksAt(db, steps, j + 1) <==> RechecksAt(next, steps[1..], j)
  {
    forall j | 0 <= j < |steps[1..]|
      ensures RechecksAt(db, steps, j + 1) <==> RechecksAt(next, steps[1..], j)
    {
      BeforeNext(db, steps, j);
    }
  }

  lemma LaterRechecks(db: Db, steps: seq<Step>, next: Db)
    requires Inv(db) && Inv(next) && steps != [] && !RechecksAt(db, steps, 0)
    requires forall j | 0 <= j < |steps[1..]| :: RechecksAt(db, steps, j + 1) <==> RechecksAt(next, steps[1..], j)
    ensures (forall i | 0 <= i < |steps| :: !RechecksAt(db, steps, i))
      <==> (forall j | 0 <= j < |steps[1..]| :: !RechecksAt(next, steps[1..], j))
  {
    if forall j | 0 <= j < |steps[1..]| :: !RechecksAt(next, steps[1..], j) {
      forall i | 0 <= i < |steps|
        ensures !RechecksAt(db, steps, i)
      {
        assert i > 0 ==> !RechecksAt(next, steps[1..], i - 1);
      }
    }
    if forall i | 0 <= i < |steps| :: !RechecksAt(db, steps, i) {
      forall j | 0 <= j < |steps[1..]|
        ensures !RechecksAt(next, steps[1..], j)
      {
        assert !RechecksAt(db, steps, j + 1);
      }
    }
  }

  // ----- no credit without a verdict -----

  /** The verification on whose verdict the step would credit attempt a: the client asked and
      the candidates it was asked about. */
  function Asked(db: Db, step: Step, a: AttemptId): Option<Lookup> {
    match step
    case Webhook(d) =>
      if a < |db.attempts| && Inquires(db, d) && Correlated(db, d.payload.value) == Some(a) && d.client.Some? then
        Some(LookupOf(AttachedTo(db, d, d.payload.value, a), a, d.client.value, d.payload.value.payment))
      else None
    case StaffCheck(x, q) =>
      if x == a && a < |db.attempts| && q.client.Some? then Some(LookupOf(db, a, q.client.value, None)) else None
    case StaleCheck(x, q) =>
      if x == a && a < |db.attempts| && q.client.Some? then Some(LookupOf(db, a, q.client.value, None)) else None
    case Credit(x, lookup, _) => if x == a then Some(lookup) else None
    case _ => None
  }

  /** The step carries the proof on which attempt a of installment k may be credited: a verdict
      on a itself that was accepted, or the attribution of a payment to k by staff. */
  ghost predicate Proves(db: Db, step: Step, k: InstallmentKey, a: AttemptId)
    requires Linked(db)
  {
    if step.Attribute? then
      var d := step.attribution;
      && d.key == k && d.event < |db.events| && k in db.installments && Attributable(db, d)
      && Carrier(db, d).0 == a
    else
      && a < |db.attempts| && db.attempts[a].installment == k
      && Asked(db, step, a).Some? && Accepts(Heard(db.attempts[a], Asked(db, step, a).value))
  }

  /** What the proof means: Tara named the productId of that very attempt, and exactly its
      expected amount when it was asked by one of the candidates. */
  lemma ProofIsTaras(db: Db, step: Step, k: InstallmentKey, a: AttemptId)
    requires Linked(db) && Proves(db, step, k, a) && !step.Attribute?
    ensures var row := db.attempts[a]; var lookup := Asked(db, step, a).value;
      || (exists i | 0 <= i < |lookup.ids| :: Creditable(lookup.client, row.product, row.expected, lookup.ids[i]))
      || lookup.client.products(row.product) == AnsweredProduct(Verdict.Success, row.product)
  {
    var row := db.attempts[a];
    var lookup := Asked(db, step, a).value;
    AcceptedMeansPaid(lookup.client, row.product, row.expected, lookup.ids);
    var r := Heard(row, lookup);
    if r.payment.Some? {
      var i :| 0 <= i < |lookup.ids| && lookup.ids[i] == r.payment.value;
    }
  }

  ghost predicate CreditsOnProof(db: Db, step: Step, c: Crediting)
    requires Linked(db)
  {
    c.a < |c.middle.attempts| && Proves(db, step, c.middle.attempts[c.a].installment, c.a)
  }

  lemma DeliveryIsProved(db: Db, d: Delivery)
    requires Inv(db) && DeliveryCrediting(db, d).Some?
    ensures CreditsOnProof(db, Webhook(d), DeliveryCrediting(db, d).value)
  {
  }

  lemma CheckIsProved(db: Db, a: AttemptId, q: Inquiry)
    requires Linked(db) && a < |db.attempts| && CheckCrediting(db, a, q).Some?
    ensures CreditsOnProof(db, StaffCheck(a, q), CheckCrediting(db, a, q).value)
  {
  }

  lemma StaleCheckIsProved(db: Db, a: AttemptId, q: Inquiry)
    requires Linked(db) && a < |db.attempts| && CheckCrediting(db, a, q).Some?
    ensures CreditsOnProof(db, StaleCheck(a, q), CheckCrediting(db, a, q).value)
  {
  }

  lemma AttributionIsProved(db: Db, d: Attribution)
    requires Inv(db) && d.event < |db.events| && d.key in db.installments && AttributionCrediting(db, d).Some?
    ensures CreditsOnProof(db, Attribute(d), AttributionCrediting(db, d).value)
  {
  }

  lemma ReceiptIsProved(db: Db, step: Step)
    requires Inv(db) && step.Credit? && PartPossible(db, step)
    ensures CreditsOnProof(db, step, Crediting(db, step.attempt, step.receipt))
  {
  }

  lemma CreditedByIs(db: Db, step: Step)
    requires Linked(db) && CreditedBy(db, step).Some?
    ensures step.Webhook? ==> CreditedBy(db, step) == DeliveryCrediting(db, step.delivery)
    ensures step.StaffCheck? || step.StaleCheck? ==>
      step.attempt < |db.attempts| && CreditedBy(db, step) == CheckCrediting(db, step.attempt, step.inquiry)
    ensures step.Attribute? ==> (
      && step.attribution.event < |db.events| && step.attribution.key in db.installments
      && CreditedBy(db, step) == AttributionCrediting(db, step.attribution))
    ensures step.Credit? ==>
      PartPossible(db, step) && CreditedBy(db, step) == Some(Crediting(db, step.attempt, step.receipt))
    ensures step.Webhook? || step.StaffCheck? || step.StaleCheck? || step.Attribute? || step.Credit?
  {
    match step
    case Webhook(_) =>
    case StaffCheck(_, _) =>
    case StaleCheck(_, _) =>
    case Attribute(_) =>
    case Credit(_, _, _) =>
    case _ =>
  }

  /** Who is credited, and on what proof. */
  lemma CreditIsProved(db: Db, step: Step)
    requires Inv(db) && CreditedBy(db, step).Some?
    ensures CreditsOnProof(db, step, CreditedBy(db, step).value)
  {
    CreditedByIs(db, step);
    match step
    case Webhook(d) => DeliveryIsProved(db, d);
    case StaffCheck(a, q) => CheckIsProved(db, a, q);
    case StaleCheck(a, q) => StaleCheckIsProved(db, a, q);
    case Attribute(d) => AttributionIsProved(db, d);
    case Credit(_, _, _) => ReceiptIsProved(db, step);
    case _ =>
  }

  /** The attempt a transaction credits is SUCCEEDED after it. */
  lemma ThroughSucceeds(db: Db, c: Crediting, db': Db)
    requires Through(db, c, db')
    ensures var k := c.middle.attempts[c.a].installment;
      c.a < |db'.attempts| && db'.attempts[c.a].installment == k && db'.attempts[c.a].status.Succeeded?
  {
    var credited := Credited(c.middle, c.a, c.receipt);
    assert credited.attempts[c.a] == CreditedAttempt(c.middle.attempts, c.a, c.receipt.payment, c.a);
    assert AttemptGrows(credited.attempts[c.a], db'.attempts[c.a]);
  }

  predicate IsPaid(db: Db, k: InstallmentKey) {
    k in db.installments && db.installments[k].status.Paid?
  }

  /** A transaction that credits c pays c's installment and no other. */
  lemma ThroughPaysOne(db: Db, c: Crediting, db': Db, k: InstallmentKey)
    requires Through(db, c, db')
    ensures IsPaid(db', k) <==> IsPaid(db, k) || k == c.middle.attempts[c.a].installment
  {
    var credited := Credited(c.middle, c.a, c.receipt);
    assert IsPaid(credited, k) <==> IsPaid(c.middle, k) || k == c.middle.attempts[c.a].installment;
    QuietPaysNone(db, c.middle, k);
    QuietPaysNone(credited, db', k);
  }

  lemma QuietPaysNone(db: Db, db': Db, k: InstallmentKey)
    requires Quiet(db, db')
    ensures IsPaid(db', k) <==> IsPaid(db, k)
  {
    if k in db.installments {
      assert InstallmentGrows(db.installments[k], db'.installments[k]);
    }
  }

  ghost predicate PaidBy(db: Db, k: InstallmentKey, a: AttemptId) {
    a < |db.attempts| && db.attempts[a].installment == k && db.attempts[a].status.Succeeded?
  }

  lemma NewlyPaidIsProved(db: Db, step: Step, k: InstallmentKey) returns (a: AttemptId)
    requires Inv(db) && !IsPaid(db, k) && IsPaid(Apply(db, step), k)
    ensures Proves(db, step, k, a) && PaidBy(Apply(db, step), k, a)
  {
    StepKeeps(db, step);
    var c := CreditedBy(db, step);
    if !step.Recheck? && c.None? {
      QuietPaysNone(db, Apply(db, step), k);
    } else if !step.Recheck? {
      a := c.value.a;
      ThroughPaysOne(db, c.value, Apply(db, step), k);
      ThroughSucceeds(db, c.value, Apply(db, step));
      CreditIsProved(db, step);
    }
  }

  lemma PaidByGrows(db: Db, db': Db, k: InstallmentKey, a: AttemptId)
    requires Grows(db, db') && PaidBy(db, k, a)
    ensures PaidBy(db', k, a)
  {
    assert AttemptGrows(db.attempts[a], db'.attempts[a]);
  }

  lemma PaidNeedsAStep(db: Db, steps: seq<Step>, k: InstallmentKey)
    requires Inv(db) && !IsPaid(db, k) && IsPaid(Run(db, steps), k)
    ensures steps != []
  {
  }

  lemma ProvedFirst(db: Db, steps: seq<Step>, k: InstallmentKey) returns (a: AttemptId)
    requires Inv(db) && steps != [] && !IsPaid(db, k) && IsPaid(Apply(db, steps[0]), k)
    ensures Proves(Before(db, steps, 0), steps[0], k, a) && PaidBy(Run(db, steps), k, a)
  {
    StepIsGood(db, steps[0]);
    a := NewlyPaidIsProved(db, steps[0], k);
    BeforeFirst(db, steps);
    RunGrows(Apply(db, steps[0]), steps[1..]);
    PaidByGrows(Apply(db, steps[0]), Run(db, steps), k, a);
  }

  lemma ProvedLater(db: Db, steps: seq<Step>, next: Db, k: InstallmentKey, j: nat, a: AttemptId)
    requires Inv(db) && steps != [] && next == Apply(db, steps[0]) && Inv(next) && j < |steps[1..]|
    requires Proves(Before(next, steps[1..], j), steps[1..][j], k, a)
    ensures Proves(Before(db, steps, j + 1), steps[j + 1], k, a)
  {
    BeforeNext(db, steps, j);
  }

  /** Whenever a run makes an installment PAID, its SUCCEEDED attempt is one on which some step
      of the run carried an accepted verdict of Tara, or the one to which staff attributed a
      payment for that installment. */
  lemma {:induction false} NoCreditWithoutVerdict(db: Db, steps: seq<Step>, k: InstallmentKey)
      returns (i: nat, a: AttemptId)
    requires Inv(db) && !IsPaid(db, k) && IsPaid(Run(db, steps), k)
    ensures i < |steps| && Proves(Before(db, steps, i), steps[i], k, a)
    ensures PaidBy(Run(db, steps), k, a)
    decreases |steps|
  {
    PaidNeedsAStep(db, steps, k);
    StepIsGood(db, steps[0]);
    var next := Apply(db, steps[0]);
    if IsPaid(next, k) {
      i := 0;
      a := ProvedFirst(db, steps, k);
    } else {
      var j;
      j, a := NoCreditWithoutVerdict(next, steps[1..], k);
      ProvedLater(db, steps, next, k, j, a);
      i := j + 1;
    }
  }
}
