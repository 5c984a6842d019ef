/** CheckoutService._pay_outstanding_installment: the locked sections of Checkout put together
    around the calls to Tara. */
module Paying {
  import opened Models
  import opened StateMachines
  import opened Checkout
  import opened Verification
  import opened Invariants
  import opened Composites
  import S = Steps
  import F = Effects
  import R = Runs

  /** create_payment_link: the links (`safe` when one of them may be shown), or an exception. */
  datatype LinkReply = Issued(general: Option<string>, safe: bool) | Indeterminate | Rejected | NotSent

  /** Everything one checkout meets: whether the stored link is too old, Tara's answers to the
      two lookups (None for an exception) and to the link request, and two new productIds. */
  datatype Answers = Answers(
    tooOld: bool, first: Option<Verdict>, second: Option<Verdict>, link: LinkReply, product: string, spare: string)

  datatype Shown = NoPaymentDue | AlreadyPaid | LinkReady | PaymentFailed | VerificationPending | NotStarted | Refused

  /** next_outstanding_installment, from sequence s on. */
  function NextOutstanding(installments: map<InstallmentKey, Installment>, o: OrderId, s: nat,
      count: nat): (r: Option<InstallmentKey>)
    ensures r.Some? ==> r.value in installments && r.value.order == o && s <= r.value.sequence <= count
    ensures r.Some? ==> IsOpen(installments[r.value].status)
    ensures r.Some? ==> forall n: nat | s <= n < r.value.sequence ::
      InstallmentKey(o, n) in installments ==> !IsOpen(installments[InstallmentKey(o, n)].status)
    ensures r.None? ==> forall n: nat | s <= n <= count ::
      InstallmentKey(o, n) in installments ==> !IsOpen(installments[InstallmentKey(o, n)].status)
    decreases count + 1 - s
  {
    if s > count then None
    else if InstallmentKey(o, s) in installments && IsOpen(installments[InstallmentKey(o, s)].status)
      then Some(InstallmentKey(o, s))
    else NextOutstanding(installments, o, s + 1, count)
  }

  // ----- asking Tara about an UNKNOWN attempt -----

  function AfterAsking(db: Db, a: AttemptId, reply: Option<Verdict>): Db
    requires a < |db.attempts|
  {
    match reply
    case Some(Success) => AfterMove(db, a, AttemptStatus.Succeeded)
    case Some(Failure) => AfterMove(db, a, AttemptStatus.Failed)
    case _ => db
  }

  function ShownAfterAsking(reply: Option<Verdict>): Shown {
    match reply
    case Some(Success) => AlreadyPaid
    case Some(Failure) => PaymentFailed
    case _ => VerificationPending
  }

  /** _recheck_unknown_attempt. */
  method RecheckUnknownAttempt(db: Database, a: AttemptId, reply: Option<Verdict>) returns (shown: Shown)
    requires a < |db.attempts|
    modifies db`attempts
    ensures shown == ShownAfterAsking(reply)
    ensures db.State() == AfterAsking(old(db.State()), a, reply)
  {
    if reply == Some(Verdict.Success) {
      var e := TransitionAttemptLocked(db, a, AttemptStatus.Succeeded);
      return AlreadyPaid;
    }
    if reply == Some(Verdict.Failure) {
      var e := TransitionAttemptLocked(db, a, AttemptStatus.Failed);
      return PaymentFailed;
    }
    return VerificationPending;
  }

  // ----- asking Tara for a link -----

  function AfterLinkReply(db: Db, a: AttemptId, reply: LinkReply): Db
    requires a < |db.attempts|
  {
    match reply
    case Issued(general, _) => AfterLink(db, a, general)
    case Indeterminate => AfterMove(db, a, AttemptStatus.Unknown)
    case Rejected => AfterMove(db, a, AttemptStatus.Failed)
    case NotSent => db
  }

  /** The answer to the customer; the constraint's IntegrityError is not caught. */
  function ShownAfterLinkReply(attempts: seq<Attempt>, a: AttemptId, reply: LinkReply): Shown
    requires a < |attempts|
  {
    match reply
    case Issued(_, safe) => if safe then LinkReady else NotStarted
    case Indeterminate =>
      if AttemptTransitionError(attempts, a, AttemptStatus.Unknown) == Some(Error.Integrity) then Refused
        else NotStarted
    case _ => NotStarted
  }

  /** _create_link_for_attempt. */
  method CreateLinkForAttempt(db: Database, a: AttemptId, reply: LinkReply) returns (shown: Shown)
    requires a < |db.attempts|
    modifies db`attempts
    ensures shown == ShownAfterLinkReply(old(db.attempts), a, reply)
    ensures db.State() == AfterLinkReply(old(db.State()), a, reply)
  {
    match reply {
      case Indeterminate =>
        var e := TransitionAttemptLocked(db, a, AttemptStatus.Unknown);
        if e.Some? {
          return Refused;
        }
      case Rejected => var e := TransitionAttemptLocked(db, a, AttemptStatus.Failed);
      case NotSent =>
      case Issued(general, safe) =>
        PersistLinkResult(db, a, general);
        if safe {
          return LinkReady;
        }
    }
    return NotStarted;
  }

  // ----- the whole -----

  /** The customer never received this attempt's link (Tara timed out while creating it). */
  predicate NeverSeen(row: Attempt) {
    row.status.Unknown? && !Present(row.link)
  }

  predicate Conclusive(reply: Option<Verdict>) {
    reply == Some(Verdict.Success) || reply == Some(Verdict.Pending)
  }

  /** The attempt is closed to make room for a new one. */
  predicate Replaces(row: Attempt, answers: Answers) {
    if NeverSeen(row) then !Conclusive(answers.first) else row.status.LinkCreated? && answers.tooOld
  }

  /** What the customer gets for attempt a, once no replacement is needed. */
  function Offered(db: Db, a: AttemptId, answers: Answers): (Db, Shown)
    requires a < |db.attempts|
  {
    var row := db.attempts[a];
    if row.status.Succeeded? then (db, AlreadyPaid)
    else if (row.status.LinkCreated? || row.status.Pending?) && Present(row.link) then (db, LinkReady)
    else if row.status.Unknown? then (AfterAsking(db, a, answers.second), ShownAfterAsking(answers.second))
    else (AfterLinkReply(db, a, answers.link), ShownAfterLinkReply(db.attempts, a, answers.link))
  }

  /** The database in which attempt a has made room. */
  function Vacated(db: Db, a: AttemptId, answers: Answers): Db
    requires a < |db.attempts|
  {
    AfterMove(if NeverSeen(db.attempts[a]) then AfterAsking(db, a, answers.first) else db, a, AttemptStatus.Expired)
  }

  /** A new attempt is begun in the room made, and offered. */
  function Renewed(vacated: Db, k: InstallmentKey, answers: Answers): (Db, Shown)
    requires k in vacated.installments
  {
    match CurrentAttempt(vacated.attempts, k)
    case Integrity => (vacated, Refused)
    case Existing(b) => Offered(vacated, b, answers)
    case New(b) => Offered(AfterCurrentAttempt(vacated, k, answers.spare), b, answers)
  }

  function OfferedOrReplaced(db: Db, k: InstallmentKey, a: AttemptId, answers: Answers): (Db, Shown)
    requires k in db.installments && a < |db.attempts|
  {
    if Replaces(db.attempts[a], answers) then Renewed(Vacated(db, a, answers), k, answers)
    else if NeverSeen(db.attempts[a]) then (AfterAsking(db, a, answers.first), ShownAfterAsking(answers.first))
    else Offered(db, a, answers)
  }

  function Pay(db: Db, o: OrderId, answers: Answers): (Db, Shown)
    requires o < |db.orders|
  {
    var k := NextOutstanding(db.installments, o, 1, db.orders[o].count);
    if k.None? then (db, NoPaymentDue)
    else match CurrentAttempt(db.attempts, k.value)
      case Integrity => (db, Refused)
      case Existing(a) => OfferedOrReplaced(db, k.value, a, answers)
      case New(a) => OfferedOrReplaced(AfterCurrentAttempt(db, k.value, answers.product), k.value, a, answers)
  }

  method Offer(db: Database, a: AttemptId, answers: Answers) returns (shown: Shown)
    requires a < |db.attempts|
    modifies db`attempts
    ensures (db.State(), shown) == Offered(old(db.State()), a, answers)
  {
    var row := db.attempts[a];
    if row.status.Succeeded? {
      return AlreadyPaid;
    }
    if (row.status.LinkCreated? || row.status.Pending?) && Present(row.link) {
      return LinkReady;
    }
    if row.status.Unknown? {
      shown := RecheckUnknownAttempt(db, a, answers.second);
      return;
    }
    shown := CreateLinkForAttempt(db, a, answers.link);
  }

  /** From the attempt at hand on: it is looked up, replaced or offered as it is. */
  method OfferOrReplace(db: Database, k: InstallmentKey, a: AttemptId, answers: Answers) returns (shown: Shown)
    requires k in db.installments && a < |db.attempts|
    modifies db`attempts
    ensures (db.State(), shown) == OfferedOrReplaced(old(db.State()), k, a, answers)
  {
    var row := db.attempts[a];
    var current := Existing(a);
    if row.status.Unknown? && !Present(row.link) {
      shown := RecheckUnknownAttempt(db, a, answers.first);
      if shown.AlreadyPaid? || answers.first == Some(Verdict.Pending) {
        return;
      }
      var e := TransitionAttemptLocked(db, a, AttemptStatus.Expired);
      current := GetOrCreateCurrentAttempt(db, k, answers.spare);
    } else if row.status.LinkCreated? && answers.tooOld {
      var e := TransitionAttemptLocked(db, a, AttemptStatus.Expired);
      current := GetOrCreateCurrentAttempt(db, k, answers.spare);
    }
    if current.Integrity? {
      return Refused;
    }
    assert OfferedOrReplaced(old(db.State()), k, a, answers) == Offered(db.State(), current.a, answers);
    shown := Offer(db, current.a, answers);
  }

  lemma PayBegins(db: Db, o: OrderId, answers: Answers)
    requires o < |db.orders|
    ensures var k := NextOutstanding(db.installments, o, 1, db.orders[o].count);
      k.Some? && !CurrentAttempt(db.attempts, k.value).Integrity? ==>
        Pay(db, o, answers) == OfferedOrReplaced(AfterCurrentAttempt(db, k.value, answers.product), k.value,
                                                 CurrentAttempt(db.attempts, k.value).a, answers)
  {
  }

  /** _pay_outstanding_installment, undisturbed: between its sections other transactions may
      run, which is what the steps are for. */
  method PayOutstandingInstallment(db: Database, o: OrderId, answers: Answers) returns (shown: Shown)
    requires o < |db.orders|
    modifies db`attempts
    ensures (db.State(), shown) == Pay(old(db.State()), o, answers)
  {
    var k := NextOutstanding(db.installments, o, 1, db.orders[o].count);
    if k.None? {
      return NoPaymentDue;
    }
    var current := GetOrCreateCurrentAttempt(db, k.value, answers.product);
    if current.Integrity? {
      return Refused;
    }
    PayBegins(old(db.State()), o, answers);
    shown := OfferOrReplace(db, k.value, current.a, answers);
  }

  // ----- a checkout is a run -----

  predicate IsCheckout(step: S.Step) {
    step.CurrentAttempt? || step.SaveLink? || step.Move? || step.Recheck?
  }

  ghost predicate RunsTo(db: Db, steps: seq<S.Step>, db': Db) {
    Inv(db) && (forall i | 0 <= i < |steps| :: IsCheckout(steps[i])) && R.Run(db, steps) == db'
  }

  lemma NoStep(db: Db)
    requires Inv(db)
    ensures RunsTo(db, [], db)
  {
  }

  lemma ByOne(db: Db, step: S.Step, db': Db)
    requires Inv(db) && IsCheckout(step) && S.Apply(db, step) == db'
    ensures RunsTo(db, [step], db') && Inv(db')
  {
    R.StepIsGood(db, step);
    R.OneStep(db, step);
  }

  lemma ByMove(db: Db, a: AttemptId, status: AttemptStatus)
    requires Inv(db) && a < |db.attempts| && (status.Failed? || status.Expired? || status.Unknown?)
    ensures RunsTo(db, [S.Move(a, status)], AfterMove(db, a, status)) && Inv(AfterMove(db, a, status))
  {
    F.MoveDoes(db, a, status);
    ByOne(db, S.Move(a, status), AfterMove(db, a, status));
  }

  lemma ByBoth(db: Db, some: seq<S.Step>, middle: Db, more: seq<S.Step>, db': Db)
    requires RunsTo(db, some, middle) && RunsTo(middle, more, db')
    ensures RunsTo(db, some + more, db')
  {
    R.RunConcat(db, some, more);
  }

  lemma OfferedIsARun(db: Db, a: AttemptId, answers: Answers) returns (steps: seq<S.Step>)
    requires Inv(db) && a < |db.attempts|
    ensures RunsTo(db, steps, Offered(db, a, answers).0)
  {
    var db' := Offered(db, a, answers).0;
    NoStep(db);
    if db' == db {
      return [];
    }
    var step := if db.attempts[a].status.Unknown?
      then (if answers.second == Some(Verdict.Success) then S.Recheck(a) else S.Move(a, AttemptStatus.Failed))
      else match answers.link
        case Issued(general, _) => S.SaveLink(a, general)
        case Indeterminate => S.Move(a, AttemptStatus.Unknown)
        case _ => S.Move(a, AttemptStatus.Failed);
    OfferedByOne(db, a, answers, step);
    ByOne(db, step, db');
    steps := [step];
  }

  lemma OfferedByOne(db: Db, a: AttemptId, answers: Answers, step: S.Step)
    requires Linked(db) && a < |db.attempts| && Offered(db, a, answers).0 != db
    requires step == if db.attempts[a].status.Unknown?
      then (if answers.second == Some(Verdict.Success) then S.Recheck(a) else S.Move(a, AttemptStatus.Failed))
      else match answers.link
        case Issued(general, _) => S.SaveLink(a, general)
        case Indeterminate => S.Move(a, AttemptStatus.Unknown)
        case _ => S.Move(a, AttemptStatus.Failed)
    ensures S.Apply(db, step) == Offered(db, a, answers).0
  {
  }

  lemma ExpiringIsARun(db: Db, a: AttemptId) returns (steps: seq<S.Step>)
    requires Inv(db) && a < |db.attempts|
    ensures RunsTo(db, steps, AfterMove(db, a, AttemptStatus.Expired))
  {
    steps := [S.Move(a, AttemptStatus.Expired)];
    ByMove(db, a, AttemptStatus.Expired);
  }

  lemma VacatedIs(db: Db, a: AttemptId, answers: Answers)
    requires a < |db.attempts| && Replaces(db.attempts[a], answers)
    ensures var failed := AfterMove(db, a, AttemptStatus.Failed);
      Vacated(db, a, answers) ==
        if NeverSeen(db.attempts[a]) && answers.first == Some(Verdict.Failure)
          then AfterMove(failed, a, AttemptStatus.Expired)
        else AfterMove(db, a, AttemptStatus.Expired)
  {
  }

  lemma VacatedIsARun(db: Db, a: AttemptId, answers: Answers) returns (steps: seq<S.Step>)
    requires Inv(db) && a < |db.attempts| && Replaces(db.attempts[a], answers)
    ensures RunsTo(db, steps, Vacated(db, a, answers))
  {
    VacatedIs(db, a, answers);
    if NeverSeen(db.attempts[a]) && answers.first == Some(Verdict.Failure) {
      var failed := AfterMove(db, a, AttemptStatus.Failed);
      steps := [S.Move(a, AttemptStatus.Failed)];
      ByMove(db, a, AttemptStatus.Failed);
      var more := ExpiringIsARun(failed, a);
      ByBoth(db, steps, failed, more, AfterMove(failed, a, AttemptStatus.Expired));
      steps := steps + more;
    } else {
      steps := ExpiringIsARun(db, a);
    }
  }

  /** The attempt to go on with, created if need be. */
  lemma CurrentIsARun(db: Db, k: InstallmentKey, product: string) returns (steps: seq<S.Step>)
    requires Inv(db) && k in db.installments && FreshProduct(db, product)
    ensures RunsTo(db, steps, AfterCurrentAttempt(db, k, product)) && Inv(AfterCurrentAttempt(db, k, product))
  {
    steps := [S.CurrentAttempt(k, product)];
    F.CurrentAttemptDoes(db, k, product);
    ByOne(db, steps[0], AfterCurrentAttempt(db, k, product));
  }

  lemma VacatedIsFresh(db: Db, a: AttemptId, answers: Answers, product: string)
    requires a < |db.attempts| && FreshProduct(db, product)
    ensures FreshProduct(Vacated(db, a, answers), product) && Vacated(db, a, answers).installments == db.installments
    ensures |Vacated(db, a, answers).attempts| == |db.attempts|
  {
  }

  lemma RenewedIsARun(vacated: Db, k: InstallmentKey, answers: Answers) returns (steps: seq<S.Step>)
    requires Inv(vacated) && k in vacated.installments && FreshProduct(vacated, answers.spare)
    ensures RunsTo(vacated, steps, Renewed(vacated, k, answers).0)
  {
    steps := [];
    NoStep(vacated);
    var current := CurrentAttempt(vacated.attempts, k);
    if !current.Integrity? {
      var begun := AfterCurrentAttempt(vacated, k, answers.spare);
      steps := CurrentIsARun(vacated, k, answers.spare);
      var last := OfferedIsARun(begun, current.a, answers);
      ByBoth(vacated, steps, begun, last, Renewed(vacated, k, answers).0);
      steps := steps + last;
    }
  }

  lemma AskedIsARun(db: Db, a: AttemptId, reply: Option<Verdict>) returns (steps: seq<S.Step>)
    requires Inv(db) && a < |db.attempts| && db.attempts[a].status.Unknown? && Conclusive(reply)
    ensures RunsTo(db, steps, AfterAsking(db, a, reply))
  {
    steps := [];
    NoStep(db);
    if reply == Some(Verdict.Success) {
      steps := [S.Recheck(a)];
      ByOne(db, S.Recheck(a), AfterAsking(db, a, reply));
    }
  }

  lemma OfferedOrReplacedIsARun(db: Db, k: InstallmentKey, a: AttemptId, answers: Answers) returns (steps: seq<S.Step>)
    requires Inv(db) && k in db.installments && a < |db.attempts| && FreshProduct(db, answers.spare)
    ensures RunsTo(db, steps, OfferedOrReplaced(db, k, a, answers).0)
  {
    if Replaces(db.attempts[a], answers) {
      var vacated := Vacated(db, a, answers);
      steps := VacatedIsARun(db, a, answers);
      VacatedIsFresh(db, a, answers, answers.spare);
      var more := RenewedIsARun(vacated, k, answers);
      ByBoth(db, steps, vacated, more, Renewed(vacated, k, answers).0);
      steps := steps + more;
    } else if NeverSeen(db.attempts[a]) {
      steps := AskedIsARun(db, a, answers.first);
    } else {
      steps := OfferedIsARun(db, a, answers);
    }
  }

  lemma PayOneIsARun(db: Db, k: InstallmentKey, answers: Answers, current: Current) returns (steps: seq<S.Step>)
    requires Inv(db) && k in db.installments && current == CurrentAttempt(db.attempts, k) && !current.Integrity?
    requires FreshProduct(db, answers.product) && FreshProduct(db, answers.spare) && answers.product != answers.spare
    ensures current.a < |AfterCurrentAttempt(db, k, answers.product).attempts|
    ensures RunsTo(db, steps, OfferedOrReplaced(AfterCurrentAttempt(db, k, answers.product), k, current.a, answers).0)
  {
    var begun := AfterCurrentAttempt(db, k, answers.product);
    steps := CurrentIsARun(db, k, answers.product);
    var more := OfferedOrReplacedIsARun(begun, k, current.a, answers);
    ByBoth(db, steps, begun, more, OfferedOrReplaced(begun, k, current.a, answers).0);
    steps := steps + more;
  }

  /** A whole checkout is a run of checkout steps: it keeps the invariant, credits nothing, and
      all that holds over runs holds for it. */
  lemma PayIsARun(db: Db, o: OrderId, answers: Answers) returns (steps: seq<S.Step>)
    requires Inv(db) && o < |db.orders|
    requires FreshProduct(db, answers.product) && FreshProduct(db, answers.spare) && answers.product != answers.spare
    ensures RunsTo(db, steps, Pay(db, o, answers).0)
  {
    var k := NextOutstanding(db.installments, o, 1, db.orders[o].count);
    if k.Some? && !CurrentAttempt(db.attempts, k.value).Integrity? {
      steps := PayOneIsARun(db, k.value, answers, CurrentAttempt(db.attempts, k.value));
    } else {
      steps := [];
      NoStep(db);
    }
  }

  // ----- what it promises -----

  /** A newer attempt takes the place of an unfinished one only if Tara never delivered that
      one's link and has nothing on it, or the link was issued long ago; the old attempt is then
      closed.  A PENDING attempt is never replaced. */
  lemma LivePaymentsAreNotReplaced(db: Db, o: OrderId, answers: Answers, k: InstallmentKey, a: AttemptId)
    requires o < |db.orders| && NextOutstanding(db.installments, o, 1, db.orders[o].count) == Some(k)
    requires CurrentAttempt(db.attempts, k) == Existing(a)
    ensures var attempts := Pay(db, o, answers).0.attempts;
      && a < |attempts| && !IsClosed(db.attempts[a].status)
      && (|attempts| > |db.attempts| ==> IsClosed(attempts[a].status))
      && (|attempts| > |db.attempts| && !(db.attempts[a].status.LinkCreated? && answers.tooOld) ==>
            db.attempts[a].status.Unknown? && !Present(db.attempts[a].link)
            && answers.first !in {Some(Verdict.Success), Some(Verdict.Pending)})
      && (db.attempts[a].status.Pending? && Present(db.attempts[a].link) ==> Pay(db, o, answers) == (db, LinkReady))
  {
    if Replaces(db.attempts[a], answers) {
      ReplacedIsClosed(db, k, a, answers);
    }
  }

  lemma VacatedIsClosed(db: Db, k: InstallmentKey, a: AttemptId, answers: Answers)
    requires a < |db.attempts| && Replaces(db.attempts[a], answers) && Latest(db.attempts, k, |db.attempts|) == Some(a)
    ensures var attempts := Vacated(db, a, answers).attempts;
      |attempts| == |db.attempts| && IsClosed(attempts[a].status) && !CurrentAttempt(attempts, k).Existing?
  {
    SameCurrent(db.attempts, Vacated(db, a, answers).attempts, k, |db.attempts|);
  }

  lemma RenewedKeepsOld(vacated: Db, k: InstallmentKey, a: AttemptId, answers: Answers)
    requires k in vacated.installments && a < |vacated.attempts| && !CurrentAttempt(vacated.attempts, k).Existing?
    ensures var attempts := Renewed(vacated, k, answers).0.attempts;
      a < |attempts| && attempts[a] == vacated.attempts[a]
  {
  }

  lemma ReplacedIsClosed(db: Db, k: InstallmentKey, a: AttemptId, answers: Answers)
    requires k in db.installments && a < |db.attempts| && Replaces(db.attempts[a], answers)
    requires Latest(db.attempts, k, |db.attempts|) == Some(a)
    ensures var attempts := OfferedOrReplaced(db, k, a, answers).0.attempts;
      a < |attempts| && IsClosed(attempts[a].status)
  {
    VacatedIsClosed(db, k, a, answers);
    RenewedKeepsOld(Vacated(db, a, answers), k, a, answers);
  }

  lemma {:induction false} SameCurrent(attempts: seq<Attempt>, attempts': seq<Attempt>, k: InstallmentKey, n: nat)
    requires n <= |attempts| == |attempts'|
    requires forall x | 0 <= x < |attempts| :: attempts'[x].installment == attempts[x].installment
    ensures Latest(attempts', k, n) == Latest(attempts, k, n)
  {
    if n == 0 {
    } else {
      SameCurrent(attempts, attempts', k, n - 1);
    }
  }

  lemma OfferedIsLive(db: Db, a: AttemptId, answers: Answers)
    requires a < |db.attempts| && !IsClosed(db.attempts[a].status) && Offered(db, a, answers).1.LinkReady?
    ensures var row := Offered(db, a, answers).0.attempts[a];
      row.installment == db.attempts[a].installment && (row.status.LinkCreated? || row.status.Pending?)
  {
  }

  /** Installment k of order o is open, and those before it are not. */
  predicate IsFirstOpen(installments: map<InstallmentKey, Installment>, o: OrderId, k: InstallmentKey) {
    && k in installments && k.order == o && IsOpen(installments[k].status)
    && forall n: nat | 1 <= n < k.sequence ::
      InstallmentKey(o, n) in installments ==> !IsOpen(installments[InstallmentKey(o, n)].status)
  }

  /** When a payment link is shown, its attempt can be paid, belongs to the first installment
      still due, and is that installment's only active attempt. */
  lemma ShownLinkIsTheOnlyOne(db: Db, o: OrderId, answers: Answers) returns (b: AttemptId)
    requires Inv(db) && o < |db.orders|
    requires FreshProduct(db, answers.product) && FreshProduct(db, answers.spare) && answers.product != answers.spare
    requires Pay(db, o, answers).1.LinkReady?
    ensures var attempts := Pay(db, o, answers).0.attempts;
      && b < |attempts| && IsFirstOpen(db.installments, o, attempts[b].installment)
      && (attempts[b].status.LinkCreated? || attempts[b].status.Pending?)
      && forall x | 0 <= x < |attempts| && x != b && attempts[x].installment == attempts[b].installment ::
        !IsActive(attempts[x].status)
  {
    var k := NextOutstanding(db.installments, o, 1, db.orders[o].count).value;
    b := ShownAttempt(db, o, k, answers);
    var steps := PayIsARun(db, o, answers);
    var attempts := Pay(db, o, answers).0.attempts;
    forall x | 0 <= x < |attempts| && x != b && attempts[x].installment == attempts[b].installment
      ensures !IsActive(attempts[x].status)
    {
      assert x < b || b < x;
    }
  }

  lemma RenewedIsLive(vacated: Db, k: InstallmentKey, answers: Answers) returns (b: AttemptId)
    requires k in vacated.installments && Renewed(vacated, k, answers).1.LinkReady?
    ensures Live(Renewed(vacated, k, answers).0.attempts, k, b)
  {
    b := CurrentAttempt(vacated.attempts, k).a;
    OfferedIsLive(AfterCurrentAttempt(vacated, k, answers.spare), b, answers);
  }

  ghost predicate Live(attempts: seq<Attempt>, k: InstallmentKey, b: AttemptId) {
    b < |attempts| && attempts[b].installment == k && (attempts[b].status.LinkCreated? || attempts[b].status.Pending?)
  }

  lemma ShownAttempt(db: Db, o: OrderId, k: InstallmentKey, answers: Answers) returns (b: AttemptId)
    requires o < |db.orders| && NextOutstanding(db.installments, o, 1, db.orders[o].count) == Some(k)
    requires Pay(db, o, answers).1.LinkReady?
    ensures Live(Pay(db, o, answers).0.attempts, k, b)
  {
    var a := CurrentAttempt(db.attempts, k).a;
    var begun := AfterCurrentAttempt(db, k, answers.product);
    assert Pay(db, o, answers) == OfferedOrReplaced(begun, k, a, answers);
    if Replaces(begun.attempts[a], answers) {
      b := RenewedIsLive(Vacated(begun, a, answers), k, answers);
    } else {
      b := a;
      if !NeverSeen(begun.attempts[a]) {
        OfferedIsLive(begun, a, answers);
      }
    }
  }
}
