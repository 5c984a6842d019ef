/** PaymentConfirmationDeliveryService: one confirmation e-mail, any number of workers. */
module Deliveries {
  import opened Models

  const MAX_TRIES := 5
  const BACKOFF_MINUTES: seq<int> := [1, 5, 15, 60]

  predicate Claimable(row: Confirmation) {
    row.status.Pending? || row.status.Failed?
  }

  predicate Claims(row: Confirmation) {
    Claimable(row) && row.tries < MAX_TRIES
  }

  function AfterClaim(row: Confirmation): Confirmation {
    if !Claimable(row) then row
    else if row.tries >= MAX_TRIES then row.(status := DeliveryStatus.ManualReview, nextTry := None)
    else row.(status := DeliveryStatus.Sending, tries := row.tries + 1)
  }

  /** Python's indexing, where -1 is the last element. */
  function Indexed(table: seq<int>, i: int): int
    requires -|table| <= i < |table|
  {
    if i < 0 then table[|table| + i] else table[i]
  }

  function Backoff(tries: nat): int {
    Indexed(BACKOFF_MINUTES, if tries - 1 <= 3 then tries - 1 else 3)
  }

  datatype Ending = Delivered | Retryable | Review

  /** How a worker ends: _mark_sent, _finish_retryable_failure or _finish_manual_review.  None
      of them looks at the current status. */
  function AfterEnd(row: Confirmation, ending: Ending, now: int): Confirmation {
    match ending
    case Delivered => row.(status := DeliveryStatus.Sent, nextTry := None)
    case Review => row.(status := DeliveryStatus.ManualReview, nextTry := None)
    case Retryable =>
      if row.tries >= MAX_TRIES then row.(status := DeliveryStatus.ManualReview, nextTry := None)
      else row.(status := DeliveryStatus.Failed, nextTry := Some(now + Backoff(row.tries)))
  }

  /** release_stuck_sends, for a row whose last change is old enough. */
  function AfterRelease(row: Confirmation, now: int): Confirmation {
    if row.status.Sending? then row.(status := DeliveryStatus.Failed, nextTry := Some(now)) else row
  }

  /** retry_confirmation for a customer who has an address. */
  function AfterRetry(row: Confirmation): Confirmation {
    if row.status.Failed? || row.status.ManualReview? then Confirmation(DeliveryStatus.Pending, 0, None) else row
  }

  // ----- the worker -----

  method Claim(db: Database, key: ConfirmationKey) returns (claimed: bool)
    requires key in db.confirmations
    modifies db`confirmations
    ensures claimed == Claims(old(db.confirmations[key]))
    ensures db.confirmations == old(db.confirmations)[key := AfterClaim(old(db.confirmations[key]))]
  {
    var row := db.confirmations[key];
    if !(row.status.Pending? || row.status.Failed?) {
      return false;
    }
    if row.tries >= MAX_TRIES {
      db.confirmations := db.confirmations[key := row.(status := DeliveryStatus.ManualReview, nextTry := None)];
      return false;
    }
    db.confirmations := db.confirmations[key := row.(status := DeliveryStatus.Sending, tries := row.tries + 1)];
    return true;
  }

  method FinishRetryableFailure(db: Database, key: ConfirmationKey, now: int)
    requires key in db.confirmations
    modifies db`confirmations
    ensures db.confirmations == old(db.confirmations)[key := AfterEnd(old(db.confirmations[key]), Retryable, now)]
  {
    var row := db.confirmations[key];
    if row.tries >= MAX_TRIES {
      row := row.(status := DeliveryStatus.ManualReview, nextTry := None);
    } else {
      var index := if row.tries - 1 <= |BACKOFF_MINUTES| - 1 then row.tries - 1 else |BACKOFF_MINUTES| - 1;
      row := row.(status := DeliveryStatus.Failed, nextTry := Some(now + Indexed(BACKOFF_MINUTES, index)));
    }
    db.confirmations := db.confirmations[key := row];
  }

  method MarkSent(db: Database, key: ConfirmationKey)
    requires key in db.confirmations
    modifies db`confirmations
    ensures db.confirmations == old(db.confirmations)[key := AfterEnd(old(db.confirmations[key]), Delivered, 0)]
  {
    db.confirmations := db.confirmations[key := db.confirmations[key].(status := DeliveryStatus.Sent, nextTry := None)];
  }

  method FinishManualReview(db: Database, key: ConfirmationKey)
    requires key in db.confirmations
    modifies db`confirmations
    ensures db.confirmations == old(db.confirmations)[key := AfterEnd(old(db.confirmations[key]), Review, 0)]
  {
    db.confirmations :=
      db.confirmations[key := db.confirmations[key].(status := DeliveryStatus.ManualReview, nextTry := None)];
  }

  /** release_stuck_sends, as far as this row is concerned. */
  method ReleaseStuckSend(db: Database, key: ConfirmationKey, now: int)
    requires key in db.confirmations
    modifies db`confirmations
    ensures db.confirmations == old(db.confirmations)[key := AfterRelease(old(db.confirmations[key]), now)]
  {
    var row := db.confirmations[key];
    if row.status.Sending? {
      db.confirmations := db.confirmations[key := row.(status := DeliveryStatus.Failed, nextTry := Some(now))];
    }
  }

  method RetryConfirmation(db: Database, key: ConfirmationKey) returns (done: bool)
    requires key in db.confirmations
    modifies db`confirmations
    ensures done == (old(db.confirmations[key]).status.Failed? || old(db.confirmations[key]).status.ManualReview?)
    ensures db.confirmations == old(db.confirmations)[key := AfterRetry(old(db.confirmations[key]))]
  {
    var row := db.confirmations[key];
    if row.status.Sent? {
      return false;
    }
    if !row.status.Failed? && !row.status.ManualReview? {
      return false;
    }
    db.confirmations := db.confirmations[key := row.(status := DeliveryStatus.Pending, tries := 0, nextTry := None)];
    return true;
  }

  /** The row after an undisturbed delivery: `sending` is what the mail server does with it. */
  function Processed(row: Confirmation, recipient: string, sending: Ending, now: int): Confirmation {
    if Claims(row) then AfterEnd(AfterClaim(row), if recipient == "" then Review else sending, now) else AfterClaim(row)
  }

  /** _process_one, undisturbed. */
  method ProcessOne(db: Database, key: ConfirmationKey, sending: Ending, now: int)
    requires key in db.confirmations
    modifies db`confirmations
    ensures db.confirmations ==
      old(db.confirmations)[key := Processed(old(db.confirmations[key]), key.recipient, sending, now)]
  {
    var claimed := Claim(db, key);
    if !claimed {
      return;
    }
    if key.recipient == "" || sending.Review? {
      FinishManualReview(db, key);
    } else if sending.Retryable? {
      FinishRetryableFailure(db, key, now);
    } else {
      MarkSent(db, key);
    }
  }

  // ----- interleavings -----

  /** One confirmation and the number of workers between their claim and their end. */
  datatype Machine = Machine(row: Confirmation, sending: nat)

  datatype Action = Enter | End(ending: Ending, now: int) | Stop | Release(now: int) | Retry

  /** What the action does to the row of the confirmation. */
  function RowAfter(row: Confirmation, act: Action): Confirmation {
    match act
    case Enter => AfterClaim(row)
    case End(ending, now) => AfterEnd(row, ending, now)
    case Stop => row
    case Release(now) => AfterRelease(row, now)
    case Retry => AfterRetry(row)
  }

  function SendingAfter(m: Machine, act: Action): nat
    requires act.End? || act.Stop? ==> m.sending > 0
  {
    match act
    case Enter => if Claims(m.row) then m.sending + 1 else m.sending
    case End(_, _) => m.sending - 1
    case Stop => m.sending - 1
    case _ => m.sending
  }

  function Next(m: Machine, act: Action): Machine {
    if (act.End? || act.Stop?) && m.sending == 0 then m else Machine(RowAfter(m.row, act), SendingAfter(m, act))
  }

  function RunAll(m: Machine, acts: seq<Action>): Machine
    decreases |acts|
  {
    if acts == [] then m else RunAll(Next(m, acts[0]), acts[1..])
  }

  function Entries(m: Machine, acts: seq<Action>): nat
    decreases |acts|
  {
    if acts == [] then 0 else (if acts[0].Enter? && Claims(m.row) then 1 else 0) + Entries(Next(m, acts[0]), acts[1..])
  }

  /** Messages that may have been handed to the mail server: each worker sends at most once,
      before its end, and one that dies may have sent before. */
  function Sends(m: Machine, acts: seq<Action>): nat
    decreases |acts|
  {
    if acts == [] then 0
    else (if (acts[0].End? || acts[0].Stop?) && m.sending > 0 then 1 else 0) + Sends(Next(m, acts[0]), acts[1..])
  }

  /** Between two staff retries at most five workers claim the message; besides them, only the
      workers that were already at it can still send.  Workers that die are counted. */
  lemma {:induction false} SendsAreBounded(m: Machine, acts: seq<Action>)
    requires m.row.tries <= MAX_TRIES
    requires forall i | 0 <= i < |acts| :: !acts[i].Retry?
    ensures m.row.tries + Entries(m, acts) == RunAll(m, acts).row.tries <= MAX_TRIES
    ensures Sends(m, acts) <= m.sending + Entries(m, acts)
    decreases |acts|
  {
    if acts == [] {
    } else {
      SendsAreBounded(Next(m, acts[0]), acts[1..]);
    }
  }

  function Rank(s: DeliveryStatus): nat {
    match s
    case Pending => 1
    case Failed => 1
    case Sending => 2
    case Sent => 0
    case ManualReview => 0
  }

  /** Bounds the automatic steps still possible. */
  function Potential(m: Machine): nat
    requires m.row.tries <= MAX_TRIES
  {
    5 * (MAX_TRIES - m.row.tries) + 3 * m.sending + Rank(m.row.status)
  }

  function Changes(m: Machine, acts: seq<Action>): nat
    decreases |acts|
  {
    if acts == [] then 0 else (if Next(m, acts[0]) != m then 1 else 0) + Changes(Next(m, acts[0]), acts[1..])
  }

  /** Delivery terminates: however workers, releases and crashes interleave, the number of
      steps that change anything is bounded until a person asks for a retry. */
  lemma {:induction false} DeliveryTerminates(m: Machine, acts: seq<Action>)
    requires m.row.tries <= MAX_TRIES
    requires forall i | 0 <= i < |acts| :: !acts[i].Retry?
    ensures RunAll(m, acts).row.tries <= MAX_TRIES
    ensures Changes(m, acts) + Potential(RunAll(m, acts)) <= Potential(m)
    decreases |acts|
  {
    if acts == [] {
    } else {
      DeliveryTerminates(Next(m, acts[0]), acts[1..]);
    }
  }

  /** Why the workers at it count in the measure: a worker that was overtaken by a release can
      end after another one has sent the message, and then SENT becomes FAILED again. */
  lemma SentIsNotFinal()
    ensures var m := Machine(Confirmation(DeliveryStatus.Pending, 0, None), 0);
      var overtaken := [Enter, Release(20), Enter, End(Delivered, 21)];
      && RunAll(m, overtaken).row.status.Sent?
      && RunAll(m, overtaken + [End(Retryable, 22)]).row.status.Failed?
  {
    var m := Machine(Confirmation(DeliveryStatus.Pending, 0, None), 0);
    var m1 := Next(m, Enter);
    var m2 := Next(m1, Release(20));
    var m3 := Next(m2, Enter);
    var m4 := Next(m3, End(Delivered, 21));
    var m5 := Next(m4, End(Retryable, 22));
    var overtaken := [Enter, Release(20), Enter, End(Delivered, 21)];
    assert RunAll(m4, []) == m4 && RunAll(m3, [End(Delivered, 21)]) == m4;
    assert RunAll(m2, [Enter, End(Delivered, 21)]) == m4;
    assert RunAll(m1, [Release(20), Enter, End(Delivered, 21)]) == m4;
    assert RunAll(m, overtaken) == m4;
    RunAppend(m, overtaken, End(Retryable, 22));
  }

  lemma {:induction false} SentStays(m: Machine, acts: seq<Action>)
    requires m.row.status.Sent? && m.sending == 0
    ensures RunAll(m, acts).row.status.Sent?
    decreases |acts|
  {
    if acts == [] {
    } else {
      if acts[0].Enter? || acts[0].Retry? {
        assert Next(m, acts[0]).row == m.row;
      }
      SentStays(Next(m, acts[0]), acts[1..]);
    }
  }

  /** SENT is final exactly when no other worker is still at the message. */
  lemma SentStaysIff(m: Machine)
    requires m.row.status.Sent?
    ensures (forall acts :: RunAll(m, acts).row.status.Sent?) <==> m.sending == 0
  {
    if m.sending == 0 {
      forall acts
        ensures RunAll(m, acts).row.status.Sent?
      {
        SentStays(m, acts);
      }
    } else {
      var overtaken := [End(Retryable, 0)];
      var ended := Next(m, overtaken[0]);
      assert RunAll(ended, overtaken[1..]) == ended;
      assert !RunAll(m, overtaken).row.status.Sent?;
    }
  }

  /** Tries left, then how far the status is from a final one. */
  function Measure(row: Confirmation): int {
    3 * (MAX_TRIES - row.tries) + Rank(row.status)
  }

  /** Every automatic action that changes the row decreases (tries left, status). */
  ghost predicate Decreases(m: Machine) {
    forall act: Action | !act.Retry? && Next(m, act).row != m.row :: Measure(Next(m, act).row) < Measure(m.row)
  }

  /** (Tries left, status) alone is a measure at exactly the rows without an overtaken worker:
      nobody is at the message, or it is still SENDING, or only a final status can follow. */
  lemma MeasureIff(m: Machine)
    requires m.row.tries <= MAX_TRIES
    ensures Decreases(m) <==>
      m.sending == 0 || m.row.status.Sending? || (Claimable(m.row) && m.row.tries == MAX_TRIES)
  {
    if m.sending > 0 && !m.row.status.Sending? && !(Claimable(m.row) && m.row.tries == MAX_TRIES) {
      var now := if m.row.nextTry == Some(Backoff(m.row.tries)) then 1 else 0;
      var late := if m.row.status.Sent? then End(Review, 0)
        else if m.row.status.ManualReview? then End(Delivered, 0)
        else End(Retryable, now);
      assert Next(m, late).row != m.row && Measure(Next(m, late).row) >= Measure(m.row);
    }
  }

  /** An undisturbed delivery is a run of the machine's actions. */
  lemma ProcessOneIsARun(row: Confirmation, recipient: string, sending: Ending, now: int) returns (acts: seq<Action>)
    ensures acts != [] && acts[0] == Enter
    ensures RunAll(Machine(row, 0), acts) == Machine(Processed(row, recipient, sending, now), 0)
  {
    var entered := Next(Machine(row, 0), Enter);
    acts := [Enter];
    if Claims(row) {
      var last := End(if recipient == "" then Review else sending, now);
      assert RunAll(Machine(row, 0), acts) == RunAll(entered, []) == entered;
      RunAppend(Machine(row, 0), acts, last);
      acts := acts + [last];
    } else {
      assert RunAll(entered, []) == entered;
    }
  }

  lemma {:induction false} RunAppend(m: Machine, acts: seq<Action>, last: Action)
    ensures RunAll(m, acts + [last]) == Next(RunAll(m, acts), last)
    decreases |acts|
  {
    if acts == [] {
      assert RunAll(Next(m, last), []) == Next(m, last);
    } else {
      RunAppend(Next(m, acts[0]), acts[1..], last);
      assert (acts + [last])[1..] == acts[1..] + [last];
    }
  }

  // ----- how one delivery ends -----

  /** Minutes until the next try, by the tries made. */
  predicate Waits(tries: nat, minutes: int) {
    && (tries == 1 ==> minutes == 1) && (tries == 2 ==> minutes == 5) && (tries == 3 ==> minutes == 15)
    && (tries == 4 ==> minutes == 60)
  }

  /** Each status, and when an undisturbed delivery of a message ends in it. */
  lemma DeliveryEnds(row: Confirmation, recipient: string, sending: Ending, now: int)
    requires row.tries <= 5
    ensures var row' := Processed(row, recipient, sending, now);
      var idle := row.status !in {DeliveryStatus.Pending, DeliveryStatus.Failed}; var tried := !idle && row.tries < 5;
      && (idle ==> row' == row)
      && row'.tries == (if tried then row.tries + 1 else row.tries)
      && (!idle ==>
            && (row'.status.Sent? <==> tried && recipient != "" && sending.Delivered?)
            && (row'.status.Failed? <==> tried && recipient != "" && sending.Retryable? && row.tries < 4)
            && (row'.status.ManualReview? <==> !row'.status.Sent? && !row'.status.Failed?)
            && (row'.status.Failed? ==> row'.nextTry.Some? && Waits(row'.tries, row'.nextTry.value - now))
            && (!row'.status.Failed? ==> row'.nextTry.None?))
  {
  }

  /** A claim takes what waits and has tries left, and sends it; it gives up what has none. */
  lemma ClaimedIff(row: Confirmation)
    ensures var row' := AfterClaim(row); var waits := row.status in {DeliveryStatus.Pending, DeliveryStatus.Failed};
      && (row'.status.Sending? <==> row.status.Sending? || (waits && row.tries < 5))
      && (row'.status.ManualReview? <==> row.status.ManualReview? || (waits && row.tries >= 5))
      && row'.tries == (if waits && row.tries < 5 then row.tries + 1 else row.tries)
  {
  }

  /** A message given up after its five tries is sent again once staff put it back; nothing else is:
      not one that was sent. */
  lemma GivenUpIsSentAgainIff(row: Confirmation)
    requires row.tries >= 5 && !row.status.Sending?
    ensures var row' := AfterClaim(AfterRetry(row));
      && (row'.status.Sending? <==> row.status in {DeliveryStatus.Failed, DeliveryStatus.ManualReview})
      && (row'.status.Sending? ==> row'.tries == 1 && row'.nextTry.None?)
      && (row.status.Sent? ==> row' == row)
  {
  }

  /** A release makes what is being sent due at once, keeps its tries, and leaves the rest alone. */
  lemma ReleasedIff(row: Confirmation, now: int)
    ensures var row' := AfterRelease(row, now);
      && (row' != row <==> row.status.Sending?)
      && (row' != row ==> row'.status.Failed? && row'.nextTry == Some(now) && row'.tries == row.tries)
  {
  }
}
