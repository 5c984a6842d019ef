/** ProvisioningService: one durable request, any number of workers. */
module Provisioning {
  import opened Models

  const MAX_TRIES := 5
  const MAX_INLINE_RETRIES := 2
  const BACKOFF_SECONDS: seq<nat> := [1, 3]

  // ----- _enroll_with_retry -----

  /** One enrollment call; `id` says whether ClickFunnels named the enrollment. */
  datatype Reply = Enrolled(id: bool) | Declined | Unauthorized | RateLimited | ServerError | ClientError | OtherError

  datatype Result = Success(id: bool) | Transient | Permanent

  /** 429 and 5xx answers are the only ones worth another call. */
  predicate Retried(r: Reply) {
    r.RateLimited? || r.ServerError?
  }

  function ResultOf(r: Reply): Result {
    match r
    case Enrolled(id) => Success(id)
    case Declined => Transient
    case RateLimited => Transient
    case ServerError => Transient
    case _ => Permanent
  }

  /** At most three calls, the last being the first whose answer is not worth a retry; the
      backoff table is never indexed out of range. */
  method EnrollWithRetry(replies: nat -> Reply) returns (result: Result, calls: nat)
    ensures 1 <= calls <= MAX_INLINE_RETRIES + 1
    ensures forall i | 0 <= i < calls - 1 :: Retried(replies(i))
    ensures Retried(replies(calls - 1)) ==> calls == MAX_INLINE_RETRIES + 1
    ensures result == ResultOf(replies(calls - 1))
  {
    var attempts, slept := 0, 0;
    while true
      invariant 0 <= attempts <= MAX_INLINE_RETRIES
      invariant forall i | 0 <= i < attempts :: Retried(replies(i))
      decreases MAX_INLINE_RETRIES - attempts
    {
      var reply := replies(attempts);
      if !Retried(reply) {
        return ResultOf(reply), attempts + 1;
      }
      if attempts >= MAX_INLINE_RETRIES {
        return Transient, attempts + 1;
      }
      slept := slept + BACKOFF_SECONDS[attempts];
      attempts := attempts + 1;
    }
  }

  // ----- one request row -----

  predicate Claimable(row: Request) {
    row.status.Pending? || row.status.Failed?
  }

  /** _claim: taken, or given up for a person when the tries are used up. */
  function AfterClaim(row: Request): Request {
    if !Claimable(row) then row
    else if row.tries >= MAX_TRIES then row.(status := RequestStatus.ManualReview)
    else row.(status := RequestStatus.InProgress, tries := row.tries + 1)
  }

  predicate Claims(row: Request) {
    Claimable(row) && row.tries < MAX_TRIES
  }

  /** The ProvisioningAttempt row that follows the enrollment call. */
  function Recorded(row: Request, result: Result): Request {
    if result.Success?
    then row.(successes := row.successes + 1, access := if result.id then Some(false) else row.access)
    else row
  }

  function StatusAfter(result: Result): RequestStatus {
    match result
    case Success(_) => RequestStatus.Completed
    case Transient => RequestStatus.Failed
    case Permanent => RequestStatus.ManualReview
  }

  /** retry_request, which refuses COMPLETED requests and those under way. */
  predicate Retriable(row: Request, eligible: bool) {
    (row.status.Failed? || row.status.ManualReview?) && eligible
  }

  function AfterRetry(row: Request, eligible: bool): Request {
    if Retriable(row, eligible) then row.(status := RequestStatus.Pending, tries := 0) else row
  }

  method RetryRequest(db: Database, r: RequestId) returns (done: bool)
    requires r < |db.requests| && db.requests[r].order < |db.orders|
    modifies db`requests
    ensures done == Retriable(old(db.requests[r]), Eligible(old(db.State()), old(db.requests[r].order)))
    ensures db.requests == old(db.requests)[r :=
      AfterRetry(old(db.requests[r]), Eligible(old(db.State()), old(db.requests[r].order)))]
  {
    var row := db.requests[r];
    if row.status.Completed? {
      return false;
    }
    if !row.status.Failed? && !row.status.ManualReview? {
      return false;
    }
    if !Eligible(db.State(), row.order) {
      return false;
    }
    db.requests := db.requests[r := row.(status := RequestStatus.Pending, tries := 0)];
    return true;
  }

  method Claim(db: Database, r: RequestId) returns (claimed: bool)
    requires r < |db.requests|
    modifies db`requests
    ensures claimed == Claims(old(db.requests[r]))
    ensures db.requests == old(db.requests)[r := AfterClaim(old(db.requests[r]))]
  {
    var row := db.requests[r];
    if !(row.status.Pending? || row.status.Failed?) {
      return false;
    }
    if row.tries >= MAX_TRIES {
      db.requests := db.requests[r := row.(status := RequestStatus.ManualReview)];
      return false;
    }
    db.requests := db.requests[r := row.(status := RequestStatus.InProgress, tries := row.tries + 1)];
    return true;
  }

  /** _finish_non_retryable. */
  method FinishNonRetryable(db: Database, r: RequestId)
    requires r < |db.requests|
    modifies db`requests
    ensures db.requests == old(db.requests)[r := old(db.requests[r]).(status := RequestStatus.ManualReview)]
  {
    db.requests := db.requests[r := db.requests[r].(status := RequestStatus.ManualReview)];
  }

  /** The ProvisioningAttempt that records one enrollment: only a success leaves a trace here. */
  method RecordAttempt(db: Database, r: RequestId, result: Result)
    requires r < |db.requests|
    modifies db`requests
    ensures db.requests == old(db.requests)[r := Recorded(old(db.requests[r]), result)]
  {
    var row := db.requests[r];
    if result.Success? {
      row := row.(successes := row.successes + 1);
      if result.id {
        row := row.(access := Some(false));
      }
    }
    db.requests := db.requests[r := row];
  }

  /** The end of execute. */
  method SaveConclusion(db: Database, r: RequestId, result: Result)
    requires r < |db.requests|
    modifies db`requests
    ensures db.requests == old(db.requests)[r := old(db.requests[r]).(status := StatusAfter(result))]
  {
    var status := RequestStatus.Completed;
    if result.Permanent? {
      status := RequestStatus.ManualReview;
    } else if result.Transient? {
      status := RequestStatus.Failed;
    }
    db.requests := db.requests[r := db.requests[r].(status := status)];
  }

  /** The row after a whole undisturbed execute; `ready` says that the customer's address, the
      course and the ClickFunnels configuration are all there. */
  ghost predicate Executed(row: Request, row': Request, ready: bool, replies: nat -> Reply) {
    if !Claims(row) then row' == AfterClaim(row)
    else
      var claimed := AfterClaim(row);
      if !ready then row' == claimed.(status := RequestStatus.ManualReview)
      else if row.successes > 0 then row' == claimed.(status := RequestStatus.Completed)
      else exists i: nat ::
        && i <= MAX_INLINE_RETRIES
        && (forall j: nat | j < i :: Retried(replies(j)))
        && (Retried(replies(i)) ==> i == MAX_INLINE_RETRIES)
        && row' == Recorded(claimed, ResultOf(replies(i))).(status := StatusAfter(ResultOf(replies(i))))
  }

  /** execute: claim, enroll unless a success is on record, record the try, conclude. */
  method Execute(db: Database, r: RequestId, ready: bool, replies: nat -> Reply)
    requires r < |db.requests|
    modifies db`requests
    ensures |db.requests| == |old(db.requests)| && db.requests == old(db.requests)[r := db.requests[r]]
    ensures Executed(old(db.requests[r]), db.requests[r], ready, replies)
  {
    var claimed := Claim(db, r);
    if !claimed {
      return;
    }
    if !ready {
      FinishNonRetryable(db, r);
      return;
    }
    var result := Success(false);
    if db.requests[r].successes == 0 {
      var calls;
      result, calls := EnrollWithRetry(replies);
      RecordAttempt(db, r, result);
      assert result == ResultOf(replies(calls - 1));
    }
    SaveConclusion(db, r, result);
  }

  // ----- interleavings -----

  datatype Stage = Entered | Tried(result: Result)

  /** One request and the workers inside execute, each after the step it last committed. */
  datatype Machine = Machine(row: Request, workers: map<nat, Stage>)

  datatype Action =
    | Enter(worker: nat)                   // _claim
    | Abandon(worker: nat)                 // a prerequisite is missing
    | Try(worker: nat, result: Result)     // enrollment, and its ProvisioningAttempt
    | Conclude(worker: nat, result: Result) // the final status is saved
    | Stop(worker: nat)                    // the process dies
    | Retry(eligible: bool)                // a staff retry

  /** What the action does to the row of the request. */
  function RowAfter(row: Request, act: Action): Request {
    match act
    case Enter(_) => AfterClaim(row)
    case Abandon(_) => row.(status := RequestStatus.ManualReview)
    case Try(_, result) => if row.successes > 0 then row else Recorded(row, result)
    case Conclude(_, result) => row.(status := StatusAfter(result))
    case Stop(_) => row
    case Retry(eligible) => AfterRetry(row, eligible)
  }

  /** The worker is where it can act: outside, just entered, or with the result it has. */
  predicate Enabled(m: Machine, act: Action) {
    match act
    case Enter(w) => w !in m.workers
    case Abandon(w) => w in m.workers && m.workers[w].Entered?
    case Try(w, _) => w in m.workers && m.workers[w].Entered?
    case Conclude(w, result) => w in m.workers && m.workers[w] == Tried(result)
    case Stop(_) => true
    case Retry(_) => true
  }

  predicate Takes(m: Machine, act: Action) {
    act.Enter? && Enabled(m, act) && Claims(m.row)
  }

  function WorkersAfter(m: Machine, act: Action): map<nat, Stage> {
    match act
    case Enter(w) => if Claims(m.row) then m.workers[w := Entered] else m.workers
    case Try(w, result) => m.workers[w := Tried(if m.row.successes > 0 then Success(false) else result)]
    case Retry(_) => m.workers
    case _ => m.workers - {act.worker}
  }

  function Next(m: Machine, act: Action): Machine {
    if Enabled(m, act) then Machine(RowAfter(m.row, act), WorkersAfter(m, act)) else m
  }

  function RunAll(m: Machine, acts: seq<Action>): Machine
    decreases |acts|
  {
    if acts == [] then m else RunAll(Next(m, acts[0]), acts[1..])
  }

  /** One worker at a time, and one success ever. */
  ghost predicate Exclusive(m: Machine) {
    && (forall w, v | w in m.workers && v in m.workers :: w == v)
    && (forall w | w in m.workers :: m.row.status.InProgress?
          && (m.row.successes > 0 <==> m.workers[w].Tried? && m.workers[w].result.Success?))
    && m.row.successes <= 1 && m.row.tries <= MAX_TRIES
    && (m.row.status.Completed? ==> m.row.successes == 1)
    && (m.row.successes == 1 ==> m.row.status.Completed? || m.row.status.InProgress?)
  }

  lemma NextKeepsExclusive(m: Machine, act: Action)
    requires Exclusive(m)
    ensures Exclusive(Next(m, act))
    ensures m.row.status.Completed? ==> Next(m, act).row == m.row
  {
  }

  /** A worker that acts has the request IN_PROGRESS. */
  lemma WorkersHoldTheRow(m: Machine, act: Action)
    requires Exclusive(m) && Enabled(m, act) && (act.Abandon? || act.Try? || act.Conclude?)
    ensures m.row.status.InProgress?
  {
    assert act.worker in m.workers;
  }

  /** Under any interleaving of workers, crashes and staff retries, at most one worker holds
      the request, at most one enrollment succeeds, COMPLETED means that one did, and a
      completed request never changes again. */
  lemma {:induction false} ProvisionedOnce(m: Machine, acts: seq<Action>)
    requires Exclusive(m)
    ensures Exclusive(RunAll(m, acts))
    ensures m.row.status.Completed? ==> RunAll(m, acts).row == m.row
    decreases |acts|
  {
    if acts == [] {
    } else {
      NextKeepsExclusive(m, acts[0]);
      ProvisionedOnce(Next(m, acts[0]), acts[1..]);
    }
  }

  /** How many of the actions are successful claims. */
  function Entries(m: Machine, acts: seq<Action>): nat
    decreases |acts|
  {
    if acts == [] then 0 else (if Takes(m, acts[0]) then 1 else 0) + Entries(Next(m, acts[0]), acts[1..])
  }

  /** The worker may have called ClickFunnels: it records a result, or it dies having claimed
      the request, perhaps after the call. */
  predicate Trying(m: Machine, act: Action) {
    (act.Try? || act.Stop?) && act.worker in m.workers && m.workers[act.worker].Entered?
  }

  /** How many of the actions may have run the enrollment of a claimed request. */
  function Trials(m: Machine, acts: seq<Action>): nat
    decreases |acts|
  {
    if acts == [] then 0 else (if Trying(m, acts[0]) then 1 else 0) + Trials(Next(m, acts[0]), acts[1..])
  }

  /** The workers that have claimed and not yet tried. */
  function Waiters(m: Machine): set<nat> {
    set w | w in m.workers && m.workers[w].Entered?
  }

  lemma NextWaits(m: Machine, act: Action)
    requires Exclusive(m)
    ensures |Waiters(Next(m, act))| + (if Trying(m, act) then 1 else 0) <= |Waiters(m)| +
      (if Takes(m, act) then 1 else 0)
  {
    var m' := Next(m, act);
    var before, after := Waiters(m), Waiters(m');
    if Takes(m, act) {
      assert after == before + {act.worker};
    } else if Trying(m, act) {
      assert after == before - {act.worker};
    } else {
      assert after <= before;
      Smaller(after, before);
    }
  }

  lemma Smaller(a: set<nat>, b: set<nat>)
    requires a <= b
    ensures |a| <= |b|
  {
    if a == {} {
    } else {
      var x :| x in a;
      Smaller(a - {x}, b - {x});
    }
  }

  /** Between two staff retries a request is claimed at most five times and tried at most once
      per claim, workers that die included, so at most fifteen enrollment calls are made for it. */
  lemma {:induction false} ClaimsAreBounded(m: Machine, acts: seq<Action>)
    requires Exclusive(m)
    requires forall i | 0 <= i < |acts| :: !acts[i].Retry?
    ensures m.row.tries + Entries(m, acts) == RunAll(m, acts).row.tries <= MAX_TRIES
    ensures Trials(m, acts) <= |Waiters(m)| + Entries(m, acts)
    decreases |acts|
  {
    if acts == [] {
    } else {
      NextKeepsExclusive(m, acts[0]);
      NextWaits(m, acts[0]);
      ClaimsAreBounded(Next(m, acts[0]), acts[1..]);
    }
  }

  /** An undisturbed execute is a run of the machine's actions. */
  lemma ExecuteIsARun(row: Request, row': Request, ready: bool, replies: nat -> Reply) returns (acts: seq<Action>)
    requires Executed(row, row', ready, replies)
    ensures |acts| <= 3 && acts != [] && acts[0] == Enter(0)
    ensures RunAll(Machine(row, map[]), acts).row == row'
  {
    var start := Machine(row, map[]);
    var entered := Next(start, Enter(0));
    if !Claims(row) {
      acts := [Enter(0)];
      assert RunAll(entered, []) == entered;
    } else if !ready {
      acts := [Enter(0), Abandon(0)];
      TwoActions(start, Enter(0), Abandon(0));
    } else if row.successes > 0 {
      acts := [Enter(0), Try(0, Transient), Conclude(0, Success(false))];
      ThreeActions(start, Enter(0), Try(0, Transient), Conclude(0, Success(false)));
    } else {
      var i: nat :| && i <= MAX_INLINE_RETRIES
        && (forall j: nat | j < i :: Retried(replies(j)))
        && (Retried(replies(i)) ==> i == MAX_INLINE_RETRIES)
        && row' == Recorded(AfterClaim(row), ResultOf(replies(i))).(status := StatusAfter(ResultOf(replies(i))));
      var result := ResultOf(replies(i));
      acts := [Enter(0), Try(0, result), Conclude(0, result)];
      ThreeActions(start, Enter(0), Try(0, result), Conclude(0, result));
    }
  }

  lemma TwoActions(m: Machine, first: Action, second: Action)
    ensures RunAll(m, [first, second]) == Next(Next(m, first), second)
  {
    assert [first, second][1..] == [second];
    assert RunAll(Next(m, first), [second]) == RunAll(Next(Next(m, first), second), []);
  }

  lemma ThreeActions(m: Machine, first: Action, second: Action, third: Action)
    ensures RunAll(m, [first, second, third]) == Next(Next(Next(m, first), second), third)
  {
    TwoActions(Next(m, first), second, third);
    assert [first, second, third][1..] == [second, third];
  }

  // ----- how one execute ends -----

  /** The answer that counts: the first that is not worth another call, or the third. */
  predicate IsTheAnswer(replies: nat -> Reply, i: nat) {
    && i <= 2 && (forall j: nat | j < i :: replies(j) in {RateLimited, ServerError})
    && (replies(i) in {RateLimited, ServerError} ==> i == 2)
  }

  /** Each status, and when an undisturbed execute that has claimed its request ends in it. */
  lemma ExecuteEnds(row: Request, row': Request, ready: bool, replies: nat -> Reply, i: nat)
    requires Executed(row, row', ready, replies) && IsTheAnswer(replies, i)
    requires row.status in {RequestStatus.Pending, RequestStatus.Failed} && row.tries < 5
    ensures var asked := ready && row.successes == 0;
      && row'.tries == row.tries + 1
      && (row'.status.Completed? <==> ready && (row.successes > 0 || replies(i).Enrolled?))
      && (row'.status.Failed? <==> asked && replies(i) in {Declined, RateLimited, ServerError})
      && (row'.status.ManualReview? <==> !ready || (asked && replies(i) in {Unauthorized, ClientError, OtherError}))
      && row'.successes == row.successes + (if asked && replies(i).Enrolled? then 1 else 0)
      && row'.access == (if asked && replies(i) == Enrolled(true) then Some(false) else row.access)
  {
    if ready && row.successes == 0 {
      var n: nat :| && n <= MAX_INLINE_RETRIES
        && (forall j: nat | j < n :: Retried(replies(j)))
        && (Retried(replies(n)) ==> n == MAX_INLINE_RETRIES)
        && row' == Recorded(AfterClaim(row), ResultOf(replies(n))).(status := StatusAfter(ResultOf(replies(n))));
      assert n == i by {
        assert n < i ==> Retried(replies(n));
        assert i < n ==> Retried(replies(i));
      }
    }
  }

  /** A request that is not waiting, or has been tried five times, is not executed. */
  lemma UnclaimedEnds(row: Request, row': Request, ready: bool, replies: nat -> Reply)
    requires Executed(row, row', ready, replies)
    requires row.status !in {RequestStatus.Pending, RequestStatus.Failed} || row.tries >= 5
    ensures row' == if row.status in {RequestStatus.Pending, RequestStatus.Failed}
      then row.(status := RequestStatus.ManualReview) else row
  {
  }

  /** A request given up after its five tries is tried again once staff put it back, if its sale
      gives access; nothing else is: not one that is COMPLETED or under way. */
  lemma GivenUpIsTriedAgainIff(row: Request, eligible: bool)
    requires row.tries >= 5 && !row.status.InProgress?
    ensures var row' := AfterClaim(AfterRetry(row, eligible));
      && (row'.status.InProgress? <==> eligible && row.status in {RequestStatus.Failed, RequestStatus.ManualReview})
      && (row'.status.InProgress? ==> row' == row.(status := RequestStatus.InProgress, tries := 1))
      && (row.status.Completed? ==> row' == row)
  {
  }

  /** A claim takes what waits and has tries left, and gives up what has none. */
  lemma ClaimedIff(row: Request)
    ensures var row' := AfterClaim(row); var waits := row.status in {RequestStatus.Pending, RequestStatus.Failed};
      && (row'.status.InProgress? <==> row.status.InProgress? || (waits && row.tries < 5))
      && (row'.status.ManualReview? <==> row.status.ManualReview? || (waits && row.tries >= 5))
      && row'.tries == (if waits && row.tries < 5 then row.tries + 1 else row.tries)
  {
  }
}
