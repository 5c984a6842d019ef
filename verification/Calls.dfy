/** Suspensions, liftings, freezes and restores as calls under way: what a call has looked at, and
    the commits it still has to make, while everything else goes on. */
module Calls {
  import opened Models
  import opened Access
  import opened Collection
  import opened Invariants
  import opened Steps
  import opened Finality
  import opened Suspension
  import I = Interleaving
  import R = Runs

  datatype Call =
    | Suspending(order: OrderId, clock: Clock)   // a turn of _suspend_overdue
    | Lifting(order: OrderId, clock: Clock)      // resume_if_settled
    | Freezing(order: OrderId)                   // freeze_order_enrollment, by staff
    | Restoring(order: OrderId)                  // resume_order_enrollment, by staff

  type AccessSteps = s: seq<Step> | forall i | 0 <= i < |s| :: OnAccess(s[i])

  function Rest(commits: AccessSteps): AccessSteps
    requires commits != []
  {
    commits[1..]
  }

  /** Looked: it has chosen its order.  Going: _set_order_suspension has accepted the order, and
      these commits are still to come. */
  datatype Progress = Looked(call: Call) | Going(commits: AccessSteps)

  datatype World = World(db: Db, calls: map<nat, Progress>)

  datatype Act =
    | Begin(id: nat, call: Call)
    | Check(id: nat)       // _set_order_suspension looks at the order and its access
    | Commit(id: nat)      // the next commit
    | Skip(id: nat)        // the flag is as it should be: ClickFunnels need not be asked
    | Drop(id: nat)        // ClickFunnels fails, or the process dies
    | Other(step: Step)    // any other transaction, the flag of a single enrollment included

  // ----- one act -----

  predicate Freezes(call: Call) {
    call.Suspending? || call.Freezing?
  }

  /** What the caller has found before it calls _set_order_suspension. */
  predicate Chooses(db: Db, call: Call) {
    && call.order < |db.orders|
    && match call
       case Suspending(o, clock) => Overdue(db, o, clock)
       case Lifting(o, clock) =>
         db.orders[o].status.Suspended? && db.orders[o].nonpayment.Some? && !BeyondDeadline(db, o, clock)
       case _ => true
  }

  /** What _set_order_suspension checks. */
  predicate Accepted(db: Db, call: Call) {
    && call.order < |db.orders|
    && (if Freezes(call) then db.orders[call.order].status.Active? || db.orders[call.order].status.PastDue?
        else db.orders[call.order].status.Suspended?)
    && OpenAccess(db, call.order).Some?
  }

  function Commits(db: Db, call: Call): AccessSteps
    requires Accepted(db, call)
  {
    [Flag(OpenAccess(db, call.order).value, Freezes(call)), Mirror(call.order, Freezes(call))] +
    match call
    case Suspending(o, clock) => [Mark(o, clock.now)]
    case Lifting(o, clock) => [Unmark(o, Day(clock.now))]
    case _ => []
  }

  predicate CanCommit(w: World, id: nat) {
    id in w.calls && w.calls[id].Going? && w.calls[id].commits != []
  }

  predicate CanSkip(w: World, id: nat) {
    && CanCommit(w, id)
    && match w.calls[id].commits[0]
       case Flag(r, suspended) => r < |w.db.requests| && w.db.requests[r].access == Some(suspended)
       case _ => false
  }

  /** The transaction that the act commits. */
  function StepOf(w: World, act: Act): Option<Step> {
    match act
    case Commit(id) => if CanCommit(w, id) then Some(w.calls[id].commits[0]) else None
    case Other(step) => if OnAccess(step) && !step.Flag? then None else Some(step)
    case _ => None
  }

  function CallsAfter(w: World, act: Act): map<nat, Progress> {
    match act
    case Begin(id, call) => if id !in w.calls && Chooses(w.db, call) then w.calls[id := Looked(call)] else w.calls
    case Check(id) =>
      if id !in w.calls || w.calls[id].Going? then w.calls
      else if Accepted(w.db, w.calls[id].call) then w.calls[id := Going(Commits(w.db, w.calls[id].call))]
      else w.calls - {id}
    case Commit(id) => if CanCommit(w, id) then w.calls[id := Going(Rest(w.calls[id].commits))] else w.calls
    case Skip(id) => if CanSkip(w, id) then w.calls[id := Going(Rest(w.calls[id].commits))] else w.calls
    case Drop(id) => w.calls - {id}
    case Other(_) => w.calls
  }

  function DbAfter(db: Db, step: Option<Step>): Db
    requires Linked(db)
  {
    if step.Some? then Apply(db, step.value) else db
  }

  function Next(w: World, act: Act): World
    requires Linked(w.db)
  {
    World(DbAfter(w.db, StepOf(w, act)), CallsAfter(w, act))
  }

  lemma NextIsGood(w: World, act: Act)
    requires Inv(w.db)
    ensures Inv(Next(w, act).db)
  {
    if StepOf(w, act).Some? {
      R.StepIsGood(w.db, StepOf(w, act).value);
    }
  }

  // ----- runs -----

  ghost function RunAll(w: World, acts: seq<Act>): (r: World)
    requires Inv(w.db)
    ensures Inv(r.db)
    decreases |acts|
  {
    if acts == [] then w
    else
      NextIsGood(w, acts[0]);
      RunAll(Next(w, acts[0]), acts[1..])
  }

  /** The transactions of the run. */
  ghost function StepsOf(w: World, acts: seq<Act>): seq<Step>
    requires Inv(w.db)
    decreases |acts|
  {
    if acts == [] then []
    else
      NextIsGood(w, acts[0]);
      (if StepOf(w, acts[0]).Some? then [StepOf(w, acts[0]).value] else []) + StepsOf(Next(w, acts[0]), acts[1..])
  }

  lemma ActIsARun(w: World, act: Act, rest: seq<Step>)
    requires Inv(w.db) && Inv(Next(w, act).db)
    ensures var some := if StepOf(w, act).Some? then [StepOf(w, act).value] else [];
      R.Run(w.db, some + rest) == R.Run(Next(w, act).db, rest)
  {
    if StepOf(w, act).Some? {
      R.RunConcat(w.db, [StepOf(w, act).value], rest);
      R.OneStep(w.db, StepOf(w, act).value);
    } else {
      assert [] + rest == rest;
    }
  }

  /** Whatever the calls do, the database goes through a run of steps, so every theorem about runs
      covers it. */
  lemma {:induction false} CallsAreARun(w: World, acts: seq<Act>)
    requires Inv(w.db)
    ensures R.Run(w.db, StepsOf(w, acts)) == RunAll(w, acts).db
    decreases |acts|
  {
    if acts == [] {
    } else {
      NextIsGood(w, acts[0]);
      CallsAreARun(Next(w, acts[0]), acts[1..]);
      ActIsARun(w, acts[0], StepsOf(Next(w, acts[0]), acts[1..]));
    }
  }

  lemma RunOne(w: World, act: Act, more: seq<Act>)
    requires Inv(w.db) && Inv(Next(w, act).db)
    ensures RunAll(w, [act] + more) == RunAll(Next(w, act), more)
  {
    assert ([act] + more)[1..] == more;
  }

  lemma {:induction false} RunAppend(w: World, acts: seq<Act>, last: Act)
    requires Inv(w.db)
    ensures RunAll(w, acts + [last]) == Next(RunAll(w, acts), last)
    decreases |acts|
  {
    if acts == [] {
      NextIsGood(w, last);
      assert [last][1..] == [];
    } else {
      NextIsGood(w, acts[0]);
      RunAppend(Next(w, acts[0]), acts[1..], last);
      assert (acts + [last])[1..] == acts[1..] + [last];
    }
  }

  // ----- undisturbed calls -----

  /** A call that is left to itself makes all its commits. */
  lemma {:induction false} CommitsAll(w: World, id: nat) returns (acts: seq<Act>)
    requires Inv(w.db) && id in w.calls && w.calls[id].Going?
    ensures RunAll(w, acts).db == R.Run(w.db, w.calls[id].commits)
    decreases |w.calls[id].commits|
  {
    if w.calls[id].commits == [] {
      acts := [];
    } else {
      NextIsGood(w, Commit(id));
      acts := CommitsAll(Next(w, Commit(id)), id);
      RunOne(w, Commit(id), acts);
      acts := [Commit(id)] + acts;
    }
  }

  lemma CallRuns(w: World, id: nat, call: Call) returns (acts: seq<Act>)
    requires Inv(w.db) && id !in w.calls && Chooses(w.db, call) && Accepted(w.db, call)
    ensures RunAll(w, acts).db == R.Run(w.db, Commits(w.db, call))
  {
    var begun := Next(w, Begin(id, call));
    var going := Next(begun, Check(id));
    acts := CommitsAll(going, id);
    RunOne(begun, Check(id), acts);
    RunOne(w, Begin(id, call), [Check(id)] + acts);
    acts := [Begin(id, call)] + ([Check(id)] + acts);
  }

  lemma CommitsAre(db: Db, o: OrderId, clock: Clock)
    requires o < |db.orders| && OpenAccess(db, o).Some?
    ensures var r := OpenAccess(db, o).value; var call := Suspending(o, clock);
      Accepted(db, call) ==> Commits(db, call) == [Flag(r, true), Mirror(o, true), Mark(o, clock.now)]
    ensures var r := OpenAccess(db, o).value; var call := Lifting(o, clock);
      Accepted(db, call) ==> Commits(db, call) == [Flag(r, false), Mirror(o, false), Unmark(o, Day(clock.now))]
  {
  }

  lemma SuspensionRuns(db: Db, o: OrderId, clock: Clock)
    requires Inv(db) && o < |db.orders| && Overdue(db, o, clock) && Switchable(db, o, true, o in clock.answers)
    ensures R.Run(db, Commits(db, Suspending(o, clock))) == AfterSuspension(db, o, clock)
  {
    var steps := I.SuspensionIsARun(db, o, clock);
    CommitsAre(db, o, clock);
  }

  lemma LiftingRuns(db: Db, o: OrderId, clock: Clock)
    requires Inv(db) && o < |db.orders| && Resumable(db, o, clock)
    ensures R.Run(db, Commits(db, Lifting(o, clock))) == AfterResumption(db, o, clock)
  {
    var steps := I.ResumptionIsARun(db, o, clock);
    CommitsAre(db, o, clock);
  }

  /** Undisturbed, an automatic suspension is what SuspendOverdue does. */
  lemma SuspensionIsACall(w: World, id: nat, o: OrderId, clock: Clock) returns (acts: seq<Act>)
    requires Inv(w.db) && id !in w.calls && o < |w.db.orders| && Overdue(w.db, o, clock)
    requires Switchable(w.db, o, true, o in clock.answers)
    ensures RunAll(w, acts).db == AfterSuspension(w.db, o, clock)
  {
    acts := CallRuns(w, id, Suspending(o, clock));
    SuspensionRuns(w.db, o, clock);
  }

  /** And a lifting is what ResumeIfSettled does. */
  lemma LiftingIsACall(w: World, id: nat, o: OrderId, clock: Clock) returns (acts: seq<Act>)
    requires Inv(w.db) && id !in w.calls && o < |w.db.orders| && Resumable(w.db, o, clock)
    ensures RunAll(w, acts).db == AfterResumption(w.db, o, clock)
  {
    acts := CallRuns(w, id, Lifting(o, clock));
    LiftingRuns(w.db, o, clock);
  }

  // ----- rows that hold -----

  /** Call `progress` can still change row o, which holds: a commit to come disturbs it, or the call
      is about to restore it. */
  predicate Harms(db: Db, progress: Progress, o: OrderId)
    requires o < |db.orders|
  {
    match progress
    case Looked(call) => call.order == o && !Freezes(call) && db.orders[o].status.Suspended?
    case Going(commits) => exists j | 0 <= j < |commits| :: Disturbs(db, commits[j], o)
  }

  ghost predicate Harmless(w: World, o: OrderId)
    requires o < |w.db.orders|
  {
    forall id | id in w.calls :: !Harms(w.db, w.calls[id], o)
  }

  /** Staff neither cancel nor restore order o, which they may do while it is only suspended. */
  predicate LeavesAlone(act: Act, o: OrderId, row: Order) {
    || Over(row)
    || match act
       case Begin(_, call) => !(call.Restoring? && call.order == o)
       case Other(step) => !(step.CancelOrder? && step.order == o) && !(step.Restore? && step.order == o)
       case _ => true
  }

  predicate AllLeaveAlone(acts: seq<Act>, o: OrderId, row: Order) {
    forall i | 0 <= i < |acts| :: LeavesAlone(acts[i], o, row)
  }

  ghost predicate RowIs(db: Db, o: OrderId, row: Order) {
    o < |db.orders| && db.orders[o] == row
  }

  lemma CommitsElsewhere(db: Db, call: Call, o: OrderId)
    requires Accepted(db, call) && o < |db.orders| && call.order != o
    ensures !Harms(db, Going(Commits(db, call)), o)
  {
  }

  /** No call chooses or is accepted on a row that holds, except a restore. */
  lemma HeldIsNotChosen(db: Db, call: Call)
    requires call.order < |db.orders| && Held(db.orders[call.order])
    ensures call.Lifting? ==> !Chooses(db, call)
    ensures Freezes(call) ==> !Accepted(db, call)
    ensures !Freezes(call) && !db.orders[call.order].status.Suspended? ==> !Accepted(db, call)
  {
  }

  lemma CallsStayHarmless(w: World, act: Act, o: OrderId)
    requires o < |w.db.orders| && Held(w.db.orders[o]) && Harmless(w, o) && LeavesAlone(act, o, w.db.orders[o])
    ensures forall id | id in CallsAfter(w, act) :: !Harms(w.db, CallsAfter(w, act)[id], o)
  {
    var calls := CallsAfter(w, act);
    forall id | id in calls
      ensures !Harms(w.db, calls[id], o)
    {
      if id in w.calls && calls[id] == w.calls[id] {
      } else if act.Begin? {
        assert calls[id] == Looked(act.call);
      } else if act.Check? {
        var call := w.calls[id].call;
        if call.order == o {
          HeldIsNotChosen(w.db, call);
        } else {
          CommitsElsewhere(w.db, call, o);
        }
      } else {
        LaterCommits(w.db, w.calls[id].commits, o);
      }
    }
  }

  lemma LaterCommits(db: Db, commits: AccessSteps, o: OrderId)
    requires o < |db.orders| && commits != [] && !Harms(db, Going(commits), o)
    ensures !Harms(db, Going(Rest(commits)), o)
  {
    forall j | 0 <= j < |Rest(commits)|
      ensures !Disturbs(db, Rest(commits)[j], o)
    {
      assert Rest(commits)[j] == commits[j + 1];
    }
  }

  /** Harm is a matter of the calls and of that one row. */
  lemma HarmIsOfTheRow(db: Db, db': Db, progress: Progress, o: OrderId)
    requires o < |db.orders| && o < |db'.orders| && db'.orders[o] == db.orders[o]
    ensures Harms(db', progress, o) <==> Harms(db, progress, o)
  {
    if progress.Going? {
      forall j | 0 <= j < |progress.commits|
        ensures Disturbs(db', progress.commits[j], o) <==> Disturbs(db, progress.commits[j], o)
      {
      }
    }
  }

  /** The act commits nothing that disturbs the row. */
  lemma StepLeavesRow(w: World, act: Act, o: OrderId)
    requires o < |w.db.orders| && Harmless(w, o) && LeavesAlone(act, o, w.db.orders[o]) && StepOf(w, act).Some?
    ensures !Disturbs(w.db, StepOf(w, act).value, o)
  {
    if act.Commit? {
      assert !Harms(w.db, w.calls[act.id], o);
      assert StepOf(w, act).value == w.calls[act.id].commits[0];
    }
  }

  lemma NextKeepsRow(w: World, act: Act, o: OrderId)
    requires Inv(w.db) && o < |w.db.orders| && Held(w.db.orders[o]) && Harmless(w, o)
    requires LeavesAlone(act, o, w.db.orders[o])
    ensures RowIs(Next(w, act).db, o, w.db.orders[o]) && Harmless(Next(w, act), o)
  {
    CallsStayHarmless(w, act, o);
    var step := StepOf(w, act);
    if step.Some? {
      StepLeavesRow(w, act, o);
      StepHolds(w.db, step.value, o);
    }
    HarmlessAfter(w.db, Next(w, act), o);
  }

  lemma HarmlessAfter(db: Db, w: World, o: OrderId)
    requires o < |db.orders| && RowIs(w.db, o, db.orders[o])
    requires forall id | id in w.calls :: !Harms(db, w.calls[id], o)
    ensures Harmless(w, o)
  {
    forall id | id in w.calls
      ensures !Harms(w.db, w.calls[id], o)
    {
      HarmIsOfTheRow(db, w.db, w.calls[id], o);
    }
  }

  lemma {:induction false} HarmlessKeepsRow(w: World, acts: seq<Act>, o: OrderId)
    requires Inv(w.db) && o < |w.db.orders| && Held(w.db.orders[o]) && Harmless(w, o)
    requires AllLeaveAlone(acts, o, w.db.orders[o])
    ensures RowIs(RunAll(w, acts).db, o, w.db.orders[o])
    decreases |acts|
  {
    if acts == [] {
    } else {
      NextIsGood(w, acts[0]);
      NextKeepsRow(w, acts[0], o);
      HarmlessKeepsRow(Next(w, acts[0]), acts[1..], o);
    }
  }

  // ----- harm is done -----

  lemma MoreLeaveAlone(act: Act, more: seq<Act>, o: OrderId, row: Order)
    requires LeavesAlone(act, o, row) && AllLeaveAlone(more, o, row)
    ensures AllLeaveAlone([act] + more, o, row)
  {
  }

  lemma CommitDisturbs(w: World, id: nat, o: OrderId)
    requires Inv(w.db) && o < |w.db.orders| && Held(w.db.orders[o]) && CanCommit(w, id)
    ensures o < |Next(w, Commit(id)).db.orders|
    ensures Next(w, Commit(id)).db.orders[o] == w.db.orders[o] <==> !Disturbs(w.db, w.calls[id].commits[0], o)
  {
    StepHolds(w.db, w.calls[id].commits[0], o);
  }

  lemma StillDisturbs(w: World, id: nat, o: OrderId, j: nat)
    requires Linked(w.db) && o < |w.db.orders| && CanCommit(w, id) && 0 < j < |w.calls[id].commits|
    requires Disturbs(w.db, w.calls[id].commits[j], o) && RowIs(Next(w, Commit(id)).db, o, w.db.orders[o])
    ensures var next := Next(w, Commit(id));
      && id in next.calls && next.calls[id].Going? && j - 1 < |next.calls[id].commits|
      && Disturbs(next.db, next.calls[id].commits[j - 1], o)
  {
    assert Next(w, Commit(id)).calls[id].commits[j - 1] == w.calls[id].commits[j];
  }

  /** After these acts, none of them staff's own decision on the order, the row is another. */
  ghost predicate Breaks(w: World, acts: seq<Act>, o: OrderId, row: Order)
    requires Inv(w.db)
  {
    AllLeaveAlone(acts, o, row) && !RowIs(RunAll(w, acts).db, o, row)
  }

  lemma BreaksNow(w: World, o: OrderId, row: Order)
    requires Inv(w.db) && !RowIs(w.db, o, row)
    ensures Breaks(w, [], o, row)
  {
  }

  lemma BreaksNext(w: World, act: Act, acts: seq<Act>, o: OrderId, row: Order)
    requires Inv(w.db) && Inv(Next(w, act).db) && LeavesAlone(act, o, row) && Breaks(Next(w, act), acts, o, row)
    ensures Breaks(w, [act] + acts, o, row)
  {
    RunOne(w, act, acts);
    MoreLeaveAlone(act, acts, o, row);
  }

  lemma CommitBreaks(w: World, id: nat, o: OrderId)
    requires Inv(w.db) && o < |w.db.orders| && Held(w.db.orders[o]) && CanCommit(w, id)
    requires Disturbs(w.db, w.calls[id].commits[0], o)
    ensures Breaks(w, [Commit(id)] + [], o, w.db.orders[o])
  {
    NextIsGood(w, Commit(id));
    CommitDisturbs(w, id, o);
    BreaksNow(Next(w, Commit(id)), o, w.db.orders[o]);
    BreaksNext(w, Commit(id), [], o, w.db.orders[o]);
  }

  lemma CommitLeadsOn(w: World, id: nat, o: OrderId)
    requires Inv(w.db) && o < |w.db.orders| && Held(w.db.orders[o]) && CanCommit(w, id)
    requires !Disturbs(w.db, w.calls[id].commits[0], o)
    ensures Inv(Next(w, Commit(id)).db) && RowIs(Next(w, Commit(id)).db, o, w.db.orders[o])
  {
    NextIsGood(w, Commit(id));
    CommitDisturbs(w, id, o);
  }

  /** Call id still owes a commit, its j-th, that disturbs the row. */
  ghost predicate Threatens(w: World, id: nat, o: OrderId, row: Order, j: nat) {
    && Inv(w.db) && RowIs(w.db, o, row) && Held(row)
    && id in w.calls && w.calls[id].Going? && j < |w.calls[id].commits|
    && Disturbs(w.db, w.calls[id].commits[j], o)
  }

  lemma ThreatensNext(w: World, id: nat, o: OrderId, row: Order, j: nat)
    requires Threatens(w, id, o, row, j) && !Disturbs(w.db, w.calls[id].commits[0], o)
    ensures j > 0 && Threatens(Next(w, Commit(id)), id, o, row, j - 1)
  {
    CommitLeadsOn(w, id, o);
    StillDisturbs(w, id, o, j);
  }

  lemma BreaksLater(w: World, id: nat, o: OrderId, row: Order, acts: seq<Act>)
    requires Inv(w.db) && Inv(Next(w, Commit(id)).db) && Breaks(Next(w, Commit(id)), acts, o, row)
    ensures Breaks(w, [Commit(id)] + acts, o, row)
  {
    BreaksNext(w, Commit(id), acts, o, row);
  }

  /** A commit that disturbs the row comes to be made. */
  lemma {:induction false} CommitsDisturb(w: World, id: nat, o: OrderId, row: Order, j: nat) returns (acts: seq<Act>)
    requires Threatens(w, id, o, row, j)
    ensures Breaks(w, acts, o, row)
    decreases j
  {
    if Disturbs(w.db, w.calls[id].commits[0], o) {
      CommitBreaks(w, id, o);
      acts := [Commit(id)] + [];
    } else {
      ThreatensNext(w, id, o, row, j);
      acts := CommitsDisturb(Next(w, Commit(id)), id, o, row, j - 1);
      BreaksLater(w, id, o, row, acts);
      acts := [Commit(id)] + acts;
    }
  }

  /** A lifting or restore that has chosen the suspended order is accepted, and mirrors it. */
  lemma LiftingDisturbs(w: World, id: nat, o: OrderId) returns (acts: seq<Act>)
    requires Inv(w.db) && AccessOpen(w.db) && o < |w.db.orders| && Held(w.db.orders[o])
    requires id in w.calls && w.calls[id].Looked? && Harms(w.db, w.calls[id], o)
    ensures Breaks(w, acts, o, w.db.orders[o])
  {
    var next := Next(w, Check(id));
    assert Accepted(w.db, w.calls[id].call) && next.calls[id] == Going(Commits(w.db, w.calls[id].call));
    assert next.calls[id].commits[1] == Mirror(o, false);
    acts := CommitsDisturb(next, id, o, w.db.orders[o], 1);
    BreaksNext(w, Check(id), acts, o, w.db.orders[o]);
    acts := [Check(id)] + acts;
  }

  lemma HarmIsDone(w: World, id: nat, o: OrderId) returns (acts: seq<Act>)
    requires Inv(w.db) && AccessOpen(w.db) && o < |w.db.orders| && Held(w.db.orders[o])
    requires id in w.calls && Harms(w.db, w.calls[id], o)
    ensures Breaks(w, acts, o, w.db.orders[o])
  {
    if w.calls[id].Looked? {
      acts := LiftingDisturbs(w, id, o);
    } else {
      var j: nat :| j < |w.calls[id].commits| && Disturbs(w.db, w.calls[id].commits[j], o);
      acts := CommitsDisturb(w, id, o, w.db.orders[o], j);
    }
  }

  /** The row of a COMPLETED or CANCELLED order, and of one suspended by staff, outlives whatever
      follows but staff's own cancelling or restoring of it, if and only if no call now under way
      can still change it.  No call that begins later can: the row is not chosen again. */
  lemma HeldForEverIff(w: World, o: OrderId)
    requires Inv(w.db) && AccessOpen(w.db) && o < |w.db.orders| && Held(w.db.orders[o])
    ensures (forall acts: seq<Act> | AllLeaveAlone(acts, o, w.db.orders[o]) ::
        RowIs(RunAll(w, acts).db, o, w.db.orders[o]))
      <==> Harmless(w, o)
  {
    if Harmless(w, o) {
      forall acts: seq<Act> | AllLeaveAlone(acts, o, w.db.orders[o])
        ensures RowIs(RunAll(w, acts).db, o, w.db.orders[o])
      {
        HarmlessKeepsRow(w, acts, o);
      }
    } else {
      var id :| id in w.calls && Harms(w.db, w.calls[id], o);
      var acts := HarmIsDone(w, id, o);
    }
  }
}
