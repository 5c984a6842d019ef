/** Closing the open attempts of installments, as cancellation, waiving and expiry do. */
module Closing {
  import opened Models
  import opened StateMachines

  function ClosedRow(row: Attempt, keys: set<InstallmentKey>): Attempt {
    if row.installment in keys && IsNonTerminal(row.status) then row.(status := AttemptStatus.Expired) else row
  }

  function ClosedAttempts(attempts: seq<Attempt>, keys: set<InstallmentKey>): (r: seq<Attempt>)
    ensures |r| == |attempts|
  {
    seq(|attempts|, x requires 0 <= x < |attempts| => ClosedRow(attempts[x], keys))
  }

  lemma CloseTogether(attempts: seq<Attempt>, some: set<InstallmentKey>, more: set<InstallmentKey>)
    ensures ClosedAttempts(ClosedAttempts(attempts, some), more) == ClosedAttempts(attempts, some + more)
  {
  }

  /** Each transition is legal: the loop never raises. */
  method CloseAttempts(db: Database, k: InstallmentKey)
    modifies db`attempts
    ensures db.attempts == ClosedAttempts(old(db.attempts), {k})
  {
    ghost var before := db.attempts;
    for x := |db.attempts| downto 0
      invariant |db.attempts| == |before|
      invariant forall y | 0 <= y < |before| :: db.attempts[y] == if y < x then before[y] else ClosedRow(before[y], {k})
    {
      if db.attempts[x].installment == k && IsNonTerminal(db.attempts[x].status) {
        var refused := TransitionAttempt(db, x, AttemptStatus.Expired);
        assert refused.None?;
      }
    }
  }
}
