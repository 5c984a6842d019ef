/** What a verification says, told from Tara's answers: which candidate speaks for it, whether its
    word may be applied, and which candidates are asked first. */
module Answers {
  import opened Models
  import opened Verification

  // ----- one answer -----

  /** The answer names the product asked about, and nothing in it contradicts the lookup. */
  predicate NamesUs(client: Client, product: string, id: string) {
    && client.payments(id).Answered?
    && client.payments(id).product == Some(product)
    && client.payments(id).payment in {None, Some(id)}
    && client.payments(id).business in {None, Some(client.business)}
  }

  /** Every answer is of exactly one kind, and which one is plain from it. */
  lemma KindsOfAnswers(client: Client, product: string, expected: int, id: string)
    requires client.payments(id).Answered?
    ensures var r := client.payments(id);
      && (Creditable(client, product, expected, id) <==>
            NamesUs(client, product, id) && r.status.Success? && r.amount == Some(expected))
      && (Rejects(client, product, expected, id) <==>
            || (!NamesUs(client, product, id) && !r.status.Unknown?)
            || (NamesUs(client, product, id) && r.status.Success? && r.amount != Some(expected)))
      && (Decides(client, product, id) <==>
            NamesUs(client, product, id) && (r.status.Failure? || r.status.Pending?))
      && (r.status.Unknown? <==>
            !(Creditable(client, product, expected, id) || Rejects(client, product, expected, id)
              || Decides(client, product, id)))
  {
  }

  // ----- the whole -----

  /** Nothing is lost and nothing pays. */
  predicate NothingStops(client: Client, product: string, expected: int, ids: seq<string>) {
    !SomeLost(client, ids) && !SomeCreditable(client, product, expected, ids)
  }

  predicate SomeRejects(client: Client, product: string, expected: int, ids: seq<string>) {
    exists i | 0 <= i < |ids| :: Rejects(client, product, expected, ids[i])
  }

  /** Candidate i is the first whose answer must not be applied. */
  predicate FirstRejecting(client: Client, product: string, expected: int, ids: seq<string>, i: nat) {
    && i < |ids| && Rejects(client, product, expected, ids[i])
    && forall j | 0 <= j < i :: !Rejects(client, product, expected, ids[j])
  }

  predicate FirstDeciding(client: Client, product: string, ids: seq<string>, i: nat) {
    && i < |ids| && Decides(client, product, ids[i])
    && forall j | 0 <= j < i :: !Decides(client, product, ids[j])
  }

  lemma NothingStopsAt(client: Client, product: string, expected: int, ids: seq<string>)
    ensures NothingStops(client, product, expected, ids)
      <==> First(ids, id => Stops(client, product, expected, id)) == |ids|
  {
    var stop := First(ids, id => Stops(client, product, expected, id));
    if stop < |ids| {
      assert Stops(client, product, expected, ids[stop]);
    } else {
      forall i | 0 <= i < |ids|
        ensures !client.payments(ids[i]).Lost? && !Creditable(client, product, expected, ids[i])
      {
        assert !Stops(client, product, expected, ids[i]);
      }
    }
  }

  /** As soon as one answer must not be applied, and nothing is lost or pays, the first such answer
      is what the verification says, whatever other candidates say: another product or business is
      a product mismatch, another amount is an amount mismatch; never a clean result. */
  lemma FirstRejectionIsSaid(client: Client, product: string, expected: int, ids: seq<string>, i: nat)
    requires NothingStops(client, product, expected, ids) && FirstRejecting(client, product, expected, ids, i)
    ensures var r := Meaning(client, product, expected, ids); var answer := client.payments(ids[i]);
      && r.Verified? && answer.Answered?
      && (NamesUs(client, product, ids[i]) ==>
            r.category.AmountMismatch? && r.status.Success? && r.raw.Success?
            && r.payment == Some(ids[i]) && r.amount == answer.amount)
      && (!NamesUs(client, product, ids[i]) ==>
            r.category.ProductMismatch? && r.status.Unknown? && r.raw == answer.status
            && r.payment.None? && r.amount.None?)
  {
    NothingStopsAt(client, product, expected, ids);
    KindsOfAnswers(client, product, expected, ids[i]);
    FirstAt(ids, id => Rejects(client, product, expected, id), i);
  }

  /** A lookup lost before anything pays is passed on to the caller, and nothing else is but a
      lost productId lookup. */
  lemma LostIff(client: Client, product: string, expected: int, ids: seq<string>)
    ensures Meaning(client, product, expected, ids).Raised? <==>
      || (exists i | 0 <= i < |ids| ::
            client.payments(ids[i]).Lost? && !SomeCreditable(client, product, expected, ids[..i]))
      || (&& NothingStops(client, product, expected, ids) && !SomeSpeaks(client, product, expected, ids)
          && client.products(product).LostProduct?)
  {
    var stop := First(ids, id => Stops(client, product, expected, id));
    NothingStopsAt(client, product, expected, ids);
    SilentAt(client, product, expected, ids);
    if stop < |ids| && client.payments(ids[stop]).Lost? {
      forall j | 0 <= j < stop
        ensures !Creditable(client, product, expected, ids[..stop][j])
      {
        assert !Stops(client, product, expected, ids[j]);
      }
    }
    if i :| 0 <= i < |ids| && client.payments(ids[i]).Lost? && !SomeCreditable(client, product, expected, ids[..i]) {
      assert Stops(client, product, expected, ids[i]) && stop <= i;
      assert stop < i ==> ids[..i][stop] == ids[stop];
    }
  }

  lemma SilentAt(client: Client, product: string, expected: int, ids: seq<string>)
    ensures SomeRejects(client, product, expected, ids)
      <==> First(ids, id => Rejects(client, product, expected, id)) < |ids|
    ensures SomeSpeaks(client, product, expected, ids) <==>
      || First(ids, id => Rejects(client, product, expected, id)) < |ids|
      || First(ids, id => Decides(client, product, id)) < |ids|
  {
    var rejected := First(ids, id => Rejects(client, product, expected, id));
    var decided := First(ids, id => Decides(client, product, id));
    if rejected < |ids| {
      assert Rejects(client, product, expected, ids[rejected]);
    }
    if decided < |ids| {
      assert Decides(client, product, ids[decided]);
    }
  }

  /** The result says this verdict, and it may be applied. */
  predicate SaysClean(r: Result, verdict: Verdict) {
    r.Verified? && r.category.Clean? && r.status == verdict
  }

  lemma StoppedIsNotClean(client: Client, product: string, expected: int, ids: seq<string>, verdict: Verdict)
    requires !verdict.Success?
    requires !NothingStops(client, product, expected, ids) || SomeRejects(client, product, expected, ids)
    ensures !SaysClean(Meaning(client, product, expected, ids), verdict)
  {
    NothingStopsAt(client, product, expected, ids);
    SilentAt(client, product, expected, ids);
  }

  lemma DecidedIsClean(client: Client, product: string, expected: int, ids: seq<string>, verdict: Verdict, i: nat)
    requires NothingStops(client, product, expected, ids) && !SomeRejects(client, product, expected, ids)
    requires FirstDeciding(client, product, ids, i)
    ensures SaysClean(Meaning(client, product, expected, ids), verdict) <==> client.payments(ids[i]).status == verdict
  {
    NothingStopsAt(client, product, expected, ids);
    SilentAt(client, product, expected, ids);
    FirstAt(ids, id => Decides(client, product, id), i);
  }

  lemma UndecidedIsByProduct(client: Client, product: string, expected: int, ids: seq<string>, verdict: Verdict)
    requires NothingStops(client, product, expected, ids) && !SomeRejects(client, product, expected, ids)
    requires forall i | 0 <= i < |ids| :: !Decides(client, product, ids[i])
    ensures SaysClean(Meaning(client, product, expected, ids), verdict)
      <==> client.products(product) == AnsweredProduct(verdict, product)
  {
    NothingStopsAt(client, product, expected, ids);
    SilentAt(client, product, expected, ids);
    FirstAt(ids, id => Decides(client, product, id), |ids|);
  }

  lemma FirstDecidingExists(client: Client, product: string, ids: seq<string>) returns (i: nat)
    requires exists j | 0 <= j < |ids| :: Decides(client, product, ids[j])
    ensures FirstDeciding(client, product, ids, i)
    ensures forall j: nat | FirstDeciding(client, product, ids, j) :: j == i
  {
    i := First(ids, id => Decides(client, product, id));
  }

  /** A clean verdict other than success: exactly when nothing is lost, pays or must not be
      applied, and the first candidate that says failed or pending says this, or no candidate says
      anything and the productId lookup does. */
  lemma CleanVerdictIff(client: Client, product: string, expected: int, ids: seq<string>, verdict: Verdict)
    requires !verdict.Success?
    ensures SaysClean(Meaning(client, product, expected, ids), verdict) <==>
      && NothingStops(client, product, expected, ids) && !SomeRejects(client, product, expected, ids)
      && (|| (exists i: nat | i < |ids| ::
                FirstDeciding(client, product, ids, i) && client.payments(ids[i]).status == verdict)
          || (&& (forall i | 0 <= i < |ids| :: !Decides(client, product, ids[i]))
              && client.products(product) == AnsweredProduct(verdict, product)))
  {
    if !NothingStops(client, product, expected, ids) || SomeRejects(client, product, expected, ids) {
      StoppedIsNotClean(client, product, expected, ids, verdict);
    } else if exists j | 0 <= j < |ids| :: Decides(client, product, ids[j]) {
      var i := FirstDecidingExists(client, product, ids);
      DecidedIsClean(client, product, expected, ids, verdict, i);
    } else {
      UndecidedIsByProduct(client, product, expected, ids, verdict);
    }
  }

  /** When no candidate says anything, the productId lookup does: what it says of another product is
      malformed and settles nothing. */
  lemma OnlyTheProductSpeaks(client: Client, product: string, expected: int, ids: seq<string>)
    requires NothingStops(client, product, expected, ids) && !SomeSpeaks(client, product, expected, ids)
    ensures var r := Meaning(client, product, expected, ids); var answer := client.products(product);
      && (answer.LostProduct? <==> r.Raised?)
      && (r.Verified? ==> r.raw == answer.status && r.payment.None? && r.amount.None?)
      && (r.Verified? && answer.product == product ==> r.category.Clean? && r.status == answer.status)
      && (r.Verified? && answer.product != product ==> r.category.Malformed? && r.status.Unknown?)
  {
    NothingStopsAt(client, product, expected, ids);
    SilentAt(client, product, expected, ids);
  }

  // ----- whom to ask -----

  /** The newest notification of the product that names a paymentId comes first. */
  lemma {:induction false} RecordedNewest(events: seq<Event>, product: string, room: nat, e: nat)
    requires e < |events| && events[e].product == Some(product) && Present(events[e].payment) && room > 0
    requires forall x | e < x < |events| :: events[x].product != Some(product) || !Present(events[x].payment)
    ensures Recorded(events, product, room) != [] && Recorded(events, product, room)[0] == events[e].payment.value
  {
    if e == |events| - 1 {
    } else {
      RecordedNewest(events[..|events| - 1], product, room, e);
    }
  }

  lemma {:induction false} DistinctOrder(ids: seq<string>, more: seq<string>, product: string)
    ensures Distinct(ids, product) <= Distinct(ids + more, product)
  {
    if more == [] {
      assert ids + more == ids;
    } else {
      assert (ids + more)[..|ids + more| - 1] == ids + more[..|more| - 1];
      DistinctOrder(ids, more[..|more| - 1], product);
    }
  }

  lemma {:induction false} RecordedAll(events: seq<Event>, product: string, room: nat)
    requires |Recorded(events, product, room)| < room
    ensures forall e | 0 <= e < |events| && events[e].product == Some(product) && Present(events[e].payment) ::
      events[e].payment.value in Recorded(events, product, room)
  {
    if events == [] {
    } else {
      var front := events[..|events| - 1];
      if events[|front|].product == Some(product) && Present(events[|front|].payment) {
        RecordedAll(front, product, room - 1);
      } else {
        RecordedAll(front, product, room);
      }
      assert forall e | 0 <= e < |front| :: front[e] == events[e];
    }
  }

  /** No usable id is left out before five are asked, as long as fewer than five are on record. */
  lemma NoneIsLeftOut(events: seq<Event>, product: string, known: Option<string>, preferred: Option<string>)
    requires |Recorded(events, product, MAX_CANDIDATES)| < 5
    ensures var c := Candidates(events, product, known, preferred);
      |c| == 5 || forall id | Usable(id, product) &&
        (|| Some(id) == preferred || Some(id) == known
         || exists e | 0 <= e < |events| :: events[e].product == Some(product) && events[e].payment == Some(id)) ::
        id in c
  {
    var ids := AsList(preferred) + AsList(known) + Recorded(events, product, MAX_CANDIDATES);
    DistinctIsASet(ids, product);
    RecordedAll(events, product, MAX_CANDIDATES);
  }

  /** The order of the questions: the webhook's id, then the attempt's own, then that of the newest
      notification about this product. */
  lemma AskedInOrder(events: seq<Event>, product: string, known: Option<string>, preferred: Option<string>)
    ensures var c := Candidates(events, product, known, preferred);
      && (preferred.Some? && Usable(preferred.value, product) ==> c != [] && c[0] == preferred.value)
      && (preferred.None? && known.Some? && Usable(known.value, product) ==> c != [] && c[0] == known.value)
      && (preferred.Some? && known.Some? && preferred != known
          && Usable(preferred.value, product) && Usable(known.value, product) ==>
            |c| >= 2 && c[..2] == [preferred.value, known.value])
      && (forall e | 0 <= e < |events| && preferred.None? && known.None?
          && events[e].product == Some(product) && Present(events[e].payment)
          && Usable(events[e].payment.value, product)
          && (forall x | e < x < |events| :: events[x].product != Some(product) || !Present(events[x].payment)) ::
            c != [] && c[0] == events[e].payment.value)
  {
    var named := AsList(preferred) + AsList(known);
    var recorded := Recorded(events, product, MAX_CANDIDATES);
    DistinctOrder(named, recorded, product);
    assert named + recorded == AsList(preferred) + AsList(known) + recorded;
    assert Distinct([], product) == [];
    if preferred.Some? {
      assert AsList(preferred)[..0] == [];
      assert named[..|named| - 1] == if known.Some? then AsList(preferred) else [];
    } else if known.Some? {
      assert named[..0] == [];
    } else {
      assert named + recorded == recorded;
      forall e | 0 <= e < |events| && events[e].product == Some(product) && Present(events[e].payment)
          && Usable(events[e].payment.value, product)
          && (forall x | e < x < |events| :: events[x].product != Some(product) || !Present(events[x].payment))
        ensures Distinct(recorded, product) != [] && Distinct(recorded, product)[0] == events[e].payment.value
      {
        RecordedNewest(events, product, MAX_CANDIDATES, e);
        DistinctIsASet(recorded, product);
      }
    }
  }
}
