/** TaraVerificationService: may Tara's answers be applied to an attempt? */
module Verification {
  import opened Models

  /** The normalized status of an answer. */
  datatype Verdict = Success | Failure | Pending | Unknown

  /** check_payment_status: an exception, or the answer with whatever Tara chose to name. */
  datatype PaymentReply =
    | Lost
    | Answered(status: Verdict, product: Option<string>, payment: Option<string>, business: Option<string>,
      amount: Option<int>)

  /** check_transaction_status; the client raises when the productId is not the one asked for. */
  datatype ProductReply = LostProduct | AnsweredProduct(status: Verdict, product: string)

  /** Tara as one verification sees it: an arbitrary answer to every lookup. */
  datatype Client = Client(business: string, payments: string -> PaymentReply, products: string -> ProductReply)

  datatype Category = Clean | ProductMismatch | AmountMismatch | Malformed

  /** verify's result; Raised is a transport exception, passed on to the caller.  `raw` is the
      status as Tara wrote it, kept even when the answer must not be applied. */
  datatype Result =
    | Raised
    | Verified(status: Verdict, raw: Verdict, payment: Option<string>, amount: Option<int>, category: Category)

  const MAX_CANDIDATES := 5

  // ----- candidates -----

  /** A usable lookup key: not blank and not our own productId. */
  predicate Usable(id: string, product: string) {
    id != "" && id != product
  }

  /** The usable keys in order of first appearance. */
  function Distinct(ids: seq<string>, product: string): seq<string> {
    if ids == [] then []
    else
      var rest := Distinct(ids[..|ids| - 1], product);
      var last := ids[|ids| - 1];
      if Usable(last, product) && last !in rest then rest + [last] else rest
  }

  function Truncated(ids: seq<string>): seq<string> {
    if |ids| <= MAX_CANDIDATES then ids else ids[..MAX_CANDIDATES]
  }

  /** The paymentIds of the newest events of this product, at most `room` of them. */
  function Recorded(events: seq<Event>, product: string, room: nat): (r: seq<string>)
    ensures |r| <= room
  {
    if events == [] || room == 0 then []
    else
      var e := events[|events| - 1];
      if e.product == Some(product) && Present(e.payment)
      then [e.payment.value] + Recorded(events[..|events| - 1], product, room - 1)
      else Recorded(events[..|events| - 1], product, room)
  }

  function AsList(id: Option<string>): seq<string> {
    if id.Some? then [id.value] else []
  }

  function Candidates(events: seq<Event>, product: string, known: Option<string>,
      preferred: Option<string>): seq<string>
  {
    Truncated(Distinct(AsList(preferred) + AsList(known) + Recorded(events, product, MAX_CANDIDATES), product))
  }

  lemma DistinctNext(ids: seq<string>, i: nat, product: string)
    requires i < |ids|
    ensures var front := Distinct(ids[..i], product);
      Distinct(ids[..i + 1], product) == if Usable(ids[i], product) && ids[i] !in front then front + [ids[i]] else front
  {
    assert ids[..i + 1][..i] == ids[..i];
  }

  /** candidate_payment_ids: without repetition, at most five, and first the id of the
      webhook at hand, then the attempt's own, then those of the newest events. */
  method CandidatePaymentIds(events: seq<Event>, product: string, known: Option<string>, preferred: Option<string>)
      returns (unique: seq<string>)
    ensures unique == Candidates(events, product, known, preferred)
  {
    var ids := AsList(preferred) + AsList(known) + Recorded(events, product, MAX_CANDIDATES);
    unique := [];
    for i := 0 to |ids|
      invariant unique == Distinct(ids[..i], product)
    {
      DistinctNext(ids, i, product);
      if ids[i] != "" && ids[i] != product && ids[i] !in unique {
        unique := unique + [ids[i]];
      }
    }
    assert ids[..|ids|] == ids;
    unique := Truncated(unique);
  }

  lemma {:induction false} DistinctIsASet(ids: seq<string>, product: string)
    ensures var d := Distinct(ids, product);
      && (forall i, j | 0 <= i < j < |d| :: d[i] != d[j])
      && (forall id :: id in d <==> id in ids && Usable(id, product))
      && (ids != [] && Usable(ids[0], product) ==> d != [] && d[0] == ids[0])
  {
    if ids == [] {
    } else {
      var front := ids[..|ids| - 1];
      DistinctIsASet(front, product);
      assert ids == front + [ids[|ids| - 1]];
    }
  }

  /** No candidate is asked twice, none is blank or our own productId, and the webhook's own
      paymentId is always the first one asked. */
  lemma CandidatesAreDistinct(events: seq<Event>, product: string, known: Option<string>, preferred: Option<string>)
    ensures var c := Candidates(events, product, known, preferred);
      && |c| <= MAX_CANDIDATES
      && (forall i, j | 0 <= i < j < |c| :: c[i] != c[j])
      && (forall i | 0 <= i < |c| :: c[i] != "" && c[i] != product)
      && (preferred.Some? && Usable(preferred.value, product) ==> c != [] && c[0] == preferred.value)
  {
    var ids := AsList(preferred) + AsList(known) + Recorded(events, product, MAX_CANDIDATES);
    DistinctIsASet(ids, product);
    var d := Distinct(ids, product);
    forall i | 0 <= i < |Truncated(d)|
      ensures Usable(Truncated(d)[i], product)
    {
      assert d[i] in d;
    }
  }

  // ----- classification of one answer -----

  /** Tara itself names this product, and nothing it names contradicts the lookup. */
  predicate Bound(client: Client, product: string, id: string, r: PaymentReply)
    requires r.Answered?
  {
    && r.product == Some(product)
    && (r.payment.None? || r.payment == Some(id))
    && (r.business.None? || r.business == Some(client.business))
  }

  predicate Creditable(client: Client, product: string, expected: int, id: string) {
    var r := client.payments(id);
    r.Answered? && r.status.Success? && Bound(client, product, id, r) && r.amount == Some(expected)
  }

  /** An answer that exists but must not be applied. */
  predicate Rejects(client: Client, product: string, expected: int, id: string) {
    var r := client.payments(id);
    r.Answered? && !r.status.Unknown?
      && (Bound(client, product, id, r) ==> r.status.Success? && r.amount != Some(expected))
  }

  predicate Decides(client: Client, product: string, id: string) {
    var r := client.payments(id);
    r.Answered? && (r.status.Failure? || r.status.Pending?) && Bound(client, product, id, r)
  }

  function Rejection(client: Client, product: string, id: string): Result
    requires client.payments(id).Answered?
  {
    var r := client.payments(id);
    if Bound(client, product, id, r) then Verified(Verdict.Success, Verdict.Success, Some(id), r.amount, AmountMismatch)
    else Verified(Verdict.Unknown, r.status, None, None, ProductMismatch)
  }

  function DefinitiveAnswer(client: Client, id: string): Result
    requires client.payments(id).Answered?
  {
    Verified(client.payments(id).status, client.payments(id).status, Some(id), None, Clean)
  }

  /** The fallback on our own productId. */
  function ByProduct(client: Client, product: string): Result {
    match client.products(product)
    case LostProduct => Raised
    case AnsweredProduct(status, named) =>
      if named == product then Verified(status, status, None, None, Clean)
      else Verified(Verdict.Unknown, status, None, None, Malformed)
  }

  /** The first candidate with the property, or |ids|. */
  function First(ids: seq<string>, p: string -> bool): (i: nat)
    ensures i <= |ids|
    ensures i < |ids| ==> p(ids[i])
    ensures forall j | 0 <= j < i :: !p(ids[j])
  {
    if ids == [] || p(ids[0]) then 0 else First(ids[1..], p) + 1
  }

  predicate Stops(client: Client, product: string, expected: int, id: string) {
    client.payments(id).Lost? || Creditable(client, product, expected, id)
  }

  /** The declarative meaning of verify: the first bound success with the right amount (unless
      a lookup before it is lost), else the first answer that must not be applied, else the
      first definitive one, else the lookup by productId. */
  function Meaning(client: Client, product: string, expected: int, ids: seq<string>): Result {
    var stop := First(ids, id => Stops(client, product, expected, id));
    var rejected := First(ids, id => Rejects(client, product, expected, id));
    var decided := First(ids, id => Decides(client, product, id));
    if stop < |ids| then
      if client.payments(ids[stop]).Lost? then Raised
      else Verified(Verdict.Success, Verdict.Success, Some(ids[stop]), client.payments(ids[stop]).amount, Clean)
    else if rejected < |ids| then Rejection(client, product, ids[rejected])
    else if decided < |ids| then DefinitiveAnswer(client, ids[decided])
    else ByProduct(client, product)
  }

  /** Where a first match is, when it is known to be at i. */
  lemma FirstAt(ids: seq<string>, p: string -> bool, i: nat)
    requires i <= |ids| && (i < |ids| ==> p(ids[i])) && forall j | 0 <= j < i :: !p(ids[j])
    ensures First(ids, p) == i
  {
  }

  /** verify: the candidates are asked in order. */
  method Verify(client: Client, product: string, expected: int, ids: seq<string>) returns (result: Result)
    ensures result == Meaning(client, product, expected, ids)
  {
    var definitive: Option<Result> := None;
    var rejected: Option<Result> := None;
    ghost var rejectedAt, definitiveAt := |ids|, |ids|;
    for i := 0 to |ids|
      invariant forall j | 0 <= j < i :: !Stops(client, product, expected, ids[j])
      invariant 0 <= rejectedAt <= |ids| && (rejected.Some? <==> rejectedAt < i)
      invariant rejected.None? ==> rejectedAt == |ids|
      invariant forall j | 0 <= j < i && j < rejectedAt :: !Rejects(client, product, expected, ids[j])
      invariant rejected.Some? ==> Rejects(client, product, expected, ids[rejectedAt])
      invariant rejected.Some? ==> rejected.value == Rejection(client, product, ids[rejectedAt])
      invariant 0 <= definitiveAt <= |ids| && (definitive.Some? <==> definitiveAt < i)
      invariant definitive.None? ==> definitiveAt == |ids|
      invariant forall j | 0 <= j < i && j < definitiveAt :: !Decides(client, product, ids[j])
      invariant definitive.Some? ==> Decides(client, product, ids[definitiveAt])
      invariant definitive.Some? ==> definitive.value == DefinitiveAnswer(client, ids[definitiveAt])
    {
      var id := ids[i];
      var response := client.payments(id);
      if response.Lost? {
        FirstAt(ids, id => Stops(client, product, expected, id), i);
        return Raised;
      }
      if response.status.Unknown? {
        continue;
      }
      if !Bound(client, product, id, response) {
        if rejected.None? {
          rejected := Some(Verified(Verdict.Unknown, response.status, None, None, ProductMismatch));
          rejectedAt := i;
        }
        continue;
      }
      if response.status.Success? {
        if response.amount.None? || response.amount.value != expected {
          if rejected.None? {
            rejected := Some(Verified(Verdict.Success, Verdict.Success, Some(id), response.amount, AmountMismatch));
            rejectedAt := i;
          }
          continue;
        }
        FirstAt(ids, id => Stops(client, product, expected, id), i);
        return Verified(Verdict.Success, Verdict.Success, Some(id), response.amount, Clean);
      }
      if definitive.None? {
        definitive := Some(Verified(response.status, response.status, Some(id), None, Clean));
        definitiveAt := i;
      }
    }
    FirstAt(ids, id => Stops(client, product, expected, id), |ids|);
    FirstAt(ids, id => Rejects(client, product, expected, id), rejectedAt);
    FirstAt(ids, id => Decides(client, product, id), definitiveAt);
    if rejected.Some? {
      return rejected.value;
    }
    if definitive.Some? {
      return definitive.value;
    }
    var legacy := client.products(product);
    if legacy.LostProduct? {
      return Raised;
    }
    if legacy.product != product {
      return Verified(Verdict.Unknown, legacy.status, None, None, Malformed);
    }
    return Verified(legacy.status, legacy.status, None, None, Clean);
  }

  // ----- what verify promises -----

  /** The result on which callers credit the attempt. */
  predicate Accepts(r: Result) {
    r.Verified? && r.status.Success? && r.category.Clean?
  }

  predicate SomeCreditable(client: Client, product: string, expected: int, ids: seq<string>) {
    exists i | 0 <= i < |ids| :: Creditable(client, product, expected, ids[i])
  }

  predicate SomeLost(client: Client, ids: seq<string>) {
    exists i | 0 <= i < |ids| :: client.payments(ids[i]).Lost?
  }

  predicate SomeSpeaks(client: Client, product: string, expected: int, ids: seq<string>) {
    exists i | 0 <= i < |ids| :: Rejects(client, product, expected, ids[i]) || Decides(client, product, ids[i])
  }

  /** An accepted result is backed by an answer of Tara that names this very product, and that
      names exactly the expected amount when it came from a paymentId lookup. */
  lemma AcceptedMeansPaid(client: Client, product: string, expected: int, ids: seq<string>)
    requires Accepts(Meaning(client, product, expected, ids))
    ensures var r := Meaning(client, product, expected, ids);
      if r.payment.Some?
      then r.payment.value in ids && Creditable(client, product, expected, r.payment.value)
        && r.amount == Some(expected)
      else client.products(product) == AnsweredProduct(Verdict.Success, product) && r.amount.None?
  {
  }

  /** Some candidate is creditable and no lookup is lost before it is asked. */
  predicate Reached(client: Client, product: string, expected: int, ids: seq<string>) {
    exists i | 0 <= i < |ids| :: Creditable(client, product, expected, ids[i]) && !SomeLost(client, ids[..i])
  }

  /** When exactly a result is accepted: a creditable candidate is reached, or no candidate is
      lost, creditable or speaks at all and the productId lookup confirms the payment. */
  lemma AcceptedIff(client: Client, product: string, expected: int, ids: seq<string>)
    ensures Accepts(Meaning(client, product, expected, ids)) <==>
      || Reached(client, product, expected, ids)
      || (&& !SomeLost(client, ids) && !SomeCreditable(client, product, expected, ids)
          && !SomeSpeaks(client, product, expected, ids)
          && client.products(product) == AnsweredProduct(Verdict.Success, product))
  {
    var stop := First(ids, id => Stops(client, product, expected, id));
    if Reached(client, product, expected, ids) {
      var i :| 0 <= i < |ids| && Creditable(client, product, expected, ids[i]) && !SomeLost(client, ids[..i]);
      assert Stops(client, product, expected, ids[i]) && stop <= i;
      assert stop < i ==> ids[..i][stop] == ids[stop];
    } else if stop < |ids| {
      assert Stops(client, product, expected, ids[stop]);
      forall j | 0 <= j < stop
        ensures !client.payments(ids[..stop][j]).Lost?
      {
        assert !Stops(client, product, expected, ids[j]);
      }
    }
  }

  /** Without lost lookups, acceptance depends on the set of answers only. */
  lemma AcceptedAsASet(client: Client, product: string, expected: int, ids: seq<string>)
    requires !SomeLost(client, ids) || !SomeCreditable(client, product, expected, ids)
    ensures Accepts(Meaning(client, product, expected, ids)) <==>
      || SomeCreditable(client, product, expected, ids)
      || (!SomeLost(client, ids) && !SomeSpeaks(client, product, expected, ids) && Accepts(ByProduct(client, product)))
  {
    var stop := First(ids, id => Stops(client, product, expected, id));
    if stop < |ids| {
      assert Stops(client, product, expected, ids[stop]);
    }
  }

  lemma SameMembers(ids: seq<string>, other: seq<string>)
    requires multiset(ids) == multiset(other)
    ensures forall id :: id in ids <==> id in other
  {
    forall id
      ensures id in ids <==> id in other
    {
      assert id in multiset(ids) <==> id in ids;
      assert id in multiset(other) <==> id in other;
    }
  }

  ghost predicate OrderIndependent(client: Client, product: string, expected: int, ids: seq<string>) {
    forall other: seq<string> | multiset(other) == multiset(ids) ::
      Accepts(Meaning(client, product, expected, other)) == Accepts(Meaning(client, product, expected, ids))
  }

  lemma InAnyOrder(client: Client, product: string, expected: int, ids: seq<string>, other: seq<string>)
    requires multiset(other) == multiset(ids)
    requires !SomeLost(client, ids) || !SomeCreditable(client, product, expected, ids)
    ensures Accepts(Meaning(client, product, expected, other)) == Accepts(Meaning(client, product, expected, ids))
  {
    SameMembers(ids, other);
    assert SomeCreditable(client, product, expected, ids)
      <==> exists id :: id in ids && Creditable(client, product, expected, id);
    assert SomeCreditable(client, product, expected, other)
      <==> exists id :: id in other && Creditable(client, product, expected, id);
    assert SomeLost(client, ids) <==> exists id :: id in ids && client.payments(id).Lost?;
    assert SomeLost(client, other) <==> exists id :: id in other && client.payments(id).Lost?;
    assert SomeSpeaks(client, product, expected, ids) <==>
      exists id :: id in ids && (Rejects(client, product, expected, id) || Decides(client, product, id));
    assert SomeSpeaks(client, product, expected, other) <==>
      exists id :: id in other && (Rejects(client, product, expected, id) || Decides(client, product, id));
    AcceptedAsASet(client, product, expected, ids);
    AcceptedAsASet(client, product, expected, other);
  }

  /** Asking candidate i first settles the matter when its lookup is lost or creditable. */
  lemma AskedFirst(client: Client, product: string, expected: int, ids: seq<string>, i: nat)
    returns (other: seq<string>)
    requires i < |ids| && Stops(client, product, expected, ids[i])
    ensures multiset(other) == multiset(ids)
    ensures Accepts(Meaning(client, product, expected, other)) == Creditable(client, product, expected, ids[i])
  {
    other := [ids[i]] + ids[..i] + ids[i + 1..];
    assert ids == ids[..i] + [ids[i]] + ids[i + 1..];
    FirstAt(other, id => Stops(client, product, expected, id), 0);
  }

  /** Acceptance does not depend on the order of the candidates, except exactly when one lookup
      is lost while another would be accepted: whichever is asked first then wins. */
  lemma OrderIndependentIff(client: Client, product: string, expected: int, ids: seq<string>)
    ensures OrderIndependent(client, product, expected, ids) <==>
      !(SomeLost(client, ids) && SomeCreditable(client, product, expected, ids))
  {
    if SomeLost(client, ids) && SomeCreditable(client, product, expected, ids) {
      var lost :| 0 <= lost < |ids| && client.payments(ids[lost]).Lost?;
      var good :| 0 <= good < |ids| && Creditable(client, product, expected, ids[good]);
      var first := AskedFirst(client, product, expected, ids, lost);
      var second := AskedFirst(client, product, expected, ids, good);
    } else {
      forall other: seq<string> | multiset(other) == multiset(ids)
        ensures Accepts(Meaning(client, product, expected, other)) == Accepts(Meaning(client, product, expected, ids))
      {
        InAnyOrder(client, product, expected, ids, other);
      }
    }
  }

  /** Tara answered about some other product or business. */
  predicate Foreign(client: Client, product: string, id: string) {
    var r := client.payments(id);
    r.Answered? && !r.status.Unknown? && !Bound(client, product, id, r)
  }

  /** Candidate j of the longer list is candidate i of the shorter one, and what comes before it
      there is foreign or comes before it here. */
  lemma ForeignShifts(before: seq<string>, foreign: string, after: seq<string>, i: nat)
    requires i < |before + after|
    ensures var j := if i < |before| then i else i + 1; var more := before + [foreign] + after;
      && j < |more| && more[j] == (before + after)[i]
      && forall x | 0 <= x < j :: more[x] == foreign || exists y | 0 <= y < i :: (before + after)[y] == more[x]
  {
    var j := if i < |before| then i else i + 1;
    var more := before + [foreign] + after;
    forall x | 0 <= x < j && more[x] != foreign
      ensures exists y | 0 <= y < i :: (before + after)[y] == more[x]
    {
      var y := if x < |before| then x else x - 1;
      assert (before + after)[y] == more[x];
    }
  }

  lemma ForeignStops(
    client: Client, product: string, expected: int, before: seq<string>, foreign: string, after: seq<string>, i: nat)
    requires Foreign(client, product, foreign) && i < |before + after|
    requires i == First(before + after, id => Stops(client, product, expected, id))
    ensures First(before + [foreign] + after, id => Stops(client, product, expected, id))
      == if i < |before| then i else i + 1
  {
    var more := before + [foreign] + after;
    var j := if i < |before| then i else i + 1;
    ForeignShifts(before, foreign, after, i);
    assert !Stops(client, product, expected, foreign);
    forall x | 0 <= x < j
      ensures !Stops(client, product, expected, more[x])
    {
      if more[x] != foreign {
        var y :| 0 <= y < i && (before + after)[y] == more[x];
      }
    }
    FirstAt(more, id => Stops(client, product, expected, id), j);
  }

  /** The meaning of a list that stops is that of the candidate it stops at. */
  lemma StoppedMeaning(client: Client, product: string, expected: int, ids: seq<string>)
    requires First(ids, id => Stops(client, product, expected, id)) < |ids|
    ensures var id := ids[First(ids, id => Stops(client, product, expected, id))];
      Meaning(client, product, expected, ids) ==
        if client.payments(id).Lost? then Raised
        else Verified(Verdict.Success, Verdict.Success, Some(id), client.payments(id).amount, Clean)
  {
  }

  lemma ForeignKeepsTheStop(
    client: Client, product: string, expected: int, before: seq<string>, foreign: string, after: seq<string>)
    requires Foreign(client, product, foreign)
    requires First(before + after, id => Stops(client, product, expected, id)) < |before + after|
    ensures Meaning(client, product, expected, before + [foreign] + after)
      == Meaning(client, product, expected, before + after)
  {
    var i := First(before + after, id => Stops(client, product, expected, id));
    ForeignStops(client, product, expected, before, foreign, after, i);
    ForeignShifts(before, foreign, after, i);
    StoppedMeaning(client, product, expected, before + after);
    StoppedMeaning(client, product, expected, before + [foreign] + after);
  }

  lemma ForeignStopsNothing(
    client: Client, product: string, expected: int, before: seq<string>, foreign: string, after: seq<string>)
    requires Foreign(client, product, foreign)
    requires First(before + after, id => Stops(client, product, expected, id)) == |before + after|
    ensures First(before + [foreign] + after, id => Stops(client, product, expected, id))
      == |before + [foreign] + after|
  {
    var more := before + [foreign] + after;
    assert !Stops(client, product, expected, foreign);
    forall x | 0 <= x < |more|
      ensures !Stops(client, product, expected, more[x])
    {
      if x != |before| {
        assert more[x] == (before + after)[if x < |before| then x else x - 1];
      }
    }
    FirstAt(more, id => Stops(client, product, expected, id), |more|);
  }

  /** What is accepted although no candidate stops the search was confirmed by the productId. */
  lemma GoingOnIsByProduct(client: Client, product: string, expected: int, ids: seq<string>)
    requires First(ids, id => Stops(client, product, expected, id)) == |ids|
    ensures var r := Meaning(client, product, expected, ids); Accepts(r) ==> r.payment.None?
  {
  }

  /** A foreign answer where nothing stops the search is an answer that must not be applied. */
  lemma ForeignIsRejected(
    client: Client, product: string, expected: int, before: seq<string>, foreign: string, after: seq<string>)
    requires Foreign(client, product, foreign)
    requires First(before + [foreign] + after, id => Stops(client, product, expected, id))
      == |before + [foreign] + after|
    ensures !Accepts(Meaning(client, product, expected, before + [foreign] + after))
  {
    var more := before + [foreign] + after;
    assert more[|before|] == foreign && Rejects(client, product, expected, more[|before|]);
  }

  /** Slipping a foreign paymentId among the candidates never makes an unacceptable result
      acceptable: what is accepted with it was accepted without it, and is still accepted
      exactly when the acceptance came from a paymentId lookup. */
  lemma ForeignAnswersNeverHelp(
    client: Client, product: string, expected: int, before: seq<string>, foreign: string, after: seq<string>)
    requires Foreign(client, product, foreign)
    ensures var r := Meaning(client, product, expected, before + after);
      Accepts(Meaning(client, product, expected, before + [foreign] + after)) <==> Accepts(r) && r.payment.Some?
  {
    var i := First(before + after, id => Stops(client, product, expected, id));
    if i < |before + after| {
      ForeignKeepsTheStop(client, product, expected, before, foreign, after);
      StoppedMeaning(client, product, expected, before + after);
    } else {
      ForeignStopsNothing(client, product, expected, before, foreign, after);
      GoingOnIsByProduct(client, product, expected, before + after);
      ForeignIsRejected(client, product, expected, before, foreign, after);
    }
  }
}
