/**
 * The claim update protocol: a closed set of three update variants, the queries
 * each answers, and the applier that writes one of them into a claim in place.
 * The applier's policy is the one `TestUpdateClaim` pins down: the status is
 * always overwritten, the description on a full or an error update, the extra
 * data only on a full update and then replaced outright.
 */
module State {
  import opened K8s

  /** An error value; `New` plays the part of `errors.New`. */
  datatype Error = New(text: string) {

    /** The error's message text. */
    function Error(): string
    {
      text
    }
  }

  /** The three kinds of change a caller may ask for. */
  datatype Update =
    | FullUpdate(status: ServicePlanClaimStatus, description: string,
                 firstID: string, secondID: string, extra: map<string, string>)
    | StatusUpdate(status: ServicePlanClaimStatus)
    | ErrUpdate(err: Error)
  {

    /** The status the update sets; an error update always sets `StatusFailed`. */
    function Status(): (s: ServicePlanClaimStatus)
      ensures FullUpdate? || StatusUpdate? ==> s == status
      ensures ErrUpdate? ==> s == StatusFailed
    {
      match this
      case FullUpdate(s, _, _, _, _) => s
      case StatusUpdate(s) => s
      case ErrUpdate(_) => StatusFailed
    }

    /** The description the update sets: the given one for a full update, the
        error's message for an error update. A status update has none to offer;
        it answers the empty string, and the applier never asks. */
    function Description(): (d: string)
      ensures FullUpdate? ==> d == description
      ensures ErrUpdate? ==> d == err.Error()
    {
      match this
      case FullUpdate(_, d, _, _, _) => d
      case StatusUpdate(_) => ""
      case ErrUpdate(e) => e.Error()
    }

    /** The extra data a full update installs; the other variants answer the empty
        map, and the applier never asks them. */
    function Extra(): (x: map<string, string>)
      ensures FullUpdate? ==> x == extra
    {
      match this
      case FullUpdate(_, _, _, _, x) => x
      case StatusUpdate(_) => map[]
      case ErrUpdate(_) => map[]
    }
  }

  /** The claim's value after `u` is written into `c`. */
  function Applied(c: ClaimRecord, u: Update): (r: ClaimRecord)
    ensures ServicePlanClaimStatus(r.Status) == u.Status()
    ensures u.FullUpdate? ==> r.StatusDescription == u.Description()
    ensures u.ErrUpdate? ==> r.StatusDescription == u.err.Error()
    ensures u.StatusUpdate? ==> r.StatusDescription == c.StatusDescription
    ensures u.FullUpdate? ==> r.Extra == u.Extra()
    ensures !u.FullUpdate? ==> r.Extra == c.Extra
    ensures u.FullUpdate? ==> r.FirstID == u.firstID && r.SecondID == u.secondID
    ensures !u.FullUpdate? ==> r.FirstID == c.FirstID && r.SecondID == c.SecondID
  {
    var c' := c.(Status := u.Status().String());
    match u
    case FullUpdate(_, description, first, second, extra) =>
      c'.(StatusDescription := description, FirstID := first, SecondID := second, Extra := extra)
    case StatusUpdate(_) => c'
    case ErrUpdate(e) => c'.(StatusDescription := e.Error())
  }

  /** Writes `update` into `claim`. Total over every (non-null) claim and every update. */
  method UpdateClaim(claim: ServicePlanClaim, update: Update)
    modifies claim
    ensures claim.Snapshot() == Applied(old(claim.Snapshot()), update)
    ensures ServicePlanClaimStatus(claim.Status) == update.Status()
    ensures update.FullUpdate? ==>
      && claim.StatusDescription == update.Description()
      && claim.Extra == update.Extra()
      && claim.FirstID == update.firstID && claim.SecondID == update.secondID
    ensures update.ErrUpdate? ==>
      && claim.StatusDescription == update.err.Error()
      && claim.Extra == old(claim.Extra)
      && claim.FirstID == old(claim.FirstID) && claim.SecondID == old(claim.SecondID)
    ensures update.StatusUpdate? ==>
      && claim.StatusDescription == old(claim.StatusDescription)
      && claim.Extra == old(claim.Extra)
      && claim.FirstID == old(claim.FirstID) && claim.SecondID == old(claim.SecondID)
  {
    claim.Status := update.Status().String();
    match update {
      case FullUpdate(_, description, first, second, extra) =>
        claim.StatusDescription := description;
        claim.FirstID := first;
        claim.SecondID := second;
        claim.Extra := extra;
      case StatusUpdate(_) =>
      case ErrUpdate(e) =>
        claim.StatusDescription := e.Error();
    }
  }

  // ---------------------------------------------------------------------------
  // Properties of the applier

  /** A status-only update changes the status and nothing else. */
  lemma StatusUpdateChangesOnlyStatus(c: ClaimRecord, s: ServicePlanClaimStatus)
    ensures Applied(c, StatusUpdate(s)) == c.(Status := s.String())
  {
  }

  /** An error update sets the failed status and the error's text, and nothing else. */
  lemma ErrUpdateChangesStatusAndDescription(c: ClaimRecord, e: Error)
    ensures Applied(c, ErrUpdate(e)) == c.(Status := StatusFailed.String(), StatusDescription := e.Error())
  {
  }

  /** A full update leaves no trace of the claim it was written into: the extra
      data is replaced, never merged with what was there. */
  lemma FullUpdateForgetsPriorClaim(c1: ClaimRecord, c2: ClaimRecord, u: Update)
    requires u.FullUpdate?
    ensures Applied(c1, u) == Applied(c2, u)
    ensures Applied(c1, u) == ClaimRecord(u.status.String(), u.description, u.firstID, u.secondID, u.extra)
  {
  }

  /** Writing the same update twice is the same as writing it once. */
  lemma AppliedIdempotent(c: ClaimRecord, u: Update)
    ensures Applied(Applied(c, u), u) == Applied(c, u)
  {
  }

  // ---------------------------------------------------------------------------
  // The test's checks on `Extra`

  /** Go's `m[k]` on a map of strings: the value at `k`, or "" when `k` is absent. */
  function Index(m: map<string, string>, k: string): string
  {
    if k in m then m[k] else ""
  }

  /** The check the test makes on `Extra`, as written: same length, and every entry
      of `actual` agrees with `expected[k]`, a lookup that yields "" for a missing key. */
  predicate ExtraCheckAsWritten(actual: map<string, string>, expected: map<string, string>)
    ensures SameEntries(actual, expected) ==> ExtraCheckAsWritten(actual, expected)
  {
    && |actual| == |expected|
    && forall k :: k in actual ==> Index(expected, k) == actual[k]
  }

  /** The check as intended: same length, and every entry of `actual` is an entry of `expected`. */
  predicate SameEntries(actual: map<string, string>, expected: map<string, string>)
  {
    && |actual| == |expected|
    && forall k :: k in actual ==> k in expected && expected[k] == actual[k]
  }

  /** A subset of a finite set that has the same size is the whole set. */
  lemma SubsetOfSameSize(a: set<string>, b: set<string>)
    requires a <= b && |a| == |b|
    ensures a == b
  {
    assert a * b == a && a + b == b;
    assert |b - a| + |a| == |b| by {
      assert (b - a) * a == {} && (b - a) + a == b;
    }
  }

  /** Same size and pointwise agreement is exactly map equality. */
  lemma SameEntriesIsEquality(actual: map<string, string>, expected: map<string, string>)
    ensures SameEntries(actual, expected) <==> actual == expected
  {
    if SameEntries(actual, expected) {
      assert actual.Keys <= expected.Keys;
      assert |actual.Keys| == |actual| && |expected.Keys| == |expected|;
      SubsetOfSameSize(actual.Keys, expected.Keys);
    }
  }

  /** The check as written is as strong as equality when no value of `actual` is empty. */
  lemma ExtraCheckSoundWithoutEmptyValues(actual: map<string, string>, expected: map<string, string>)
    requires forall k :: k in actual ==> actual[k] != ""
    ensures ExtraCheckAsWritten(actual, expected) <==> actual == expected
  {
    if ExtraCheckAsWritten(actual, expected) {
      assert SameEntries(actual, expected);
    }
    SameEntriesIsEquality(actual, expected);
  }

  /** The check as written also accepts a map that is not the expected one: an entry
      whose value is "" passes against a map that lacks the key. */
  lemma ExtraCheckAcceptsOtherMap()
    ensures ExtraCheckAsWritten(map["x" := ""], map["y" := "z"])
    ensures map["x" := ""] != map["y" := "z"]
  {
  }

  /** After the applier, the Extra assertions of `TestUpdateClaim` hold, under both the
      check as written and the intended one. The status and description assertions
      are `Applied`'s own contract. */
  lemma AppliedPassesTestAssertions(c: ClaimRecord, u: Update)
    ensures u.FullUpdate? ==> SameEntries(Applied(c, u).Extra, u.Extra())
    ensures u.FullUpdate? ==> ExtraCheckAsWritten(Applied(c, u).Extra, u.Extra())
    ensures !u.FullUpdate? ==> SameEntries(Applied(c, u).Extra, c.Extra)
    ensures !u.FullUpdate? ==> ExtraCheckAsWritten(Applied(c, u).Extra, c.Extra)
  {
  }

  /** The four cases of `TestUpdateClaim`; the identifiers stand for `uuid.New()`.
      Each result is the value of that case's claim after `UpdateClaim`. */
  method TestUpdateClaim(id1: string, id2: string, id3: string, id4: string)
    returns (r1: ClaimRecord, r2: ClaimRecord, r3: ClaimRecord, r4: ClaimRecord)
    ensures r1 == ClaimRecord(StatusBound.String(), "some other description", id1, id2, map["a" := "b"])
    ensures r2 == ClaimRecord(StatusBinding.String(), "end", id3, id4, map["c" := "d", "e" := "f"])
    ensures r3 == ClaimRecord(StatusFailed.String(), "error", "", "", map[])
    ensures r4 == ClaimRecord(StatusBinding.String(), "something else", "", "", map[])
  {
    var claim := new ServicePlanClaim(StatusBinding.String(), "some description", map[]);
    UpdateClaim(claim, FullUpdate(StatusBound, "some other description", id1, id2, map["a" := "b"]));
    r1 := claim.Snapshot();

    claim := new ServicePlanClaim(StatusProvisioned.String(), "start", map["a" := "b"]);
    UpdateClaim(claim, FullUpdate(StatusBinding, "end", id3, id4, map["c" := "d", "e" := "f"]));
    r2 := claim.Snapshot();

    claim := new ServicePlanClaim(StatusProvisioned.String(), "something", map[]);
    UpdateClaim(claim, ErrUpdate(New("error")));
    r3 := claim.Snapshot();

    claim := new ServicePlanClaim(StatusProvisioned.String(), "something else", map[]);
    UpdateClaim(claim, StatusUpdate(StatusBinding));
    r4 := claim.Snapshot();
  }
}
