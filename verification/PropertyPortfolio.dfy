/** The conflict pass over a portfolio, the corroboration of single decisions, and whose listing stays whose. */
module PropertyPortfolio {
  import opened Common
  import opened PropertyNames
  import opened PropertyMatching

  /** A decision that claims a listing; an empty identifier claims nothing. */
  predicate Claims(d: Decision) {
    !d.status.UNMATCHED? && d.candidate.Some? && d.candidate.value != EMPTY_ID
  }

  predicate SameClaim(d: Decision, e: Decision) {
    Claims(d) && Claims(e) && d.candidate == e.candidate
  }

  predicate Contested(decisions: seq<Decision>, i: nat)
    requires i < |decisions|
  {
    exists j :: 0 <= j < |decisions| && j != i && SameClaim(decisions[i], decisions[j])
  }

  function WithReason(d: Decision, reason: Reason): Decision {
    if reason in d.reasons then d else d.(reasons := d.reasons + [reason])
  }

  function Conflicting(d: Decision): Decision {
    WithReason(d, LISTING_CONFLICT).(status := REVIEW_REQUIRED, confidence := MEDIUM)
  }

  /** The decisions of the conflict pass: each contested claim goes to review, all others stay. */
  function Passed(decisions: seq<Decision>): (passed: seq<Decision>)
    ensures |passed| == |decisions|
  {
    seq(|decisions|, i requires 0 <= i < |decisions| =>
      if Contested(decisions, i) then Conflicting(decisions[i]) else decisions[i])
  }

  /** The decisions before `n` that claim `id`, in order. */
  ghost predicate Lists(decisions: seq<Decision>, n: nat, id: ListingId, indexes: seq<nat>)
    requires n <= |decisions|
  {
    && (forall i :: 0 <= i < n ==> (i in indexes <==> Claims(decisions[i]) && decisions[i].candidate == Some(id)))
    && (forall k :: 0 <= k < |indexes| ==> indexes[k] < n)
    && (forall k, m :: 0 <= k < m < |indexes| ==> indexes[k] < indexes[m])
  }

  function Indexes(byListing: map<ListingId, seq<nat>>, id: ListingId): seq<nat> {
    if id in byListing then byListing[id] else []
  }

  lemma ListsOneMore(decisions: seq<Decision>, n: nat, id: ListingId, indexes: seq<nat>)
    requires n < |decisions| && Lists(decisions, n, id, indexes)
    ensures Lists(decisions, n + 1, id,
                  if Claims(decisions[n]) && decisions[n].candidate == Some(id) then indexes + [n] else indexes)
  {
    assert n !in indexes;
  }

  method GroupByListing(decisions: array<Decision>) returns (byListing: map<ListingId, seq<nat>>)
    ensures forall id :: Lists(decisions[..], decisions.Length, id, Indexes(byListing, id))
  {
    byListing := map[];
    for index := 0 to decisions.Length
      invariant forall id :: Lists(decisions[..], index, id, Indexes(byListing, id))
    {
      var decision := decisions[index];
      ghost var before := byListing;
      if Claims(decision) {
        var id := decision.candidate.value;
        byListing := byListing[id := Indexes(byListing, id) + [index]];
      }
      forall id ensures Lists(decisions[..], index + 1, id, Indexes(byListing, id)) {
        ListsOneMore(decisions[..], index, id, Indexes(before, id));
      }
    }
  }

  /** A list of at least two claimants is what makes each of them contested. */
  lemma ContestedExactlyWhenListed(decisions: seq<Decision>, id: ListingId, indexes: seq<nat>, i: nat)
    requires Lists(decisions, |decisions|, id, indexes) && i in indexes
    ensures i < |decisions| && (Contested(decisions, i) <==> |indexes| >= 2)
  {
    var k :| 0 <= k < |indexes| && indexes[k] == i;
    if |indexes| >= 2 {
      var j := indexes[if k == 0 then 1 else 0];
      assert j in indexes && j != i;
      assert SameClaim(decisions[i], decisions[j]);
    }
    if Contested(decisions, i) {
      var j :| 0 <= j < |decisions| && j != i && SameClaim(decisions[i], decisions[j]);
      assert j in indexes;
    }
  }

  /** Rewriting the claimants of one listing in place. */
  method MarkConflict(decisions: array<Decision>, indexes: seq<nat>)
    requires forall k :: 0 <= k < |indexes| ==> indexes[k] < decisions.Length
    requires forall k, m :: 0 <= k < m < |indexes| ==> indexes[k] < indexes[m]
    modifies decisions
    ensures forall i :: 0 <= i < decisions.Length ==>
              decisions[i] == if i in indexes then Conflicting(old(decisions[i])) else old(decisions[i])
  {
    for k := 0 to |indexes|
      invariant forall i :: 0 <= i < decisions.Length ==>
                  decisions[i] == if i in indexes[..k] then Conflicting(old(decisions[i])) else old(decisions[i])
    {
      assert indexes[k] !in indexes[..k];
      decisions[indexes[k]] := Conflicting(decisions[indexes[k]]);
      assert indexes[..k + 1] == indexes[..k] + [indexes[k]];
    }
    assert indexes[..|indexes|] == indexes;
  }

  /** The decision `i` after the listings outside `rest` have been handled. */
  ghost predicate Handled(before: seq<Decision>, now: Decision, i: nat, rest: set<ListingId>)
    requires i < |before|
  {
    now == if Contested(before, i) && before[i].candidate.value !in rest then Conflicting(before[i]) else before[i]
  }

  lemma HandlesOneMore(before: seq<Decision>, now: Decision, next: Decision, i: nat, rest: set<ListingId>,
                       id: ListingId, indexes: seq<nat>)
    requires i < |before| && id in rest && Handled(before, now, i, rest)
    requires Lists(before, |before|, id, indexes)
    requires next == if |indexes| >= 2 && i in indexes then Conflicting(now) else now
    ensures Handled(before, next, i, rest - {id})
  {
    if i in indexes {
      ContestedExactlyWhenListed(before, id, indexes, i);
    }
  }

  /** The conflict pass, over the listings in any order. */
  method ConflictPass(decisions: array<Decision>)
    modifies decisions
    ensures decisions[..] == Passed(old(decisions[..]))
  {
    ghost var before := decisions[..];
    var byListing := GroupByListing(decisions);
    var rest := byListing.Keys;
    forall i | 0 <= i < |before| ensures Handled(before, decisions[i], i, rest) {
      if Contested(before, i) {
        var id := before[i].candidate.value;
        assert Lists(before, |before|, id, Indexes(byListing, id));
        assert i in Indexes(byListing, id);
      }
    }
    while rest != {}
      invariant rest <= byListing.Keys
      invariant forall i :: 0 <= i < |before| ==> Handled(before, decisions[i], i, rest)
      decreases |rest|
    {
      var id :| id in rest;
      var indexes := byListing[id];
      assert Lists(before, |before|, id, indexes) by {
        assert Indexes(byListing, id) == indexes;
      }
      ghost var now := decisions[..];
      if |indexes| >= 2 {
        MarkConflict(decisions, indexes);
      }
      forall i | 0 <= i < |before| ensures Handled(before, decisions[i], i, rest - {id}) {
        HandlesOneMore(before, now[i], decisions[i], i, rest, id, indexes);
      }
      rest := rest - {id};
    }
  }

  function Decided(properties: seq<Property>, listings: seq<Listing>): (decisions: seq<Decision>)
    ensures |decisions| == |properties|
  {
    seq(|properties|, i requires 0 <= i < |properties| => DecideProperty(properties[i], listings))
  }

  lemma WithReasonAdds(d: Decision, reason: Reason)
    ensures forall r :: r in WithReason(d, reason).reasons <==> r in d.reasons || r == reason
    ensures WithReason(d, reason) == d.(reasons := WithReason(d, reason).reasons)
  {
  }

  /**
   * Two claims to one listing with an identifier send both to a review of medium confidence with the conflict among
   * the reasons; everything else stays.
   */
  lemma PassMeans(decisions: seq<Decision>, i: nat)
    requires i < |decisions|
    ensures var (d, passed) := (decisions[i], Passed(decisions)[i]);
            if && !d.status.UNMATCHED? && d.candidate.Some? && d.candidate.value != EMPTY_ID
               && exists j :: 0 <= j < |decisions| && j != i && !decisions[j].status.UNMATCHED? &&
                              decisions[j].candidate == d.candidate
            then
              && passed.status == REVIEW_REQUIRED && passed.confidence == MEDIUM
              && (forall r :: r in passed.reasons <==> r in d.reasons || r == LISTING_CONFLICT)
              && d.reasons <= passed.reasons
              && passed == d.(status := passed.status, confidence := passed.confidence, reasons := passed.reasons)
            else passed == d
  {
    WithReasonAdds(decisions[i], LISTING_CONFLICT);
    forall j | 0 <= j < |decisions|
      ensures SameClaim(decisions[i], decisions[j]) <==>
              !decisions[i].status.UNMATCHED? && !decisions[j].status.UNMATCHED? && decisions[i].candidate.Some? &&
              decisions[i].candidate.value != EMPTY_ID && decisions[i].candidate == decisions[j].candidate
    {
    }
  }

  datatype Summary = Summary(propertiesConsidered: nat, listingsConsidered: nat, autoMatched: nat, reviewRequired: nat,
                             unmatched: nat)

  function Count(decisions: seq<Decision>, status: Status): nat {
    if decisions == [] then 0
    else Count(decisions[..|decisions| - 1], status) + if decisions[|decisions| - 1].status == status then 1 else 0
  }

  lemma {:induction false} CountsAddUp(decisions: seq<Decision>)
    ensures Count(decisions, AUTO_MATCH) + Count(decisions, REVIEW_REQUIRED) + Count(decisions, UNMATCHED) ==
            |decisions|
  {
    if decisions == [] {
    } else {
      CountsAddUp(decisions[..|decisions| - 1]);
    }
  }

  ghost function Those(decisions: seq<Decision>, status: Status): set<int> {
    set i | 0 <= i < |decisions| && decisions[i].status == status
  }

  lemma ThoseOneMore(decisions: seq<Decision>, last: Decision, status: Status)
    ensures Those(decisions + [last], status) ==
            Those(decisions, status) + if last.status == status then {|decisions|} else {}
  {
  }

  /** The counts are what they are called. */
  lemma {:induction false} CountIsExact(decisions: seq<Decision>, status: Status)
    ensures Count(decisions, status) == |Those(decisions, status)|
  {
    if decisions == [] {
      assert Those(decisions, status) == {};
    } else {
      var n, front := |decisions| - 1, decisions[..|decisions| - 1];
      assert decisions == front + [decisions[n]];
      CountIsExact(front, status);
      ThoseOneMore(front, decisions[n], status);
    }
  }

  method MatchPortfolio(properties: seq<Property>, listings: seq<Listing>)
    returns (decisions: seq<Decision>, summary: Summary)
    ensures decisions == Passed(Decided(properties, listings))
    ensures summary.propertiesConsidered == |properties| && summary.listingsConsidered == |listings|
    ensures summary.autoMatched == Count(decisions, AUTO_MATCH)
    ensures summary.reviewRequired == Count(decisions, REVIEW_REQUIRED)
    ensures summary.unmatched == Count(decisions, UNMATCHED)
    ensures summary.autoMatched + summary.reviewRequired + summary.unmatched == summary.propertiesConsidered
  {
    var decided := Decided(properties, listings);
    var working := new Decision[|decided|](i requires 0 <= i < |decided| => decided[i]);
    assert working[..] == decided;
    ConflictPass(working);
    decisions := working[..];
    summary := Summary(|properties|, |listings|, Count(decisions, AUTO_MATCH), Count(decisions, REVIEW_REQUIRED),
                       Count(decisions, UNMATCHED));
    CountsAddUp(decisions);
  }

  predicate StrongName(property: Property, listing: Listing) {
    PreferredSimilarity(property, listing.title) >= AUTO_MATCH_MIN_NAME_SIMILARITY
  }

  function CorroborateFor(strongName: bool, property: Property, listing: Listing, decision: Decision,
                          details: Details)
    : Decision
  {
    if || !decision.status.REVIEW_REQUIRED?
       || decision.candidate.None? || decision.candidate.value == EMPTY_ID
       || decision.candidate.value != listing.id || decision.candidate.value != details.listingId
       || CITY_MISMATCH !in decision.reasons || AMBIGUOUS_RUNNER_UP in decision.reasons
       || LISTING_CONFLICT in decision.reasons
    then decision
    else if !strongName then WithReason(decision, DETAILS_NAME_NOT_STRONG)
    else if property.country.None? || details.country.None? then WithReason(decision, DETAILS_COUNTRY_UNKNOWN)
    else if property.country != details.country then WithReason(decision, DETAILS_COUNTRY_MISMATCH)
    else if property.postalCode.None? || details.postalCode.None? then WithReason(decision, POSTAL_CODE_UNKNOWN)
    else if property.postalCode != details.postalCode then WithReason(decision, POSTAL_CODE_MISMATCH)
    else
      var result := WithReason(decision, POSTAL_CODE_MATCH);
      if property.maxGuests.Some? && details.personCapacity.None? then WithReason(result, PERSON_CAPACITY_UNKNOWN)
      else if property.maxGuests.Some? && property.maxGuests != details.personCapacity then
        WithReason(result, PERSON_CAPACITY_MISMATCH)
      else
        var fitting := if property.maxGuests.Some? then WithReason(result, PERSON_CAPACITY_MATCH) else result;
        WithReason(fitting, CITY_MISMATCH_CORROBORATED).(status := AUTO_MATCH, confidence := HIGH,
                                                         score := AtLeast(fitting.score, CORROBORATED_SCORE))
  }

  /** The later evidence that may overrule a city mismatch. */
  function Corroborate(property: Property, listing: Listing, decision: Decision, details: Details): Decision {
    CorroborateFor(StrongName(property, listing), property, listing, decision, details)
  }

  /** The evidence that turns an uncontested review into an automatic match. */
  predicate Convincing(strongName: bool, property: Property, listing: Listing, decision: Decision, details: Details) {
    && decision.status.REVIEW_REQUIRED? && Claims(decision)
    && decision.candidate == Some(listing.id) && listing.id == details.listingId
    && CITY_MISMATCH in decision.reasons && AMBIGUOUS_RUNNER_UP !in decision.reasons
    && LISTING_CONFLICT !in decision.reasons
    && strongName
    && property.country.Some? && property.country == details.country
    && property.postalCode.Some? && property.postalCode == details.postalCode
    && (property.maxGuests.Some? ==> property.maxGuests == details.personCapacity)
  }

  /**
   * What corroboration may change: it adds reasons, promotes a review exactly on convincing evidence, and nothing
   * else.
   */
  ghost predicate Promotes(convincing: bool, decision: Decision, result: Decision) {
    && decision.reasons <= result.reasons
    && result == if convincing then
                   decision.(status := AUTO_MATCH, confidence := HIGH,
                             score := AtLeast(decision.score, CORROBORATED_SCORE), reasons := result.reasons)
                 else decision.(reasons := result.reasons)
  }

  lemma CorroborationPromotes(strongName: bool, property: Property, listing: Listing, decision: Decision,
                              details: Details)
    ensures Promotes(Convincing(strongName, property, listing, decision, details), decision,
                     CorroborateFor(strongName, property, listing, decision, details))
  {
  }

  /** Promotion needs all of the evidence and nothing else; nobody is demoted and the candidate never changes. */
  lemma CorroborationExactlyWhen(property: Property, listing: Listing, decision: Decision, details: Details)
    ensures Promotes(Convincing(StrongName(property, listing), property, listing, decision, details), decision,
                     Corroborate(property, listing, decision, details))
  {
    CorroborationPromotes(StrongName(property, listing), property, listing, decision, details);
  }

  /** A review that the details of its own listing may settle. */
  ghost predicate Reviewable(decision: Decision, listing: Listing, details: Details) {
    && decision.status == REVIEW_REQUIRED && decision.candidate == Some(listing.id) && listing.id != EMPTY_ID
    && details.listingId == listing.id && CITY_MISMATCH in decision.reasons
    && AMBIGUOUS_RUNNER_UP !in decision.reasons && LISTING_CONFLICT !in decision.reasons
  }

  ghost predicate CountryAgrees(property: Property, details: Details) {
    property.country.Some? && property.country == details.country
  }

  ghost predicate PlaceAgrees(property: Property, details: Details) {
    CountryAgrees(property, details) && property.postalCode.Some? && property.postalCode == details.postalCode
  }

  /** What the details of a listing with a strong name say of the place, */
  ghost predicate PlaceFinds(property: Property, details: Details, reason: Reason) {
    match reason
    case DETAILS_COUNTRY_UNKNOWN => property.country.None? || details.country.None?
    case DETAILS_COUNTRY_MISMATCH =>
      property.country.Some? && details.country.Some? && property.country != details.country
    case POSTAL_CODE_UNKNOWN =>
      CountryAgrees(property, details) && (property.postalCode.None? || details.postalCode.None?)
    case POSTAL_CODE_MISMATCH =>
      && CountryAgrees(property, details) && property.postalCode.Some? && details.postalCode.Some?
      && property.postalCode != details.postalCode
    case POSTAL_CODE_MATCH => PlaceAgrees(property, details)
    case _ => false
  }

  /** and, in the same place, of the number of guests. */
  ghost predicate SizeFinds(property: Property, details: Details, reason: Reason) {
    match reason
    case PERSON_CAPACITY_UNKNOWN => property.maxGuests.Some? && details.personCapacity.None?
    case PERSON_CAPACITY_MISMATCH =>
      property.maxGuests.Some? && details.personCapacity.Some? && property.maxGuests != details.personCapacity
    case PERSON_CAPACITY_MATCH => property.maxGuests.Some? && property.maxGuests == details.personCapacity
    case CITY_MISMATCH_CORROBORATED => property.maxGuests.Some? ==> property.maxGuests == details.personCapacity
    case _ => false
  }

  ghost predicate Finds(strongName: bool, property: Property, details: Details, reason: Reason) {
    if !strongName then reason == DETAILS_NAME_NOT_STRONG
    else
      || PlaceFinds(property, details, reason)
      || (PlaceAgrees(property, details) && SizeFinds(property, details, reason))
  }

  lemma UnfitResult(property: Property, listing: Listing, decision: Decision, details: Details)
    requires Reviewable(decision, listing, details) && PlaceAgrees(property, details)
    requires property.maxGuests.Some? && property.maxGuests != details.personCapacity
    ensures CorroborateFor(true, property, listing, decision, details) ==
            WithReason(WithReason(decision, POSTAL_CODE_MATCH),
                       if details.personCapacity.None? then PERSON_CAPACITY_UNKNOWN else PERSON_CAPACITY_MISMATCH)
  {
  }

  lemma FitResult(property: Property, listing: Listing, decision: Decision, details: Details)
    requires Reviewable(decision, listing, details) && PlaceAgrees(property, details)
    requires property.maxGuests.Some? ==> property.maxGuests == details.personCapacity
    ensures var result := WithReason(decision, POSTAL_CODE_MATCH);
            CorroborateFor(true, property, listing, decision, details).reasons ==
            WithReason(if property.maxGuests.Some? then WithReason(result, PERSON_CAPACITY_MATCH) else result,
                       CITY_MISMATCH_CORROBORATED).reasons
  {
  }

  lemma TwiceWithReason(d: Decision, first: Reason, second: Reason, reason: Reason)
    ensures reason in WithReason(WithReason(d, first), second).reasons <==>
            reason in d.reasons || reason == first || reason == second
  {
    WithReasonAdds(d, first);
    WithReasonAdds(WithReason(d, first), second);
  }

  lemma SamePlaceExplains(property: Property, listing: Listing, decision: Decision, details: Details, reason: Reason)
    requires Reviewable(decision, listing, details) && PlaceAgrees(property, details)
    ensures reason in CorroborateFor(true, property, listing, decision, details).reasons <==>
            reason in decision.reasons || reason == POSTAL_CODE_MATCH || SizeFinds(property, details, reason)
  {
    var result := WithReason(decision, POSTAL_CODE_MATCH);
    var corroborated := CorroborateFor(true, property, listing, decision, details).reasons;
    if property.maxGuests.Some? && property.maxGuests != details.personCapacity {
      var gap := if details.personCapacity.None? then PERSON_CAPACITY_UNKNOWN else PERSON_CAPACITY_MISMATCH;
      assert reason in corroborated <==> reason in decision.reasons || reason == POSTAL_CODE_MATCH || reason == gap by {
        UnfitResult(property, listing, decision, details);
        TwiceWithReason(decision, POSTAL_CODE_MATCH, gap, reason);
      }
    } else if property.maxGuests.Some? {
      assert reason in corroborated <==> reason in decision.reasons || reason == POSTAL_CODE_MATCH ||
                                         reason == PERSON_CAPACITY_MATCH || reason == CITY_MISMATCH_CORROBORATED by {
        FitResult(property, listing, decision, details);
        WithReasonAdds(decision, POSTAL_CODE_MATCH);
        TwiceWithReason(result, PERSON_CAPACITY_MATCH, CITY_MISMATCH_CORROBORATED, reason);
      }
    } else {
      assert reason in corroborated <==> reason in decision.reasons || reason == POSTAL_CODE_MATCH ||
                                         reason == CITY_MISMATCH_CORROBORATED by {
        FitResult(property, listing, decision, details);
        TwiceWithReason(decision, POSTAL_CODE_MATCH, CITY_MISMATCH_CORROBORATED, reason);
      }
    }
  }

  lemma OtherPlaceExplains(strongName: bool, property: Property, listing: Listing, decision: Decision,
                           details: Details, reason: Reason)
    requires Reviewable(decision, listing, details) && !(strongName && PlaceAgrees(property, details))
    ensures reason in CorroborateFor(strongName, property, listing, decision, details).reasons <==>
            reason in decision.reasons || Finds(strongName, property, details, reason)
  {
  }

  /** The reasons that corroboration adds are exactly those that the details give. */
  lemma CorroborationExplains(strongName: bool, property: Property, listing: Listing, decision: Decision,
                              details: Details, reason: Reason)
    ensures reason in CorroborateFor(strongName, property, listing, decision, details).reasons <==>
            reason in decision.reasons ||
            (Reviewable(decision, listing, details) && Finds(strongName, property, details, reason))
  {
    if Reviewable(decision, listing, details) {
      if strongName && PlaceAgrees(property, details) {
        SamePlaceExplains(property, listing, decision, details, reason);
      } else {
        OtherPlaceExplains(strongName, property, listing, decision, details, reason);
      }
    }
  }

  lemma RepeatedReason(d: Decision, reason: Reason)
    ensures WithReason(WithReason(d, reason), reason) == WithReason(d, reason)
    ensures forall r :: r in d.reasons ==> WithReason(WithReason(d, reason), r) == WithReason(d, reason)
  {
  }

  lemma RepeatedCorroboration(strongName: bool, property: Property, listing: Listing, decision: Decision,
                              details: Details)
    ensures var result := CorroborateFor(strongName, property, listing, decision, details);
            CorroborateFor(strongName, property, listing, result, details) == result
  {
    var matched := WithReason(decision, POSTAL_CODE_MATCH);
    WithReasonAdds(decision, POSTAL_CODE_MATCH);
    RepeatedReason(matched, PERSON_CAPACITY_UNKNOWN);
    RepeatedReason(matched, PERSON_CAPACITY_MISMATCH);
    RepeatedReason(decision, DETAILS_NAME_NOT_STRONG);
  }

  /** The same evidence again adds nothing. */
  lemma CorroborationIsIdempotent(property: Property, listing: Listing, decision: Decision, details: Details)
    ensures var result := Corroborate(property, listing, decision, details);
            Corroborate(property, listing, result, details) == result
  {
    RepeatedCorroboration(StrongName(property, listing), property, listing, decision, details);
  }

  /** One corroboration call on the decision `index`. */
  datatype Call = Call(index: nat, property: Property, listing: Listing, details: Details)

  function Apply(decisions: seq<Decision>, call: Call): (after: seq<Decision>)
    ensures |after| == |decisions|
  {
    if call.index >= |decisions| then decisions
    else decisions[call.index := Corroborate(call.property, call.listing, decisions[call.index], call.details)]
  }

  function Run(decisions: seq<Decision>, calls: seq<Call>): (after: seq<Decision>)
    ensures |after| == |decisions|
    decreases |calls|
  {
    if calls == [] then decisions else Run(Apply(decisions, calls[0]), calls[1..])
  }

  /** Two decisions on the same listing are both in review as a conflict. */
  ghost predicate Separated(d: Decision, e: Decision) {
    SameClaim(d, e) ==>
      && d.status.REVIEW_REQUIRED? && e.status.REVIEW_REQUIRED?
      && LISTING_CONFLICT in d.reasons && LISTING_CONFLICT in e.reasons
  }

  ghost predicate AllSeparated(decisions: seq<Decision>) {
    forall i, j :: 0 <= i < j < |decisions| ==> Separated(decisions[i], decisions[j])
  }

  lemma PassSeparates(decisions: seq<Decision>)
    ensures AllSeparated(Passed(decisions))
  {
    var passed := Passed(decisions);
    forall i, j | 0 <= i < j < |passed| ensures Separated(passed[i], passed[j]) {
      if SameClaim(passed[i], passed[j]) {
        assert SameClaim(decisions[i], decisions[j]) && SameClaim(decisions[j], decisions[i]);
      }
    }
  }

  lemma CorroborationSeparates(d: Decision, e: Decision, property: Property, listing: Listing, details: Details)
    requires Separated(d, e)
    ensures Separated(Corroborate(property, listing, d, details), e)
    ensures Separated(e, Corroborate(property, listing, d, details))
  {
    CorroborationExactlyWhen(property, listing, d, details);
  }

  lemma {:induction false} RunSeparates(decisions: seq<Decision>, calls: seq<Call>)
    requires AllSeparated(decisions)
    ensures AllSeparated(Run(decisions, calls))
    decreases |calls|
  {
    if calls == [] {
    } else {
      var call, after := calls[0], Apply(decisions, calls[0]);
      forall i, j | 0 <= i < j < |after| ensures Separated(after[i], after[j]) {
        assert Separated(decisions[i], decisions[j]);
        if i == call.index {
          CorroborationSeparates(decisions[i], decisions[j], call.property, call.listing, call.details);
        } else if j == call.index {
          CorroborationSeparates(decisions[j], decisions[i], call.property, call.listing, call.details);
        }
      }
      RunSeparates(after, calls[1..]);
    }
  }

  ghost predicate Shares(decisions: seq<Decision>, i: nat, j: nat)
    requires i < |decisions| && j < |decisions|
  {
    decisions[i].status.AUTO_MATCH? && decisions[j].status.AUTO_MATCH? &&
      decisions[i].candidate == decisions[j].candidate
  }

  function Outcome(properties: seq<Property>, listings: seq<Listing>, calls: seq<Call>): (final: seq<Decision>)
    ensures |final| == |properties|
  {
    Run(Passed(Decided(properties, listings)), calls)
  }

  lemma OutcomeSeparated(properties: seq<Property>, listings: seq<Listing>, calls: seq<Call>)
    ensures AllSeparated(Outcome(properties, listings, calls))
  {
    PassSeparates(Decided(properties, listings));
    RunSeparates(Passed(Decided(properties, listings)), calls);
  }

  lemma SharedIsUnclaimed(decisions: seq<Decision>, i: nat, j: nat)
    requires i < j < |decisions| && AllSeparated(decisions) && Shares(decisions, i, j)
    ensures !Claims(decisions[i])
  {
    assert Separated(decisions[i], decisions[j]);
  }

  lemma CallLeavesCandidate(decisions: seq<Decision>, call: Call, i: nat)
    requires i < |decisions|
    ensures var after := Apply(decisions, call)[i];
            && after.candidate == decisions[i].candidate
            && (decisions[i].candidate == Some(EMPTY_ID) ==> after == decisions[i])
            && (after.status.UNMATCHED? <==> decisions[i].status.UNMATCHED?)
  {
    if call.index == i {
      CorroborationExactlyWhen(call.property, call.listing, decisions[i], call.details);
    }
  }

  /** Corroboration leaves an automatic match to the empty identifier, and the lack of one, as they are. */
  lemma {:induction false} EmptyIdIsUntouched(decisions: seq<Decision>, calls: seq<Call>, i: nat)
    requires i < |decisions|
    ensures Run(decisions, calls)[i].candidate == decisions[i].candidate
    ensures decisions[i].candidate == Some(EMPTY_ID) ==> Run(decisions, calls)[i] == decisions[i]
    ensures Run(decisions, calls)[i].status.UNMATCHED? <==> decisions[i].status.UNMATCHED?
    decreases |calls|
  {
    if calls == [] {
    } else {
      CallLeavesCandidate(decisions, calls[0], i);
      EmptyIdIsUntouched(Apply(decisions, calls[0]), calls[1..], i);
    }
  }

  lemma FinalNamesAListing(properties: seq<Property>, listings: seq<Listing>, calls: seq<Call>, i: nat)
    requires i < |properties|
    ensures Outcome(properties, listings, calls)[i].status.AUTO_MATCH? ==>
            Outcome(properties, listings, calls)[i].candidate.Some?
  {
    var decided := Decided(properties, listings);
    EmptyIdIsUntouched(Passed(decided), calls, i);
    assert decided[i].candidate.None? ==> decided[i].status.UNMATCHED? && Passed(decided)[i] == decided[i];
  }

  /**
   * After the conflict pass and any sequence of corroborations with any evidence, no two properties are matched
   * automatically to the same listing, unless the listing has the empty identifier.
   */
  lemma MatchesStayExclusive(properties: seq<Property>, listings: seq<Listing>, calls: seq<Call>, i: nat, j: nat)
    requires i < j < |properties|
    ensures var final := Outcome(properties, listings, calls);
            Shares(final, i, j) ==> final[i].candidate == Some(EMPTY_ID)
  {
    var final := Outcome(properties, listings, calls);
    OutcomeSeparated(properties, listings, calls);
    FinalNamesAListing(properties, listings, calls, i);
    if Shares(final, i, j) {
      SharedIsUnclaimed(final, i, j);
    }
  }

  /** Whatever corroboration did, it kept these; and what it promoted was a review of an uncontested leader. */
  ghost predicate Descends(first: Decision, last: Decision) {
    && last.candidate == first.candidate
    && (CITY_MISMATCH in last.reasons <==> CITY_MISMATCH in first.reasons)
    && (AMBIGUOUS_RUNNER_UP in last.reasons <==> AMBIGUOUS_RUNNER_UP in first.reasons)
    && (LISTING_CONFLICT in last.reasons <==> LISTING_CONFLICT in first.reasons)
    && (last.status != first.status ==>
        && first.status.REVIEW_REQUIRED? && last.status.AUTO_MATCH? && CITY_MISMATCH in first.reasons
        && AMBIGUOUS_RUNNER_UP !in first.reasons && LISTING_CONFLICT !in first.reasons)
  }

  lemma CorroborationDescends(property: Property, listing: Listing, decision: Decision, details: Details)
    ensures Descends(decision, Corroborate(property, listing, decision, details))
  {
    var strong := StrongName(property, listing);
    CorroborationPromotes(strong, property, listing, decision, details);
    CorroborationExplains(strong, property, listing, decision, details, CITY_MISMATCH);
    CorroborationExplains(strong, property, listing, decision, details, AMBIGUOUS_RUNNER_UP);
    CorroborationExplains(strong, property, listing, decision, details, LISTING_CONFLICT);
  }

  lemma {:induction false} RunDescends(decisions: seq<Decision>, calls: seq<Call>, i: nat)
    requires i < |decisions|
    ensures Descends(decisions[i], Run(decisions, calls)[i])
    decreases |calls|
  {
    if calls == [] {
    } else {
      var call := calls[0];
      CorroborationDescends(call.property, call.listing, decisions[i], call.details);
      RunDescends(Apply(decisions, call), calls[1..], i);
    }
  }

  /** The best titled listing, ahead of every other by the margin. */
  ghost predicate LeadsAll(property: Property, listings: seq<Listing>, b: nat) {
    && b < |listings| && listings[b].titled
    && RivalsAtMost(property, listings, b, Scored(property, listings[b]).score - 15.0)
  }

  lemma LeaderIsDecided(property: Property, listings: seq<Listing>)
    ensures var d := DecideProperty(property, listings);
            !d.status.UNMATCHED? && AMBIGUOUS_RUNNER_UP !in d.reasons ==>
              exists b: nat :: LeadsAll(property, listings, b) && d.candidate == Some(listings[b].id)
    ensures DecideProperty(property, listings).status.AUTO_MATCH? ==>
              AMBIGUOUS_RUNNER_UP !in DecideProperty(property, listings).reasons
  {
    var d := DecideProperty(property, listings);
    DecisionReportsTheBest(property, listings);
    if !d.status.UNMATCHED? {
      var i: nat :| Reports(property, listings, d, i);
      assert AMBIGUOUS_RUNNER_UP !in d.reasons ==> LeadsAll(property, listings, i);
      if d.status.AUTO_MATCH? {
        var j := AutoMatchNeedsDomination(property, listings);
        assert i == j;
      }
    }
  }

  /**
   * Whatever corroborations follow, each automatic match is to a titled listing that is ahead of every other titled
   * listing of the account by the margin.
   */
  lemma AutomaticMatchesLead(properties: seq<Property>, listings: seq<Listing>, calls: seq<Call>, i: nat)
    requires i < |properties|
    ensures var final := Outcome(properties, listings, calls)[i];
            final.status.AUTO_MATCH? ==>
              exists b: nat :: LeadsAll(properties[i], listings, b) && final.candidate == Some(listings[b].id)
  {
    var decided := Decided(properties, listings);
    RunDescends(Passed(decided), calls, i);
    PassMeans(decided, i);
    LeaderIsDecided(properties[i], listings);
  }

  /** The details agree with the property in country, postal code and, where it has a limit, the number of guests. */
  ghost predicate Agree(property: Property, details: Details) {
    && property.country.Some? && details.country == property.country
    && property.postalCode.Some? && details.postalCode == property.postalCode
    && (property.maxGuests.Some? ==> details.personCapacity == property.maxGuests)
  }

  lemma ReviewOfTheBest(property: Property, listings: seq<Listing>, b: nat)
    requires Best(property, listings, b)
    requires property.city != "" && listings[b].city != "" && property.city != listings[b].city
    ensures var (d, score) := (DecideProperty(property, listings), Scored(property, listings[b]).score);
            && LISTING_CONFLICT !in d.reasons
            && (LeadsAll(property, listings, b) <==> AMBIGUOUS_RUNNER_UP !in d.reasons)
            && (LeadsAll(property, listings, b) ==> CITY_MISMATCH in d.reasons)
            && !d.status.AUTO_MATCH? && (d.status.REVIEW_REQUIRED? <==> score >= 70.0)
            && (d.status.REVIEW_REQUIRED? ==> d.candidate == Some(listings[b].id))
  {
    var d := DecideProperty(property, listings);
    DecisionReportsTheBest(property, listings);
    assert listings[b] in listings;
    var i: nat :| Reports(property, listings, d, i);
    if d.status.AUTO_MATCH? {
      var _ := AutoMatchNeedsDomination(property, listings);
    }
  }

  lemma SoleClaimIsCorroborated(decisions: seq<Decision>, i: nat, property: Property, listing: Listing,
                                details: Details)
    requires i < |decisions|
    requires !decisions[i].status.UNMATCHED? ==>
               forall j :: 0 <= j < |decisions| && j != i ==> decisions[j].candidate != decisions[i].candidate
    ensures Run(Passed(decisions), [Call(i, property, listing, details)])[i] ==
            Corroborate(property, listing, decisions[i], details)
  {
    var call := Call(i, property, listing, details);
    PassMeans(decisions, i);
    assert [call][1..] == [];
    assert Run(Passed(decisions), [call]) == Run(Apply(Passed(decisions), call), []);
  }

  lemma PromotedExactlyWhen(property: Property, listing: Listing, d: Decision, details: Details)
    requires LISTING_CONFLICT !in d.reasons && !d.status.AUTO_MATCH?
    requires d.status.REVIEW_REQUIRED? ==> d.candidate == Some(listing.id)
    ensures Corroborate(property, listing, d, details).status.AUTO_MATCH? <==>
              && d.status.REVIEW_REQUIRED? && AMBIGUOUS_RUNNER_UP !in d.reasons && CITY_MISMATCH in d.reasons
              && PreferredSimilarity(property, listing.title) >= 0.9
              && listing.id != EMPTY_ID && details.listingId == listing.id && Agree(property, details)
  {
    CorroborationExactlyWhen(property, listing, d, details);
  }

  /**
   * The best titled listing bears another city than the property, and no other property is matched with it. Then the
   * details of the listing make it the automatic match exactly if they agree, the name is strong, the score reaches a
   * review, the listing has an identifier, and every other listing is behind by the margin.
   */
  lemma EvidenceMatchesExactlyWhen(properties: seq<Property>, listings: seq<Listing>, i: nat, b: nat, details: Details)
    requires i < |properties| && Best(properties[i], listings, b)
    requires properties[i].city != "" && listings[b].city != "" && properties[i].city != listings[b].city
    requires forall j :: 0 <= j < |properties| && j != i ==>
               DecideProperty(properties[j], listings).candidate != Some(listings[b].id)
    ensures var final := Outcome(properties, listings, [Call(i, properties[i], listings[b], details)])[i];
            final.status.AUTO_MATCH? <==>
              && LeadsAll(properties[i], listings, b) && Scored(properties[i], listings[b]).score >= 70.0
              && PreferredSimilarity(properties[i], listings[b].title) >= 0.9
              && listings[b].id != EMPTY_ID && details.listingId == listings[b].id && Agree(properties[i], details)
  {
    var d := DecideProperty(properties[i], listings);
    ReviewOfTheBest(properties[i], listings, b);
    assert Outcome(properties, listings, [Call(i, properties[i], listings[b], details)])[i] ==
           Corroborate(properties[i], listings[b], d, details) by {
      SoleClaimIsCorroborated(Decided(properties, listings), i, properties[i], listings[b], details);
    }
    PromotedExactlyWhen(properties[i], listings[b], d, details);
  }

  /** Such evidence exists: a property that bears the name of the only listing, which its own details place right. */
  lemma SoleListingIsCorroborated(p: Property, listing: Listing, details: Details)
    requires listing.titled && listing.title != "" && p.name == listing.title && listing.id != EMPTY_ID
    requires p.city != "" && listing.city != "" && p.city != listing.city
    requires details.listingId == listing.id && Agree(p, details)
    ensures Outcome([p], [listing], [Call(0, p, listing, details)])[0].status.AUTO_MATCH?
  {
    PreferredSimilarityIsBounded(p, listing.title);
    assert PreferredSimilarity(p, listing.title) == 1.0;
    RoundScoreIsMonotone(70.0, RawScore(1.0, SameCity(p, listing), SameCountry(p, listing)));
    assert RoundScore(70.0) == 70.0;
    assert Scored(p, listing).score >= 70.0;
    assert Best(p, [listing], 0);
    EvidenceMatchesExactlyWhen([p], [listing], 0, 0, details);
  }

  ghost predicate Exclusive(decisions: seq<Decision>) {
    forall i, j :: 0 <= i < j < |decisions| ==> !Shares(decisions, i, j)
  }

  /** A listing with the empty identifier that is the automatic match of the property. */
  ghost predicate MatchesEmptyId(listings: seq<Listing>, property: Property) {
    exists a: nat :: Dominates(property, listings, a) && listings[a].id == EMPTY_ID
  }

  lemma FinalEmptyId(properties: seq<Property>, listings: seq<Listing>, calls: seq<Call>, i: nat)
    requires i < |properties|
    ensures var d := Outcome(properties, listings, calls)[i];
            d.status.AUTO_MATCH? && d.candidate == Some(EMPTY_ID) <==> MatchesEmptyId(listings, properties[i])
  {
    var decided := Decided(properties, listings);
    EmptyIdIsUntouched(Passed(decided), calls, i);
    assert decided[i].candidate == Some(EMPTY_ID) ==> Passed(decided)[i] == decided[i];
    AutoMatchExactlyWhen(properties[i], listings);
    if decided[i].status.AUTO_MATCH? {
      var a := AutoMatchNeedsDomination(properties[i], listings);
      assert decided[i].candidate == Some(listings[a].id);
    }
  }

  ghost predicate Rivals(properties: seq<Property>, listings: seq<Listing>, i: nat, j: nat)
    requires i < |properties| && j < |properties|
  {
    MatchesEmptyId(listings, properties[i]) && MatchesEmptyId(listings, properties[j])
  }

  lemma SharesExactlyWhen(properties: seq<Property>, listings: seq<Listing>, calls: seq<Call>, i: nat, j: nat)
    requires i < j < |properties|
    ensures Shares(Outcome(properties, listings, calls), i, j) <==> Rivals(properties, listings, i, j)
  {
    MatchesStayExclusive(properties, listings, calls, i, j);
    FinalEmptyId(properties, listings, calls, i);
    FinalEmptyId(properties, listings, calls, j);
  }

  lemma ExclusiveFrom(final: seq<Decision>, properties: seq<Property>, listings: seq<Listing>)
    requires |final| == |properties|
    requires forall i, j :: 0 <= i < j < |final| ==> (Shares(final, i, j) <==> Rivals(properties, listings, i, j))
    ensures Exclusive(final) <==> forall i, j :: 0 <= i < j < |properties| ==> !Rivals(properties, listings, i, j)
  {
  }

  /**
   * The whole outcome is exclusive exactly when at most one property is dominated by a listing with the empty
   * identifier, which the conflict pass does not see.
   */
  lemma ExclusiveExactlyWhen(properties: seq<Property>, listings: seq<Listing>, calls: seq<Call>)
    ensures Exclusive(Outcome(properties, listings, calls)) <==>
            forall i, j :: 0 <= i < j < |properties| ==> !Rivals(properties, listings, i, j)
  {
    var final := Outcome(properties, listings, calls);
    forall i, j | 0 <= i < j < |final| ensures Shares(final, i, j) <==> Rivals(properties, listings, i, j) {
      SharesExactlyWhen(properties, listings, calls, i, j);
    }
    ExclusiveFrom(final, properties, listings);
  }

  lemma NoEmptyIdMatches(listings: seq<Listing>, property: Property)
    requires forall listing :: listing in listings ==> listing.id != EMPTY_ID
    ensures !MatchesEmptyId(listings, property)
  {
    forall a: nat | Dominates(property, listings, a) ensures listings[a].id != EMPTY_ID {
      assert listings[a] in listings;
    }
  }

  /** With identifiers on all listings, as the discovery of listings guarantees, the outcome is always exclusive. */
  lemma ExclusiveWithIdentifiers(properties: seq<Property>, listings: seq<Listing>, calls: seq<Call>)
    requires forall listing :: listing in listings ==> listing.id != EMPTY_ID
    ensures Exclusive(Outcome(properties, listings, calls))
  {
    ExclusiveExactlyWhen(properties, listings, calls);
    forall property ensures !MatchesEmptyId(listings, property) {
      NoEmptyIdMatches(listings, property);
    }
  }

  lemma SoleListingMatches(p: Property, listing: Listing)
    requires listing.id == EMPTY_ID && listing.titled && listing.title != "" && p.name == listing.title
    requires SameCity(p, listing) && SameCountry(p, listing)
    ensures MatchesEmptyId([listing], p)
  {
    PreferredSimilarityIsBounded(p, listing.title);
    assert PreferredSimilarity(p, listing.title) == 1.0;
    assert RoundScore(95.0) == 95.0;
    assert Dominates(p, [listing], 0);
  }

  /** Such an outcome exists: two properties that both bear the name and place of the only listing. */
  lemma EmptyIdCanBeShared(p: Property, q: Property, listing: Listing)
    requires listing.id == EMPTY_ID && listing.titled && listing.title != ""
    requires p.name == q.name == listing.title
    requires SameCity(p, listing) && SameCity(q, listing) && SameCountry(p, listing) && SameCountry(q, listing)
    ensures !Exclusive(Outcome([p, q], [listing], []))
  {
    SoleListingMatches(p, listing);
    SoleListingMatches(q, listing);
    SharesExactlyWhen([p, q], [listing], [], 0, 1);
  }
}
