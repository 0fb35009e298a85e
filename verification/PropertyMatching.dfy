/**
 * Matching the properties of an account with its Airbnb listings: scores, ranking, the decision for one property,
 * the conflict pass over the portfolio and the later corroboration of single decisions.
 */
module PropertyMatching {
  import opened Common
  import opened PropertyNames

  /** Identifiers are numbered in the order they sort; 0 is the empty identifier. */
  type ListingId = nat

  const EMPTY_ID: ListingId := 0

  const AUTO_MATCH_MIN_SCORE := 90.0
  const REVIEW_MIN_SCORE := 70.0
  const AUTO_MATCH_MIN_NAME_SIMILARITY := 0.9
  const AUTO_MATCH_MIN_MARGIN := 15.0
  const CORROBORATED_SCORE := 95.0

  /** Texts are normalised; an unknown name or city is empty and an unknown country or postal code missing. */
  datatype Property = Property(id: nat, name: string, publicTitle: string, city: string, country: Option<string>,
                               postalCode: Option<string>, maxGuests: Option<int>)

  /** `titled` says that the raw title is not blank. */
  datatype Listing = Listing(id: ListingId, titled: bool, title: string, city: string, country: Option<string>)

  datatype Details = Details(listingId: ListingId, personCapacity: Option<int>, country: Option<string>,
                             postalCode: Option<string>)

  datatype Status = AUTO_MATCH | REVIEW_REQUIRED | UNMATCHED

  datatype Confidence = HIGH | MEDIUM | LOW

  datatype Reason = NO_LISTING_CANDIDATE
    | NAME_EXACT | NAME_STRONG | NAME_PARTIAL | NAME_WEAK
    | CITY_MATCH | CITY_MISMATCH | CITY_UNKNOWN
    | COUNTRY_MATCH | COUNTRY_MISMATCH | COUNTRY_UNKNOWN
    | AMBIGUOUS_RUNNER_UP | LISTING_CONFLICT
    | DETAILS_NAME_NOT_STRONG | DETAILS_COUNTRY_UNKNOWN | DETAILS_COUNTRY_MISMATCH
    | POSTAL_CODE_UNKNOWN | POSTAL_CODE_MISMATCH | POSTAL_CODE_MATCH
    | PERSON_CAPACITY_UNKNOWN | PERSON_CAPACITY_MISMATCH | PERSON_CAPACITY_MATCH | CITY_MISMATCH_CORROBORATED

  datatype Candidate = Candidate(listing: Listing, score: real, nameSimilarity: real, cityMismatch: bool,
                                 countryMismatch: bool, reasons: seq<Reason>)

  datatype Decision = Decision(propertyId: nat, status: Status, confidence: Confidence, candidate: Option<ListingId>,
                               title: Option<string>, score: real, runnerUpScore: Option<real>, reasons: seq<Reason>)

  function PreferredSimilarity(property: Property, title: string): real {
    AtLeast(NameSimilarity(property.name, title), NameSimilarity(property.publicTitle, title))
  }

  /** Rounding to two decimals, halves up. */
  function RoundScore(value: real): real {
    (value * 100.0 + 0.5).Floor as real / 100.0
  }

  predicate CityKnown(property: Property, listing: Listing) {
    property.city != "" && listing.city != ""
  }

  predicate CountryKnown(property: Property, listing: Listing) {
    property.country.Some? && listing.country.Some?
  }

  predicate SameCity(property: Property, listing: Listing) {
    CityKnown(property, listing) && property.city == listing.city
  }

  predicate SameCountry(property: Property, listing: Listing) {
    CountryKnown(property, listing) && property.country == listing.country
  }

  function RawScore(nameSimilarity: real, sameCity: bool, sameCountry: bool): real {
    nameSimilarity * 70.0 + (if sameCity then 15.0 else 0.0) + if sameCountry then 10.0 else 0.0
  }

  function NameReason(similarity: real): Reason {
    if similarity == 1.0 then NAME_EXACT
    else if similarity >= AUTO_MATCH_MIN_NAME_SIMILARITY then NAME_STRONG
    else if similarity >= 0.65 then NAME_PARTIAL
    else NAME_WEAK
  }

  function CityReason(property: Property, listing: Listing): Reason {
    if SameCity(property, listing) then CITY_MATCH
    else if CityKnown(property, listing) then CITY_MISMATCH
    else CITY_UNKNOWN
  }

  function CountryReason(property: Property, listing: Listing): Reason {
    if SameCountry(property, listing) then COUNTRY_MATCH
    else if CountryKnown(property, listing) then COUNTRY_MISMATCH
    else COUNTRY_UNKNOWN
  }

  function ScoredFor(property: Property, listing: Listing, nameSimilarity: real): Candidate {
    Candidate(listing,
              RoundScore(RawScore(nameSimilarity, SameCity(property, listing), SameCountry(property, listing))),
              nameSimilarity,
              CityKnown(property, listing) && !SameCity(property, listing),
              CountryKnown(property, listing) && !SameCountry(property, listing),
              [NameReason(nameSimilarity), CityReason(property, listing), CountryReason(property, listing)])
  }

  function Scored(property: Property, listing: Listing): Candidate {
    ScoredFor(property, listing, PreferredSimilarity(property, listing.title))
  }

  /** The scoring with its running score and reasons. */
  method ScoreFrom(property: Property, listing: Listing, nameSimilarity: real) returns (candidate: Candidate)
    ensures candidate == ScoredFor(property, listing, nameSimilarity)
  {
    var score := nameSimilarity * 70.0;
    var reasons := [NameReason(nameSimilarity)];
    var cityKnown := CityKnown(property, listing);
    var cityMismatch := cityKnown && property.city != listing.city;
    if cityKnown && !cityMismatch {
      score := score + 15.0;
      reasons := reasons + [CITY_MATCH];
    } else if cityMismatch {
      reasons := reasons + [CITY_MISMATCH];
    } else {
      reasons := reasons + [CITY_UNKNOWN];
    }
    var countryKnown := CountryKnown(property, listing);
    var countryMismatch := countryKnown && property.country != listing.country;
    if countryKnown && !countryMismatch {
      score := score + 10.0;
      reasons := reasons + [COUNTRY_MATCH];
    } else if countryMismatch {
      reasons := reasons + [COUNTRY_MISMATCH];
    } else {
      reasons := reasons + [COUNTRY_UNKNOWN];
    }
    assert score == RawScore(nameSimilarity, SameCity(property, listing), SameCountry(property, listing));
    candidate := Candidate(listing, RoundScore(score), nameSimilarity, cityMismatch, countryMismatch, reasons);
  }

  method ScoreCandidate(property: Property, listing: Listing) returns (candidate: Candidate)
    ensures candidate == Scored(property, listing)
  {
    candidate := ScoreFrom(property, listing, PreferredSimilarity(property, listing.title));
  }

  lemma PreferredSimilarityIsBounded(property: Property, title: string)
    ensures 0.0 <= PreferredSimilarity(property, title) <= 1.0
  {
    NameSimilarityIsBounded(property.name, title);
    NameSimilarityIsBounded(property.publicTitle, title);
  }

  /** The better of the two names counts. */
  lemma EitherNameCounts(property: Property, title: string)
    ensures var similarity := PreferredSimilarity(property, title);
            && similarity >= NameSimilarity(property.name, title)
            && similarity >= NameSimilarity(property.publicTitle, title)
            && (similarity == NameSimilarity(property.name, title) ||
                similarity == NameSimilarity(property.publicTitle, title))
  {
  }

  lemma RoundScoreIsMonotone(a: real, b: real)
    requires a <= b
    ensures RoundScore(a) <= RoundScore(b)
  {
    var x, y := a * 100.0 + 0.5, b * 100.0 + 0.5;
    assert x.Floor <= y.Floor;
    assert x.Floor as real <= y.Floor as real;
  }

  lemma RoundScoreIsNear(value: real)
    ensures value - 0.005 <= RoundScore(value) <= value + 0.005
  {
    var x := value * 100.0 + 0.5;
    assert x.Floor as real <= x < x.Floor as real + 1.0;
  }

  /** Seventy points for the name, fifteen for the city and ten for the country, to the nearest hundredth. */
  lemma ScoreIsWeighted(property: Property, listing: Listing)
    ensures var exact := PreferredSimilarity(property, listing.title) * 70.0 +
                         (if property.city != "" && property.city == listing.city then 15.0 else 0.0) +
                         (if property.country.Some? && property.country == listing.country then 10.0 else 0.0);
            exact - 0.005 <= Scored(property, listing).score <= exact + 0.005
  {
    RoundScoreIsNear(RawScore(PreferredSimilarity(property, listing.title), SameCity(property, listing),
                              SameCountry(property, listing)));
  }

  /** Without both the city and the country known and equal, no name reaches the automatic score. */
  lemma AutomaticScoreNeedsThePlace(property: Property, listing: Listing)
    ensures !(SameCity(property, listing) && SameCountry(property, listing)) ==> Scored(property, listing).score <= 85.0
    ensures 0.0 <= Scored(property, listing).score <= 95.0
  {
    PreferredSimilarityIsBounded(property, listing.title);
    var raw := RawScore(PreferredSimilarity(property, listing.title), SameCity(property, listing),
                        SameCountry(property, listing));
    RoundScoreIsMonotone(0.0, raw);
    RoundScoreIsMonotone(raw, 95.0);
    if raw <= 85.0 {
      RoundScoreIsMonotone(raw, 85.0);
    }
    assert RoundScore(85.0) == 85.0 && RoundScore(95.0) == 95.0 && RoundScore(0.0) == 0.0;
  }

  /** The candidate order: higher score first, then the identifier. */
  predicate Before(left: Candidate, right: Candidate) {
    left.score > right.score || (left.score == right.score && left.listing.id <= right.listing.id)
  }

  /** The comparison sort, stable as in the language. */
  function Insert(candidate: Candidate, ranked: seq<Candidate>): seq<Candidate> {
    if ranked == [] then [candidate]
    else if Before(candidate, ranked[0]) then [candidate] + ranked
    else [ranked[0]] + Insert(candidate, ranked[1..])
  }

  function Rank(candidates: seq<Candidate>): seq<Candidate> {
    if candidates == [] then [] else Insert(candidates[0], Rank(candidates[1..]))
  }

  ghost predicate Ranked(candidates: seq<Candidate>) {
    forall i, j :: 0 <= i < j < |candidates| ==> Before(candidates[i], candidates[j])
  }

  lemma {:induction false} InsertKeeps(candidate: Candidate, ranked: seq<Candidate>)
    ensures multiset(Insert(candidate, ranked)) == multiset(ranked) + multiset{candidate}
    ensures |Insert(candidate, ranked)| == |ranked| + 1
  {
    if ranked != [] && !Before(candidate, ranked[0]) {
      InsertKeeps(candidate, ranked[1..]);
      assert ranked == [ranked[0]] + ranked[1..];
    }
  }

  lemma {:induction false} InsertRanks(candidate: Candidate, ranked: seq<Candidate>)
    requires Ranked(ranked)
    ensures Ranked(Insert(candidate, ranked))
  {
    if ranked != [] && !Before(candidate, ranked[0]) {
      var rest := Insert(candidate, ranked[1..]);
      InsertRanks(candidate, ranked[1..]);
      InsertKeeps(candidate, ranked[1..]);
      forall k | 0 <= k < |rest| ensures Before(ranked[0], rest[k]) {
        assert rest[k] in multiset(rest);
        assert rest[k] == candidate || rest[k] in ranked[1..];
      }
    }
  }

  lemma {:induction false} RankRanks(candidates: seq<Candidate>)
    ensures Ranked(Rank(candidates)) && multiset(Rank(candidates)) == multiset(candidates)
    ensures |Rank(candidates)| == |candidates|
  {
    if candidates == [] {
    } else {
      RankRanks(candidates[1..]);
      InsertRanks(candidates[0], Rank(candidates[1..]));
      InsertKeeps(candidates[0], Rank(candidates[1..]));
      assert candidates == [candidates[0]] + candidates[1..];
    }
  }

  function Titled(listings: seq<Listing>): seq<Listing> {
    if listings == [] then [] else (if listings[0].titled then [listings[0]] else []) + Titled(listings[1..])
  }

  function ScoreAll(property: Property, listings: seq<Listing>): (candidates: seq<Candidate>)
    ensures |candidates| == |listings| && forall k :: 0 <= k < |listings| ==>
            candidates[k] == Scored(property, listings[k])
  {
    if listings == [] then [] else [Scored(property, listings[0])] + ScoreAll(property, listings[1..])
  }

  function Candidates(property: Property, listings: seq<Listing>): seq<Candidate> {
    ScoreAll(property, Titled(listings))
  }

  function ConfidenceFor(score: real): Confidence {
    if score >= AUTO_MATCH_MIN_SCORE then HIGH else if score >= REVIEW_MIN_SCORE then MEDIUM else LOW
  }

  /** The margin is infinite without a runner-up. */
  predicate Leads(ranked: seq<Candidate>)
    requires ranked != []
  {
    |ranked| == 1 || ranked[0].score - ranked[1].score >= AUTO_MATCH_MIN_MARGIN
  }

  predicate CanAutoMatch(ranked: seq<Candidate>)
    requires ranked != []
  {
    && ranked[0].score >= AUTO_MATCH_MIN_SCORE && ranked[0].nameSimilarity >= AUTO_MATCH_MIN_NAME_SIMILARITY
    && !ranked[0].cityMismatch && !ranked[0].countryMismatch && Leads(ranked)
  }

  function DecideRanked(propertyId: nat, ranked: seq<Candidate>): Decision {
    if ranked == [] then Decision(propertyId, UNMATCHED, LOW, None, None, 0.0, None, [NO_LISTING_CANDIDATE])
    else
      var top := ranked[0];
      var runnerUpScore := if |ranked| > 1 then Some(ranked[1].score) else None;
      var reasons := top.reasons + if Leads(ranked) then [] else [AMBIGUOUS_RUNNER_UP];
      if CanAutoMatch(ranked) then
        Decision(propertyId, AUTO_MATCH, HIGH, Some(top.listing.id), Some(top.listing.title), top.score, runnerUpScore,
                 reasons)
      else if top.score >= REVIEW_MIN_SCORE then
        Decision(propertyId, REVIEW_REQUIRED, ConfidenceFor(top.score), Some(top.listing.id), Some(top.listing.title),
                 top.score, runnerUpScore, reasons)
      else Decision(propertyId, UNMATCHED, LOW, None, None, top.score, runnerUpScore, reasons)
  }

  function DecideProperty(property: Property, listings: seq<Listing>): Decision {
    DecideRanked(property.id, Rank(Candidates(property, listings)))
  }

  /** The titled listing `i` deserves the automatic match: right place, strong name, and far ahead of all others. */
  ghost predicate Dominates(property: Property, listings: seq<Listing>, i: nat) {
    && i < |listings| && listings[i].titled
    && SameCity(property, listings[i]) && SameCountry(property, listings[i])
    && PreferredSimilarity(property, listings[i].title) >= 0.9
    && Scored(property, listings[i]).score >= 90.0
    && forall j :: 0 <= j < |listings| && j != i && listings[j].titled ==>
         Scored(property, listings[j]).score <= Scored(property, listings[i]).score - 15.0
  }

  /** Where a listing's candidate stands among the candidates. */
  function Position(listings: seq<Listing>, i: nat): nat
    requires i < |listings|
  {
    if i == 0 then 0 else (if listings[0].titled then 1 else 0) + Position(listings[1..], i - 1)
  }

  lemma {:induction false} PositionFinds(listings: seq<Listing>, i: nat)
    requires i < |listings| && listings[i].titled
    ensures Position(listings, i) < |Titled(listings)|
    ensures Titled(listings)[Position(listings, i)] == listings[i]
  {
    if i > 0 {
      PositionFinds(listings[1..], i - 1);
    }
  }

  lemma {:induction false} PositionIsInjective(listings: seq<Listing>, i: nat, j: nat)
    requires i < j < |listings| && listings[i].titled && listings[j].titled
    ensures Position(listings, i) != Position(listings, j)
  {
    if i > 0 {
      PositionIsInjective(listings[1..], i - 1, j - 1);
    }
  }

  lemma {:induction false} PositionIsSurjective(listings: seq<Listing>, k: nat) returns (i: nat)
    requires k < |Titled(listings)|
    ensures i < |listings| && listings[i].titled && Position(listings, i) == k
  {
    if listings[0].titled && k == 0 {
      i := 0;
    } else {
      i := PositionIsSurjective(listings[1..], if listings[0].titled then k - 1 else k);
      i := i + 1;
    }
  }

  /** Every candidate but the one at `k` scores at most `bound`. */
  ghost predicate OthersAtMost(candidates: seq<Candidate>, k: nat, bound: real) {
    k < |candidates| && forall m :: 0 <= m < |candidates| && m != k ==> candidates[m].score <= bound
  }

  /** The same without an order; only multisets matter. */
  ghost predicate RestAtMost(all: multiset<Candidate>, top: Candidate, bound: real) {
    top in all && forall c :: c in all - multiset{top} ==> c.score <= bound
  }

  function Without(candidates: seq<Candidate>, k: nat): seq<Candidate>
    requires k < |candidates|
  {
    candidates[..k] + candidates[k + 1..]
  }

  lemma WithoutIsTheRest(candidates: seq<Candidate>, k: nat)
    requires k < |candidates|
    ensures multiset(candidates) - multiset{candidates[k]} == multiset(Without(candidates, k))
  {
    assert candidates == candidates[..k] + [candidates[k]] + candidates[k + 1..];
  }

  lemma OthersAreWithout(candidates: seq<Candidate>, k: nat, bound: real)
    requires k < |candidates|
    ensures OthersAtMost(candidates, k, bound) <==> forall c :: c in Without(candidates, k) ==> c.score <= bound
  {
    var others := Without(candidates, k);
    if OthersAtMost(candidates, k, bound) {
      forall m | 0 <= m < |others| ensures others[m].score <= bound {
        assert others[m] == candidates[if m < k then m else m + 1];
      }
    }
    if forall c :: c in others ==> c.score <= bound {
      forall m | 0 <= m < |candidates| && m != k ensures candidates[m].score <= bound {
        assert candidates[m] == others[if m < k then m else m - 1];
      }
    }
  }

  lemma OthersAnywhere(candidates: seq<Candidate>, k: nat, bound: real)
    requires k < |candidates|
    ensures OthersAtMost(candidates, k, bound) <==> RestAtMost(multiset(candidates), candidates[k], bound)
  {
    WithoutIsTheRest(candidates, k);
    OthersAreWithout(candidates, k, bound);
    var others := Without(candidates, k);
    assert forall c :: c in multiset(others) <==> c in others;
  }

  predicate RunnerUpAtMost(ranked: seq<Candidate>, bound: real) {
    |ranked| <= 1 || ranked[1].score <= bound
  }

  lemma RunnerUpIsNext(ranked: seq<Candidate>, bound: real)
    requires Ranked(ranked) && ranked != []
    ensures RunnerUpAtMost(ranked, bound) <==> OthersAtMost(ranked, 0, bound)
  {
    if RunnerUpAtMost(ranked, bound) {
      forall m | 0 <= m < |ranked| && m != 0 ensures ranked[m].score <= bound {
        assert m == 1 || Before(ranked[1], ranked[m]);
      }
    }
  }

  /** The titled listing `i` scores best, and of the equally good ones its identifier comes first. */
  ghost predicate Best(property: Property, listings: seq<Listing>, i: nat) {
    && i < |listings| && listings[i].titled
    && forall j :: 0 <= j < |listings| && listings[j].titled ==>
         var (best, other) := (Scored(property, listings[i]).score, Scored(property, listings[j]).score);
         best > other || (best == other && listings[i].id <= listings[j].id)
  }

  /** Every other titled listing scores at most `bound`. */
  ghost predicate RivalsAtMost(property: Property, listings: seq<Listing>, i: nat, bound: real) {
    forall j :: 0 <= j < |listings| && j != i && listings[j].titled ==> Scored(property, listings[j]).score <= bound
  }

  lemma {:induction false} RivalsAreOthers(property: Property, listings: seq<Listing>, i: nat, bound: real)
    requires i < |listings| && listings[i].titled
    ensures RivalsAtMost(property, listings, i, bound) <==>
            OthersAtMost(Candidates(property, listings), Position(listings, i), bound)
  {
    var candidates, k := Candidates(property, listings), Position(listings, i);
    PositionFinds(listings, i);
    if RivalsAtMost(property, listings, i, bound) {
      forall m | 0 <= m < |candidates| && m != k ensures candidates[m].score <= bound {
        var j := PositionIsSurjective(listings, m);
        PositionFinds(listings, j);
      }
    }
    if OthersAtMost(candidates, k, bound) {
      forall j | 0 <= j < |listings| && j != i &&
          listings[j].titled ensures Scored(property, listings[j]).score <= bound {
        PositionFinds(listings, j);
        PositionIsInjective(listings, if i < j then i else j, if i < j then j else i);
      }
    }
  }

  /** The top of the ranking and its runner-up, told of the listings. */
  lemma TopAmongListings(property: Property, listings: seq<Listing>) returns (i: nat)
    requires Titled(listings) != []
    ensures Best(property, listings, i) && Rank(Candidates(property, listings)) != []
    ensures Rank(Candidates(property, listings))[0] == Scored(property, listings[i])
    ensures forall bound :: RunnerUpAtMost(Rank(Candidates(property, listings)), bound) <==>
                            RivalsAtMost(property, listings, i, bound)
  {
    var candidates := Candidates(property, listings);
    var ranked := Rank(candidates);
    RankRanks(candidates);
    assert ranked[0] in multiset(candidates);
    var k :| 0 <= k < |candidates| && candidates[k] == ranked[0];
    i := PositionIsSurjective(listings, k);
    PositionFinds(listings, i);
    forall j | 0 <= j < |listings| && listings[j].titled ensures Before(ranked[0], Scored(property, listings[j])) {
      PositionFinds(listings, j);
      assert candidates[Position(listings, j)] in multiset(ranked);
      var r :| 0 <= r < |ranked| && ranked[r] == candidates[Position(listings, j)];
    }
    forall bound ensures RunnerUpAtMost(ranked, bound) <==> RivalsAtMost(property, listings, i, bound) {
      RunnerUpIsNext(ranked, bound);
      OthersAnywhere(ranked, 0, bound);
      OthersAnywhere(candidates, k, bound);
      RivalsAreOthers(property, listings, i, bound);
    }
  }

  lemma LeadIsMargin(ranked: seq<Candidate>)
    requires ranked != []
    ensures Leads(ranked) <==> RunnerUpAtMost(ranked, ranked[0].score - 15.0)
  {
  }

  lemma AutoMatchNeedsDomination(property: Property, listings: seq<Listing>) returns (i: nat)
    requires DecideProperty(property, listings).status.AUTO_MATCH?
    ensures Dominates(property, listings, i) && DecideProperty(property, listings).candidate == Some(listings[i].id)
  {
    RankRanks(Candidates(property, listings));
    i := TopAmongListings(property, listings);
    LeadIsMargin(Rank(Candidates(property, listings)));
    AutomaticScoreNeedsThePlace(property, listings[i]);
    assert RivalsAtMost(property, listings, i, Scored(property, listings[i]).score - 15.0);
  }

  lemma DominationIsEnough(property: Property, listings: seq<Listing>, i: nat)
    requires Dominates(property, listings, i)
    ensures DecideProperty(property, listings).status.AUTO_MATCH? &&
            DecideProperty(property, listings).candidate == Some(listings[i].id)
  {
    PositionFinds(listings, i);
    var top := TopAmongListings(property, listings);
    assert top == i;
    assert RivalsAtMost(property, listings, i, Scored(property, listings[i]).score - 15.0);
    LeadIsMargin(Rank(Candidates(property, listings)));
  }

  /** The automatic match, whatever the order of the listings: exactly when some titled listing dominates. */
  lemma AutoMatchExactlyWhen(property: Property, listings: seq<Listing>)
    ensures DecideProperty(property, listings).status.AUTO_MATCH? <==> exists i: nat :: Dominates(property, listings, i)
    ensures forall i: nat :: Dominates(property, listings, i) ==>
            DecideProperty(property, listings).candidate == Some(listings[i].id)
  {
    if DecideProperty(property, listings).status.AUTO_MATCH? {
      var _ := AutoMatchNeedsDomination(property, listings);
    }
    forall i: nat | Dominates(property, listings, i)
      ensures DecideProperty(property, listings).status.AUTO_MATCH? &&
              DecideProperty(property, listings).candidate == Some(listings[i].id)
    {
      DominationIsEnough(property, listings, i);
    }
  }

  /** The status and the confidence follow the score, and a review names its candidate. */
  ghost predicate FollowsScore(d: Decision) {
    && (d.status.UNMATCHED? <==> d.score < 70.0)
    && (d.status.UNMATCHED? <==> d.candidate.None?)
    && (d.status.AUTO_MATCH? ==> d.score >= 90.0)
    && (d.confidence.HIGH? <==> d.score >= 90.0)
    && (d.confidence.LOW? <==> d.score < 70.0)
  }

  lemma RankedFollowsScore(propertyId: nat, ranked: seq<Candidate>)
    ensures FollowsScore(DecideRanked(propertyId, ranked))
    ensures ranked == [] ==> DecideRanked(propertyId, ranked).score == 0.0
    ensures ranked != [] ==> var d := DecideRanked(propertyId, ranked);
                             d.score == ranked[0].score &&
                               (d.candidate.Some? ==> d.candidate == Some(ranked[0].listing.id))
  {
  }

  /** The reasons tell how the name compares, */
  ghost predicate NameIsSaid(reasons: seq<Reason>, similarity: real) {
    && (NAME_EXACT in reasons <==> similarity == 1.0)
    && (NAME_STRONG in reasons <==> 0.9 <= similarity && similarity != 1.0)
    && (NAME_PARTIAL in reasons <==> 0.65 <= similarity < 0.9)
    && (NAME_WEAK in reasons <==> similarity < 0.65)
  }

  /** whether the city is known and the same, */
  ghost predicate CityIsSaid(reasons: seq<Reason>, here: string, there: string) {
    && (CITY_MATCH in reasons <==> here != "" && here == there)
    && (CITY_MISMATCH in reasons <==> here != "" && there != "" && here != there)
    && (CITY_UNKNOWN in reasons <==> here == "" || there == "")
  }

  /** and whether the country is. */
  ghost predicate CountryIsSaid(reasons: seq<Reason>, here: Option<string>, there: Option<string>) {
    && (COUNTRY_MATCH in reasons <==> here.Some? && here == there)
    && (COUNTRY_MISMATCH in reasons <==> here.Some? && there.Some? && here != there)
    && (COUNTRY_UNKNOWN in reasons <==> here.None? || there.None?)
  }

  ghost predicate SaysOf(reasons: seq<Reason>, property: Property, listing: Listing, similarity: real) {
    && NameIsSaid(reasons, similarity) && CityIsSaid(reasons, property.city, listing.city)
    && CountryIsSaid(reasons, property.country, listing.country)
  }

  /** The reasons are these three and possibly the ambiguity. */
  ghost predicate Three(reasons: seq<Reason>, name: Reason, city: Reason, country: Reason) {
    && (forall r :: r in reasons && r != AMBIGUOUS_RUNNER_UP ==> r == name || r == city || r == country)
    && name in reasons && city in reasons && country in reasons
  }

  lemma ThreeReasons(name: Reason, city: Reason, country: Reason)
    ensures Three([name, city, country], name, city, country)
    ensures Three([name, city, country] + [AMBIGUOUS_RUNNER_UP], name, city, country)
  {
    var reasons := [name, city, country];
    assert reasons[0] == name && reasons[1] == city && reasons[2] == country;
  }

  lemma NameReasonSays(reasons: seq<Reason>, property: Property, listing: Listing, similarity: real)
    requires Three(reasons, NameReason(similarity), CityReason(property, listing), CountryReason(property, listing))
    ensures NameIsSaid(reasons, similarity)
  {
  }

  lemma PlaceReasonsSay(reasons: seq<Reason>, property: Property, listing: Listing, similarity: real)
    requires Three(reasons, NameReason(similarity), CityReason(property, listing), CountryReason(property, listing))
    ensures CityIsSaid(reasons, property.city, listing.city)
    ensures CountryIsSaid(reasons, property.country, listing.country)
  {
  }

  lemma ScoringSays(property: Property, listing: Listing, similarity: real)
    ensures var reasons := ScoredFor(property, listing, similarity).reasons;
            SaysOf(reasons, property, listing, similarity) &&
              SaysOf(reasons + [AMBIGUOUS_RUNNER_UP], property, listing, similarity)
  {
    var reasons := ScoredFor(property, listing, similarity).reasons;
    ThreeReasons(NameReason(similarity), CityReason(property, listing), CountryReason(property, listing));
    NameReasonSays(reasons, property, listing, similarity);
    PlaceReasonsSay(reasons, property, listing, similarity);
    NameReasonSays(reasons + [AMBIGUOUS_RUNNER_UP], property, listing, similarity);
    PlaceReasonsSay(reasons + [AMBIGUOUS_RUNNER_UP], property, listing, similarity);
  }

  /** What a decision owes to the ranking: its top, its runner-up, and the reason that names a close one. */
  lemma RankedReports(propertyId: nat, ranked: seq<Candidate>)
    requires ranked != []
    ensures var d := DecideRanked(propertyId, ranked);
            && d.propertyId == propertyId && d.score == ranked[0].score
            && (d.candidate.Some? ==>
                  d.candidate == Some(ranked[0].listing.id) && d.title == Some(ranked[0].listing.title))
            && (d.candidate.None? <==> d.title.None?)
            && (forall bound :: RunnerUpAtMost(ranked, bound) <==>
                d.runnerUpScore.None? || d.runnerUpScore.value <= bound)
            && d.reasons == ranked[0].reasons +
                            if RunnerUpAtMost(ranked, ranked[0].score - 15.0) then [] else [AMBIGUOUS_RUNNER_UP]
  {
  }

  lemma ScoringKnowsNoRivals(property: Property, listing: Listing, similarity: real)
    ensures var reasons := ScoredFor(property, listing, similarity).reasons;
            AMBIGUOUS_RUNNER_UP !in reasons && LISTING_CONFLICT !in reasons
  {
  }

  /** What a decision reports of the best titled listing `i`. */
  ghost predicate Reports(property: Property, listings: seq<Listing>, d: Decision, i: nat) {
    && Best(property, listings, i) && d.score == Scored(property, listings[i]).score
    && (d.candidate.Some? ==> d.candidate == Some(listings[i].id) && d.title == Some(listings[i].title))
    && SaysOf(d.reasons, property, listings[i], PreferredSimilarity(property, listings[i].title))
    && (AMBIGUOUS_RUNNER_UP in d.reasons <==> !RivalsAtMost(property, listings, i, d.score - 15.0))
    && (forall bound :: RivalsAtMost(property, listings, i, bound) <==>
                        d.runnerUpScore.None? || d.runnerUpScore.value <= bound)
    && LISTING_CONFLICT !in d.reasons
  }

  lemma {:induction false} NothingTitled(listings: seq<Listing>)
    requires forall listing :: listing in listings ==> !listing.titled
    ensures Titled(listings) == []
  {
    if listings == [] {
    } else {
      NothingTitled(listings[1..]);
    }
  }

  lemma DecisionIsOf(property: Property, listings: seq<Listing>) returns (i: nat)
    requires Titled(listings) != []
    ensures Reports(property, listings, DecideProperty(property, listings), i)
  {
    var ranked := Rank(Candidates(property, listings));
    i := TopAmongListings(property, listings);
    RankedReports(property.id, ranked);
    var similarity := PreferredSimilarity(property, listings[i].title);
    assert ranked[0] == ScoredFor(property, listings[i], similarity);
    ScoringSays(property, listings[i], similarity);
    ScoringKnowsNoRivals(property, listings[i], similarity);
  }

  /**
   * What a decision reports. Without a titled listing that there is none; otherwise the best one's score, its name and
   * place against the property's, the least score no rival exceeds, an ambiguity exactly if some rival comes within
   * the margin, and its identifier exactly from the review threshold on.
   */
  lemma DecisionReportsTheBest(property: Property, listings: seq<Listing>)
    ensures var d := DecideProperty(property, listings);
            && FollowsScore(d) && d.propertyId == property.id
            && ((forall listing :: listing in listings ==> !listing.titled) ==>
                  d == Decision(property.id, UNMATCHED, LOW, None, None, 0.0, None, [NO_LISTING_CANDIDATE]))
            && ((exists listing :: listing in listings && listing.titled) ==>
                  exists i: nat :: Reports(property, listings, d, i))
  {
    var ranked := Rank(Candidates(property, listings));
    RankRanks(Candidates(property, listings));
    RankedFollowsScore(property.id, ranked);
    if Titled(listings) != [] {
      var i := DecisionIsOf(property, listings);
    }
    if listing :| listing in listings && listing.titled {
      var j :| 0 <= j < |listings| && listings[j] == listing;
      PositionFinds(listings, j);
    } else {
      NothingTitled(listings);
    }
  }

  ghost predicate DistinctIds(listings: seq<Listing>) {
    forall i, j :: 0 <= i < j < |listings| ==> listings[i].id != listings[j].id
  }

  ghost predicate IdsTellApart(candidates: seq<Candidate>) {
    forall c, d :: c in candidates && d in candidates && c.listing.id == d.listing.id ==> c == d
  }

  lemma SameFirst(a: seq<Candidate>, b: seq<Candidate>)
    requires a != [] && b != [] && Ranked(a) && Ranked(b) && multiset(a) == multiset(b) && IdsTellApart(a)
    ensures a[0] == b[0]
  {
    assert a[0] in multiset(b) && b[0] in multiset(a);
    var k :| 0 <= k < |b| && b[k] == a[0];
    var m :| 0 <= m < |a| && a[m] == b[0];
    assert k > 0 ==> Before(b[0], b[k]);
    assert m > 0 ==> Before(a[0], a[m]);
  }

  lemma RestOf(a: seq<Candidate>)
    requires a != [] && Ranked(a)
    ensures multiset(a[1..]) == multiset(a) - multiset{a[0]}
    ensures Ranked(a[1..]) && (IdsTellApart(a) ==> IdsTellApart(a[1..]))
  {
    assert a == [a[0]] + a[1..];
    assert forall c :: c in a[1..] ==> c in a;
  }

  lemma SameSize(a: seq<Candidate>, b: seq<Candidate>)
    requires multiset(a) == multiset(b)
    ensures |a| == |b|
  {
    assert |a| == |multiset(a)| == |multiset(b)| == |b|;
  }

  lemma SameParts(a: seq<Candidate>, b: seq<Candidate>)
    requires a != [] && b != [] && a[0] == b[0] && a[1..] == b[1..]
    ensures a == b
  {
    assert a == [a[0]] + a[1..];
    assert b == [b[0]] + b[1..];
  }

  /** Two ranked lists of the same candidates are the same list, when no identifier repeats. */
  lemma {:induction false} RankingIsUnique(a: seq<Candidate>, b: seq<Candidate>)
    requires Ranked(a) && Ranked(b) && multiset(a) == multiset(b) && IdsTellApart(a)
    ensures a == b
    decreases |a|
  {
    SameSize(a, b);
    if a == [] {
    } else {
      assert a[0] == b[0] by {
        SameFirst(a, b);
      }
      assert a[1..] == b[1..] by {
        RestOf(a);
        RestOf(b);
        RankingIsUnique(a[1..], b[1..]);
      }
      SameParts(a, b);
    }
  }

  lemma {:induction false} TitledCount(listings: seq<Listing>, l: Listing)
    ensures multiset(Titled(listings))[l] == if l.titled then multiset(listings)[l] else 0
  {
    if listings == [] {
    } else {
      assert listings == [listings[0]] + listings[1..];
      TitledCount(listings[1..], l);
    }
  }

  lemma {:induction false} ScoredCount(property: Property, listings: seq<Listing>, c: Candidate)
    ensures multiset(ScoreAll(property, listings))[c] ==
            if c == Scored(property, c.listing) then multiset(listings)[c.listing] else 0
  {
    if listings == [] {
    } else {
      assert listings == [listings[0]] + listings[1..];
      ScoredCount(property, listings[1..], c);
    }
  }

  lemma RankedIdsDiffer(property: Property, listings: seq<Listing>)
    requires DistinctIds(listings)
    ensures IdsTellApart(Rank(Candidates(property, listings)))
  {
    var candidates := Candidates(property, listings);
    RankRanks(candidates);
    forall c | c in Rank(candidates) ensures c.listing in listings && c == Scored(property, c.listing) {
      assert c in multiset(candidates);
      ScoredCount(property, Titled(listings), c);
      TitledCount(listings, c.listing);
      assert c.listing in multiset(listings);
    }
  }

  /** The decision does not depend on the order in which the listings arrive. */
  lemma OrderDoesNotMatter(property: Property, listings: seq<Listing>, permuted: seq<Listing>)
    requires multiset(listings) == multiset(permuted) && DistinctIds(listings)
    ensures DecideProperty(property, listings) == DecideProperty(property, permuted)
  {
    var a, b := Candidates(property, listings), Candidates(property, permuted);
    forall c ensures multiset(a)[c] == multiset(b)[c] {
      ScoredCount(property, Titled(listings), c);
      ScoredCount(property, Titled(permuted), c);
      TitledCount(listings, c.listing);
      TitledCount(permuted, c.listing);
    }
    RankRanks(a);
    RankRanks(b);
    RankedIdsDiffer(property, listings);
    RankingIsUnique(Rank(a), Rank(b));
  }
}
