/**
 * The scoring engine of the matching service: seven sub-scores on a 0..100
 * scale, their weighted sum, and the rounding to two decimals.
 *
 * Scores are exact reals; the JavaScript service computes with IEEE doubles.
 */
module Scoring {
  import opened Records

  // The fixed weight table of the service.
  const ExpertiseWeight: real := 0.25
  const AvailabilityWeight: real := 0.20
  const RatingWeight: real := 0.20
  const LocationWeight: real := 0.15
  const BudgetWeight: real := 0.10
  const TimelineWeight: real := 0.05
  const UrgencyWeight: real := 0.05

  lemma DivisionMonotone(a: real, b: real, d: real)
    requires d > 0.0 && a <= b
    ensures a / d <= b / d
  {
    assert b / d - a / d == (b - a) / d;
  }

  /** Score given when a factor cannot be judged from the input. */
  const Neutral: real := 50.0

  /** Milliseconds in a day. */
  const MsPerDay: int := 1000 * 60 * 60 * 24

  /** Fallback travel radius (km) when the contractor's is 0 or absent. */
  const DefaultTravelDistance: real := 50.0

  /** geolib's great-circle distance between two points, in whole metres. */
  type Geo = (Coordinates, Coordinates) -> nat

  // ---------------------------------------------------------------- expertise

  /** `tags.includes(wanted)`; an absent value is never included. */
  predicate Offers(tags: seq<string>, wanted: Option<string>)
  {
    wanted.Some? && wanted.value in tags
  }

  /** How many entries of `wanted` (duplicates included) occur in `offered`. */
  function CountMatching(wanted: seq<string>, offered: seq<string>): (n: nat)
    ensures n <= |wanted|
    ensures n == 0 <==> forall w :: w in wanted ==> w !in offered
  {
    if wanted == [] then 0
    else (if wanted[0] in offered then 1 else 0) + CountMatching(wanted[1..], offered)
  }

  /** Offering more tags never lowers the count of matched requirements. */
  lemma {:induction false} CountMatchingMonotone(wanted: seq<string>, fewer: seq<string>, more: seq<string>)
    requires forall t :: t in fewer ==> t in more
    ensures CountMatching(wanted, fewer) <= CountMatching(wanted, more)
  {
    if wanted != [] {
      CountMatchingMonotone(wanted[1..], fewer, more);
    }
  }

  /** Five points per matched special requirement, at most ten. */
  function SpecializationBonus(c: Contractor, r: Requirements): (b: real)
    ensures 0.0 <= b <= 10.0
    ensures b == 0.0 <==> forall w :: w in r.specialRequirements ==> w !in c.specializations
    ensures b == 10.0 <==> CountMatching(r.specialRequirements, c.specializations) >= 2
  {
    Min(5.0 * CountMatching(r.specialRequirements, c.specializations) as real, 10.0)
  }

  function ExpertiseScore(c: Contractor, r: Requirements): (s: real)
    ensures 0.0 <= s <= 100.0
    ensures s >= 90.0 <==>
      Offers(c.categories, r.category) && Offers(c.configurations, r.configuration)
      && Offers(c.propertyTypes, r.propertyType)
    ensures (!Offers(c.categories, r.category) && !Offers(c.configurations, r.configuration)
             && !Offers(c.propertyTypes, r.propertyType)) ==> s <= 10.0
  {
    var tags :=
      (if Offers(c.categories, r.category) then 40.0 else 0.0)
      + (if Offers(c.configurations, r.configuration) then 30.0 else 0.0)
      + (if Offers(c.propertyTypes, r.propertyType) then 20.0 else 0.0);
    Min(tags + SpecializationBonus(c, r), 100.0)
  }

  /** A contractor whose expertise tags include another's scores at least as high. */
  lemma ExpertiseMonotone(c: Contractor, d: Contractor, r: Requirements)
    requires forall t :: t in c.categories ==> t in d.categories
    requires forall t :: t in c.configurations ==> t in d.configurations
    requires forall t :: t in c.propertyTypes ==> t in d.propertyTypes
    requires forall t :: t in c.specializations ==> t in d.specializations
    ensures ExpertiseScore(c, r) <= ExpertiseScore(d, r)
  {
    CountMatchingMonotone(r.specialRequirements, c.specializations, d.specializations);
  }

  // ------------------------------------------------------------- availability

  function AvailabilityScore(c: Contractor): (s: real)
    requires c.maxConcurrentProjects > 0
    ensures s <= 100.0
    ensures HasCapacity(c) ==> 0.0 < s
    ensures c.currentProjects == 0 ==> s == 100.0
  {
    var load := c.currentProjects as real / c.maxConcurrentProjects as real;
    var score := (1.0 - load) * 100.0;
    if c.currentProjects == 0 then Min(score + 20.0, 100.0) else score
  }

  /** With the same capacity, a contractor carrying fewer projects is at least as available. */
  lemma AvailabilityAntitone(c: Contractor, d: Contractor)
    requires c.maxConcurrentProjects == d.maxConcurrentProjects > 0
    requires c.currentProjects <= d.currentProjects
    ensures AvailabilityScore(c) >= AvailabilityScore(d)
  {
    DivisionMonotone(c.currentProjects as real, d.currentProjects as real, c.maxConcurrentProjects as real);
  }

  // ------------------------------------------------------------------- rating

  /** Review-count bonus: steps of 20/15/10/5/0 above 50/20/10/5 reviews. */
  function ReviewBonus(totalReviews: nat): (b: real)
    ensures 0.0 <= b <= 20.0
    ensures b == 0.0 <==> totalReviews <= 5
    ensures b == 20.0 <==> totalReviews > 50
  {
    if totalReviews > 50 then 20.0
    else if totalReviews > 20 then 15.0
    else if totalReviews > 10 then 10.0
    else if totalReviews > 5 then 5.0
    else 0.0
  }

  lemma ReviewBonusMonotone(m: nat, n: nat)
    requires m <= n
    ensures ReviewBonus(m) <= ReviewBonus(n)
  {
  }

  function RatingScore(c: Contractor): (s: real)
    ensures s <= 100.0
    ensures c.overallRating >= 0.0 ==> 0.0 <= s
  {
    Min(c.overallRating / 5.0 * 80.0 + ReviewBonus(c.totalReviews), 100.0)
  }

  /** With the same number of reviews, a higher overall rating never scores lower. */
  lemma RatingMonotone(c: Contractor, d: Contractor)
    requires c.totalReviews == d.totalReviews
    requires c.overallRating <= d.overallRating
    ensures RatingScore(c) <= RatingScore(d)
  {
    DivisionMonotone(c.overallRating, d.overallRating, 5.0);
  }

  /** An overall rating of 4.5 with 60 reviews scores 72 + 20 = 92. */
  lemma RatingExample(c: Contractor)
    requires c.overallRating == 4.5 && c.totalReviews == 60
    ensures RatingScore(c) == 92.0
  {
  }

  // ----------------------------------------------------------------- location

  /** `maxTravelDistance || 50`. */
  function TravelLimit(c: Contractor): (km: real)
    ensures km != 0.0
    ensures c.maxTravelDistance >= 0.0 ==> km > 0.0
  {
    if c.maxTravelDistance == 0.0 then DefaultTravelDistance else c.maxTravelDistance
  }

  /** The contractor's point, each coordinate falling back to 0 when absent. */
  function ContractorPoint(c: Contractor): Coordinates
  {
    if c.primaryCoordinates.Some? then c.primaryCoordinates.value else Coordinates(0.0, 0.0)
  }

  /** Score of a known distance against a travel radius. */
  function DistanceScore(km: real, limit: real): (s: real)
    requires limit != 0.0
    ensures 0.0 <= km <= limit ==> 50.0 <= s <= 100.0
    ensures km == 0.0 && limit > 0.0 ==> s == 100.0
    ensures km > limit ==> s == 0.0
  {
    if km <= limit then Max(100.0 - km / limit * 50.0, 50.0) else 0.0
  }

  /** Farther never scores better, including the drop to 0 past the radius. */
  lemma DistanceScoreAntitone(near: real, far: real, limit: real)
    requires 0.0 <= near <= far
    requires limit != 0.0
    ensures DistanceScore(near, limit) >= DistanceScore(far, limit)
  {
    if far <= limit {
      DivisionMonotone(near, far, limit);
    }
  }

  function DistanceKm(geo: Geo, from: Coordinates, to: Coordinates): (km: real)
    ensures km >= 0.0
  {
    geo(from, to) as real / 1000.0
  }

  /** Whether the location score falls back to neutral: no project coordinates,
      or a zero/absent latitude on either side. */
  predicate LocationUnknown(c: Contractor, r: Requirements)
  {
    || r.location.None?
    || r.location.value.coordinates.None?
    || ContractorPoint(c).latitude == 0.0
    || r.location.value.coordinates.value.latitude == 0.0
  }

  function LocationScore(c: Contractor, r: Requirements, geo: Geo): (s: real)
    ensures 0.0 <= s <= 100.0
    ensures LocationUnknown(c, r) ==> s == 50.0
    ensures !LocationUnknown(c, r) ==>
      var km := DistanceKm(geo, ContractorPoint(c), r.location.value.coordinates.value);
      (km <= TravelLimit(c) ==> 50.0 <= s) && (km > TravelLimit(c) ==> s == 0.0)
    ensures s == 0.0 ==> !LocationUnknown(c, r)
  {
    if r.location.None? || r.location.value.coordinates.None? then Neutral
    else
      var from := ContractorPoint(c);
      var to := r.location.value.coordinates.value;
      if from.latitude == 0.0 || to.latitude == 0.0 then Neutral
      else DistanceScore(DistanceKm(geo, from, to), TravelLimit(c))
  }

  // ------------------------------------------------------------------- budget

  /** `minimumProject || 0`. */
  function MinimumOrZero(c: Contractor): real
  {
    if c.minimumProject.Some? then c.minimumProject.value else 0.0
  }

  /** The budget score of a given (non-zero) project total. */
  function BudgetRatioScore(total: real, minimum: real): (s: real)
    ensures s <= 100.0
    ensures total < minimum ==> s == 0.0
    ensures minimum >= 0.0 ==> 0.0 <= s
    ensures minimum >= 0.0 && total >= minimum && total != 0.0 ==> 50.0 < s
  {
    if total >= minimum then
      var ratio := total / (if minimum == 0.0 then 1.0 else minimum);
      assert minimum >= 0.0 && total != 0.0 ==> ratio > 0.0;
      Min(50.0 + ratio * 10.0, 100.0)
    else 0.0
  }

  /** A bigger given (non-zero) total never lowers the ratio score. */
  lemma BudgetRatioScoreMonotone(smaller: real, larger: real, minimum: real)
    requires minimum >= 0.0
    requires smaller <= larger
    ensures BudgetRatioScore(smaller, minimum) <= BudgetRatioScore(larger, minimum)
  {
    if smaller >= minimum {
      DivisionMonotone(smaller, larger, if minimum == 0.0 then 1.0 else minimum);
    }
  }

  function BudgetScore(c: Contractor, r: Requirements): (s: real)
    ensures s <= 100.0
    ensures !BudgetGiven(r) ==> s == 50.0
    ensures BudgetGiven(r) && r.budget.value.total < MinimumOrZero(c) ==> s == 0.0
    ensures WellFormed(c) ==> 0.0 <= s
    ensures WellFormed(c) && BudgetGiven(r) && r.budget.value.total >= MinimumOrZero(c) ==> 50.0 < s
  {
    if !BudgetGiven(r) then Neutral
    else BudgetRatioScore(r.budget.value.total, MinimumOrZero(c))
  }

  // ----------------------------------------------------------------- timeline

  /** Whole days from `now` to `start`, rounded down as `Math.floor` does. */
  function DaysUntil(start: int, now: int): (days: int)
    ensures days * MsPerDay <= start - now < (days + 1) * MsPerDay
  {
    (start - now) / MsPerDay
  }

  /** More lead time scores better: >30, >14, >7, >3, >=0 days, or in the past. */
  function TimelineBracket(days: int): (s: real)
    ensures 0.0 <= s <= 100.0
    ensures s == 0.0 <==> days < 0
    ensures s == 100.0 <==> days > 30
  {
    if days > 30 then 100.0
    else if days > 14 then 80.0
    else if days > 7 then 60.0
    else if days > 3 then 40.0
    else if days >= 0 then 20.0
    else 0.0
  }

  lemma TimelineBracketMonotone(sooner: int, later: int)
    requires sooner <= later
    ensures TimelineBracket(sooner) <= TimelineBracket(later)
  {
  }

  function TimelineScore(r: Requirements, now: int): (s: real)
    ensures 0.0 <= s <= 100.0
    ensures r.preferredStartDate.None? ==> s == 50.0
    ensures r.preferredStartDate.Some? ==> (s == 0.0 <==> r.preferredStartDate.value < now)
  {
    if r.preferredStartDate.None? then Neutral
    else TimelineBracket(DaysUntil(r.preferredStartDate.value, now))
  }

  // ------------------------------------------------------------------ urgency

  /** `matching?.urgencyLevel || 'Medium'`. */
  function UrgencyOf(r: Requirements): (u: string)
    ensures u != ""
  {
    if Given(r.urgencyLevel) then r.urgencyLevel.value else "Medium"
  }

  function UrgencyScore(c: Contractor, r: Requirements): (s: real)
    ensures s in {100.0, 80.0, 60.0, 50.0, 40.0}
    ensures !Given(r.urgencyLevel) ==> s == 60.0
    ensures UrgencyOf(r) != "High" ==> s in {60.0, 50.0, 40.0}
    ensures UrgencyOf(r) == "High" ==>
      (s == 100.0 <==> c.currentProjects == 0) && (s == 50.0 <==> c.currentProjects >= 2)
  {
    var urgency := UrgencyOf(r);
    if urgency == "High" && c.currentProjects == 0 then 100.0
    else if urgency == "High" && c.currentProjects == 1 then 80.0
    else if urgency == "Medium" then 60.0
    else if urgency == "Low" then 40.0
    else Neutral
  }

  /** Under High urgency an idler contractor never scores lower; otherwise load is irrelevant. */
  lemma UrgencyFavoursIdle(c: Contractor, d: Contractor, r: Requirements)
    requires c.currentProjects <= d.currentProjects
    ensures UrgencyScore(c, r) >= UrgencyScore(d, r)
    ensures UrgencyOf(r) != "High" ==> UrgencyScore(c, r) == UrgencyScore(d, r)
  {
  }

  // ---------------------------------------------------------------- composite

  datatype SubScores = SubScores(
    expertise: real, availability: real, rating: real, location: real,
    budget: real, timeline: real, urgency: real)

  predicate InRange(x: real)
  {
    0.0 <= x <= 100.0
  }

  predicate AllInRange(s: SubScores)
  {
    && InRange(s.expertise) && InRange(s.availability) && InRange(s.rating)
    && InRange(s.location) && InRange(s.budget) && InRange(s.timeline) && InRange(s.urgency)
  }

  /** The weights sum to 1, so a weighted sum of in-range scores is in range,
      and equal sub-scores give that same score. */
  function WeightedSum(s: SubScores): (total: real)
    ensures AllInRange(s) ==> InRange(total)
    ensures (s.expertise == s.availability == s.rating == s.location == s.budget
             == s.timeline == s.urgency) ==> total == s.expertise
  {
    s.expertise * ExpertiseWeight + s.availability * AvailabilityWeight
    + s.rating * RatingWeight + s.location * LocationWeight
    + s.budget * BudgetWeight + s.timeline * TimelineWeight + s.urgency * UrgencyWeight
  }

  /** `Math.round(x * 100) / 100`; `Math.round` takes halves up. */
  function RoundToCents(x: real): (r: real)
    ensures x - 0.005 < r <= x + 0.005
    ensures InRange(x) ==> InRange(r)
    ensures (r * 100.0).Floor as real == r * 100.0
  {
    (x * 100.0 + 0.5).Floor as real / 100.0
  }

  function SubScoresOf(c: Contractor, r: Requirements, geo: Geo, now: int): (s: SubScores)
    requires c.maxConcurrentProjects > 0
    ensures WellFormed(c) && HasCapacity(c) ==> AllInRange(s)
  {
    SubScores(
      ExpertiseScore(c, r), AvailabilityScore(c), RatingScore(c), LocationScore(c, r, geo),
      BudgetScore(c, r), TimelineScore(r, now), UrgencyScore(c, r))
  }

  /** The composite match score of one contractor against one project. */
  function MatchScore(c: Contractor, r: Requirements, geo: Geo, now: int): (score: real)
    requires c.maxConcurrentProjects > 0
    ensures WellFormed(c) && HasCapacity(c) ==> InRange(score)
  {
    RoundToCents(WeightedSum(SubScoresOf(c, r, geo, now)))
  }

  /** Sub-scores (90, 100, 92, 50, 100, 100, 100) combine to 88.4. */
  lemma CompositeExample()
    ensures RoundToCents(WeightedSum(SubScores(90.0, 100.0, 92.0, 50.0, 100.0, 100.0, 100.0))) == 88.4
  {
    assert WeightedSum(SubScores(90.0, 100.0, 92.0, 50.0, 100.0, 100.0, 100.0)) == 88.4;
    assert (88.4 * 100.0 + 0.5).Floor == 8840;
  }
}
