/**
 * The records the matching engine reads and the ranked result it produces.
 *
 * The JavaScript service works on loosely typed JavaScript objects and tests fields for
 * truthiness. Here every optional field is explicit: an optional string is an
 * `Option<string>` that is "given" only when present and non-empty, and a
 * number whose absence and zero behave alike everywhere the core reads it is
 * carried as a `real` with 0.0 standing for "absent".
 */
module Records {

  datatype Option<+T> = None | Some(value: T)

  datatype Result<+T, +E> = Ok(value: T) | Err(error: E)

  type ContractorId = nat
  type ProjectId = nat
  type ClientId = nat

  /** Contractor status enum of the contractor schema. */
  datatype ContractorStatus = Active | Inactive | Suspended

  /** A point as geolib receives it; a missing latitude or longitude is 0.0. */
  datatype Coordinates = Coordinates(latitude: real, longitude: real)

  /** The contractor fields the core reads or updates. */
  datatype Contractor = Contractor(
    id: ContractorId,
    status: ContractorStatus,
    profileVerified: bool,
    categories: seq<string>,
    configurations: seq<string>,
    propertyTypes: seq<string>,
    specializations: seq<string>,
    primaryCity: Option<string>,
    secondaryCities: seq<string>,
    maxTravelDistance: real,             // schema default 50; 0.0 also means "use 50"
    primaryCoordinates: Option<Coordinates>,
    minimumProject: Option<real>,        // a missing value never passes the budget filter
    currentProjects: nat,                // schema default 0
    maxConcurrentProjects: nat,          // schema default 3
    overallRating: real,
    totalReviews: nat,
    projectHistory: seq<ProjectId>)

  /** Ratings are never negative and a minimum project price is never negative. */
  predicate WellFormed(c: Contractor)
  {
    && c.overallRating >= 0.0
    && (c.minimumProject.Some? ==> c.minimumProject.value >= 0.0)
  }

  /** The capacity conjunct of the eligibility query. */
  predicate HasCapacity(c: Contractor)
  {
    c.currentProjects < c.maxConcurrentProjects
  }

  /** `advancePaid` absent is 0.0, which is what `advancePaid || 0` yields. */
  datatype Budget = Budget(total: real, advancePaid: real)

  datatype Location = Location(city: Option<string>, coordinates: Option<Coordinates>)

  /** The flat requirements record the matching service reads. */
  datatype Requirements = Requirements(
    category: Option<string>,
    configuration: Option<string>,
    propertyType: Option<string>,
    specialRequirements: seq<string>,    // an absent list is the empty list
    budget: Option<Budget>,
    location: Option<Location>,
    preferredStartDate: Option<int>,     // milliseconds since the epoch
    urgencyLevel: Option<string>)

  /** A JavaScript string is truthy when it is present and non-empty. */
  predicate Given(s: Option<string>)
  {
    s.Some? && s.value != ""
  }

  /** `budget && budget.total` is truthy. */
  predicate BudgetGiven(r: Requirements)
  {
    r.budget.Some? && r.budget.value.total != 0.0
  }

  /** `location && location.city` is truthy. */
  predicate CityGiven(r: Requirements)
  {
    r.location.Some? && Given(r.location.value.city)
  }

  /** One entry of the ranked list: a contractor with its composite score. */
  datatype ScoredContractor = ScoredContractor(contractor: Contractor, score: real)

  /** `{ success: false }` or `{ success: true, matches, totalAvailable }`. */
  datatype MatchResult =
    | NoContractorsAvailable
    | Matched(matches: seq<ScoredContractor>, totalAvailable: nat)

  function Min(x: real, y: real): real
  {
    if x <= y then x else y
  }

  function Max(x: real, y: real): real
  {
    if x >= y then x else y
  }
}
