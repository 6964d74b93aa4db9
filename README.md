# Contractor matching engine and assignment policy

This project models the matching engine of the contractor-automation backend
and the assignment policy that consumes its result. Properties of both are
proved in Dafny.

- **Eligibility filter** (`Eligibility`). A contractor is eligible when it is
  Active, profile-verified and below its concurrent-project limit. Each
  requirement that is present adds a conjunct: category, configuration,
  property type, city (primary or secondary service area) and minimum project
  price. Eligible contractors are kept in directory order.
- **Scoring** (`Scoring`). There are seven sub-scores: expertise,
  availability, rating, location, budget, timeline and urgency. They are
  combined with the fixed weights 0.25/0.20/0.20/0.15/0.10/0.05/0.05, and the
  sum is rounded to two decimals the way `Math.round(x*100)/100` does.
- **Ranker** (`Ranking`). Every eligible contractor is scored. The list is
  sorted by score, highest first and stably. `slice(0, limit)` keeps the first
  `limit` entries, with a default of 5. The result also reports how many
  contractors were eligible.
- **Assignment policy** (`ProjectController`). A store object holds the
  project and contractor tables.
  - `CreateProject` validates the request and saves a `Requested` project.
  - If the top match scores at least 80, it auto-assigns that contractor.
  - It records the matches ranked 2 to 4 as alternatives.
  - `AssignContractor` writes the assignment onto the project. It increments
    the contractor's project count and appends to its history, without
    re-checking capacity.

The model works on values with the following representations:

- Scores and money are exact reals.
- An optional string is an `Option<string>`. It counts as given only when it
  is present and non-empty, matching JavaScript truthiness.
- A budget total of 0 is treated like an absent one.
- The contractor directory is the store's contractor table, listed in its
  natural order.
- The great-circle distance (geolib) is a parameter function of two points
  returning whole metres.
- The current time is an integer parameter in milliseconds.
- Each notification send is a parameter saying whether it succeeds.

Two behaviours of the JavaScript service are worth calling out:

- A capacity re-check at commit time is not implemented. The code increments
  the contractor's project count unconditionally, and it never falls back to
  the next alternate. `Book` states exactly when the contractor then stays
  within its limit.
- A failed notification is not turned into a warning on a successful result.
  The error propagates, and the request fails with the assignment and booking
  already applied. The alternatives are then not recorded. `DecisionResult`
  and `DecidedFields` state this behaviour.

## Model

| member | source | states |
|---|---|---|
| Scoring.Offers | contractor-automation-backend/services/MatchingService.js:121-131 | definition of `includes`; its properties are stated by `Scoring.ExpertiseScore` |
| Scoring.CountMatching | contractor-automation-backend/services/MatchingService.js:136-140 | the number of special requirements offered is at most their number, and is zero exactly when none of them is offered |
| Scoring.CountMatchingMonotone | contractor-automation-backend/services/MatchingService.js:136-140 | offering a superset of specialisations never lowers the number matched |
| Scoring.SpecializationBonus | contractor-automation-backend/services/MatchingService.js:135-141 | the bonus lies in [0,10]; it is 0 exactly when no special requirement is offered and 10 exactly when at least two are |
| Scoring.ExpertiseScore | contractor-automation-backend/services/MatchingService.js:116-144 | the score lies in [0,100]; it reaches 90 exactly when category, configuration and property type all match; with none of them matching it is at most 10 (the specialisation bonus) |
| Scoring.ExpertiseMonotone | contractor-automation-backend/services/MatchingService.js:116-144 | a contractor offering a superset of another's tags and specialisations scores at least as high |
| Scoring.AvailabilityScore | contractor-automation-backend/services/MatchingService.js:146-156 | at most 100; strictly positive for a contractor with spare capacity; exactly 100 for a contractor with no current projects |
| Scoring.AvailabilityAntitone | contractor-automation-backend/services/MatchingService.js:146-156 | with the same limit, carrying fewer projects never scores lower |
| Scoring.ReviewBonus | contractor-automation-backend/services/MatchingService.js:165-169 | the bonus lies in [0,20]; it is 0 exactly for at most 5 reviews and 20 exactly for more than 50 |
| Scoring.ReviewBonusMonotone | contractor-automation-backend/services/MatchingService.js:165-169 | the review bonus is non-decreasing in the number of reviews |
| Scoring.RatingScore | contractor-automation-backend/services/MatchingService.js:158-172 | in [0,100] for a non-negative rating |
| Scoring.RatingMonotone | contractor-automation-backend/services/MatchingService.js:158-172 | with the same number of reviews, a higher overall rating never scores lower |
| Scoring.RatingExample | contractor-automation-backend/services/MatchingService.js:158-172 | an overall rating of 4.5 with 60 reviews scores 92 |
| Scoring.TravelLimit | contractor-automation-backend/services/MatchingService.js:190 | the travel radius is never 0 (a 0 or absent radius becomes 50) and positive when the stored one is not negative |
| Scoring.ContractorPoint | contractor-automation-backend/services/MatchingService.js:177-180 | definition of the contractor's point, 0 for absent coordinates; its properties are stated by `Scoring.LocationScore` |
| Scoring.DistanceScore | contractor-automation-backend/services/MatchingService.js:192-196 | a distance within the radius scores in [50,100], distance 0 scores 100, a distance beyond it scores 0 |
| Scoring.DistanceScoreAntitone | contractor-automation-backend/services/MatchingService.js:192-196 | the distance score is non-increasing in the distance, including the drop to 0 past the radius |
| Scoring.DistanceKm | contractor-automation-backend/services/MatchingService.js:189 | the distance in km is never negative |
| Scoring.LocationUnknown | contractor-automation-backend/services/MatchingService.js:175-187 | definition of the two neutral-location tests; its properties are stated by `Scoring.LocationScore` |
| Scoring.LocationScore | contractor-automation-backend/services/MatchingService.js:174-197 | in [0,100]; 50 when project coordinates are missing or either latitude is 0; otherwise at least 50 within the radius and 0 beyond it; 0 only when both points are known |
| Scoring.MinimumOrZero | contractor-automation-backend/services/MatchingService.js:203 | definition of the minimum project price, 0 when absent; its properties are stated by `Scoring.BudgetScore` |
| Scoring.BudgetRatioScore | contractor-automation-backend/services/MatchingService.js:202-211 | at most 100; 0 when the total is below the minimum; for a non-negative minimum, non-negative, and above 50 once the non-zero total reaches the minimum |
| Scoring.BudgetRatioScoreMonotone | contractor-automation-backend/services/MatchingService.js:205-209 | for a non-negative minimum, a larger given (non-zero) total never lowers the ratio score; the whole budget score is not monotone, since a zero total is neutral |
| Scoring.BudgetScore | contractor-automation-backend/services/MatchingService.js:199-212 | 50 with no budget or a zero total; 0 below the minimum project price; in (50,100] for a well-formed contractor whose minimum the budget meets |
| Scoring.DaysUntil | contractor-automation-backend/services/MatchingService.js:217-219 | the whole number of days to the start, rounded down, including for past dates |
| Scoring.TimelineBracket | contractor-automation-backend/services/MatchingService.js:221-228 | in [0,100]; 0 exactly for a past date; 100 exactly for more than 30 days |
| Scoring.TimelineBracketMonotone | contractor-automation-backend/services/MatchingService.js:221-228 | more lead time never scores lower |
| Scoring.TimelineScore | contractor-automation-backend/services/MatchingService.js:214-229 | in [0,100]; 50 without a preferred start; 0 exactly when the start is in the past |
| Scoring.UrgencyOf | contractor-automation-backend/services/MatchingService.js:232 | an unset or empty urgency level defaults to a non-empty level |
| Scoring.UrgencyScore | contractor-automation-backend/services/MatchingService.js:231-241 | one of 100/80/60/50/40; 60 when the level is unset; under High, 100 exactly at 0 current projects and 50 exactly at 2 or more |
| Scoring.UrgencyFavoursIdle | contractor-automation-backend/services/MatchingService.js:231-241 | a contractor with fewer projects never scores lower, and load is irrelevant unless the level is High |
| Scoring.WeightedSum | contractor-automation-backend/services/MatchingService.js:89-111 | the weights sum to 1: in-range sub-scores give an in-range total, and equal sub-scores give that score |
| Scoring.RoundToCents | contractor-automation-backend/services/MatchingService.js:113 | the result is within half a cent of the input, is a whole number of cents, and stays in [0,100] |
| Scoring.SubScoresOf | contractor-automation-backend/services/MatchingService.js:92-111 | every sub-score of a well-formed contractor with spare capacity lies in [0,100] |
| Scoring.MatchScore | contractor-automation-backend/services/MatchingService.js:89-114 | the composite score of a well-formed contractor with spare capacity lies in [0,100] |
| Scoring.CompositeExample | contractor-automation-backend/services/MatchingService.js:6-14 | sub-scores (90,100,92,50,100,100,100) combine to 88.4 |
| Eligibility.IsEligible | contractor-automation-backend/services/MatchingService.js:52-84 | definition of the query; its properties are stated by `Eligibility.EligibleSound` and `Eligibility.Eligible` |
| Eligibility.Eligible | contractor-automation-backend/services/MatchingService.js:51-87 | a contractor is returned exactly when it is in the directory and satisfies the query; no more entries than the directory; distinct ids stay distinct |
| Eligibility.EligibleInOrder | contractor-automation-backend/services/MatchingService.js:86 | the eligible contractors appear in the same relative order as in the directory |
| Eligibility.EligibleSound | contractor-automation-backend/services/MatchingService.js:52-84 | every returned contractor is Active, verified, below its limit, and meets each given category, configuration, property type, city and budget conjunct |
| Eligibility.AbsentRequirementsOnlyCheckStanding | contractor-automation-backend/services/MatchingService.js:52-58 | with no requirement given, eligibility is exactly the standing conjuncts (Active, verified, spare capacity) |
| Ranking.InsertByScore | contractor-automation-backend/services/MatchingService.js:35-36 | insertion adds exactly the new entry (as a multiset), and the new first entry is either it or the old first entry |
| Ranking.InsertKeepsOrder | contractor-automation-backend/services/MatchingService.js:35-36 | inserting into a non-increasing list keeps it non-increasing |
| Ranking.SortByScore | contractor-automation-backend/services/MatchingService.js:35-36 | the sort is a permutation of its input and is non-increasing by score |
| Ranking.InsertKeepsTies | contractor-automation-backend/services/MatchingService.js:35-36 | among entries of any one score, insertion puts the new entry first and keeps the others in order |
| Ranking.SortKeepsTies | contractor-automation-backend/services/MatchingService.js:35-36 | stability: the entries of any one score appear in the same order before and after sorting |
| Ranking.InsertKeepsDistinct | contractor-automation-backend/services/MatchingService.js:35-36 | inserting a contractor not yet in a list of distinct contractors keeps them distinct |
| Ranking.SortKeepsDistinct | contractor-automation-backend/services/MatchingService.js:35-36 | sorting a list of distinct contractors keeps them distinct |
| Ranking.ScoreAll | contractor-automation-backend/services/MatchingService.js:27-32 | one entry per contractor, in input order, each paired with its own match score |
| Ranking.ScoreAllMembers | contractor-automation-backend/services/MatchingService.js:27-32 | scoring keeps exactly the given contractors, each with its own score, and keeps distinct contractors distinct |
| Ranking.SliceEnd | contractor-automation-backend/services/MatchingService.js:37 | `slice(0, limit)` keeps min(limit, n) entries for a non-negative limit and never more than n |
| Ranking.ScoredEligible | contractor-automation-backend/services/MatchingService.js:26-32 | exactly the eligible contractors, in eligibility order, each paired with its own score, distinct when the directory is |
| Ranking.FindBestMatches | contractor-automation-backend/services/MatchingService.js:17-43 | no result exactly when nobody is eligible; otherwise totalAvailable is the eligible count, the matches number min(limit, n), are non-increasing, are eligible with their own scores, and lie in [0,100] |
| Ranking.PrefixMembers | contractor-automation-backend/services/MatchingService.js:35-37 | every entry kept by the slice of the sorted list is one of the scored eligible contractors |
| Ranking.PrefixIsTop | contractor-automation-backend/services/MatchingService.js:35-37 | in a non-increasing list an entry past the cut scores no higher than any entry before it |
| Ranking.EligibleScoresWell | contractor-automation-backend/services/MatchingService.js:61-84 | the filter and the scores agree: an eligible contractor gets the 90 tag points when all tags are asked for and never a budget score below 50 |
| Ranking.MatchesComeFromDirectory | contractor-automation-backend/services/MatchingService.js:20-42 | every match is a contractor of the directory |
| Ranking.BestMatchesAreTop | contractor-automation-backend/services/MatchingService.js:34-37 | top-k: an eligible contractor left out of the matches scores no higher than any match |
| Ranking.WithScorePrefix | contractor-automation-backend/services/MatchingService.js:37 | truncation keeps a prefix of the entries of each score |
| Ranking.BestMatchesKeepTies | contractor-automation-backend/services/MatchingService.js:35-37 | matches of equal score are the first eligible contractors of that score, in eligibility order |
| Ranking.BestMatchesDistinct | contractor-automation-backend/services/MatchingService.js:35-37 | with distinct directory ids no contractor is ranked twice |
| ProjectController.HasRequiredFields | contractor-automation-backend/controllers/ProjectController.js:22 | definition of the required-field check; its properties are stated by `ProjectController.ProjectStore.CreateProject` |
| ProjectController.NewProject | contractor-automation-backend/controllers/ProjectController.js:29-43 | a new project carries the request's client, details and requirements, is Requested, unassigned, without alternatives, and its remaining amount plus the advance is the total |
| ProjectController.AssignTo | contractor-automation-backend/controllers/ProjectController.js:92-100 | assignment sets contractor, status Assigned and start date now, and no other field |
| ProjectController.Book | contractor-automation-backend/controllers/ProjectController.js:103-109 | the project count goes up by exactly 1 and the project id is appended to the history; no other field of the contractor changes; the contractor stays within its limit exactly when it had spare capacity before |
| ProjectController.AutoAssignee | contractor-automation-backend/controllers/ProjectController.js:50-56 | a contractor is chosen exactly when matching succeeded with a non-empty list whose top score is at least 80, and it is the top match |
| ProjectController.Alternates | contractor-automation-backend/controllers/ProjectController.js:58-61 | the ids at ranked positions 2 to 4, in order, at most 3 of them, never the top match when contractors are distinct |
| ProjectController.AutoAssigneeIsBest | contractor-automation-backend/controllers/ProjectController.js:50-56 | an auto-assigned contractor is eligible, clears 80, and scores at least as high as every eligible contractor |
| ProjectController.AlternatesExcludeTop | contractor-automation-backend/controllers/ProjectController.js:58-61 | with distinct directory ids the recorded alternatives never include the top match |
| ProjectController.KitchenScenario | contractor-automation-backend/controllers/ProjectController.js:48-56 | a Kitchen/2BHK/Residential contractor with no open projects, 4.5 stars and 60 reviews scores 88.4 against a High-urgency project in Pune, 45 days out, without coordinates, and is auto-assigned |
| Ranking.UnderBudgetExcluded | contractor-automation-backend/services/MatchingService.js:199-212 | a 50000 budget against a 100000 minimum scores 0 on budget and fails the filter |
| ProjectController.DecisionResult | contractor-automation-backend/controllers/ProjectController.js:50-86 | the request fails exactly when an auto-assignment was made and a notification failed; otherwise it reports the match result |
| ProjectController.Decided | contractor-automation-backend/controllers/ProjectController.js:50-64 | definition of the project after the decision; its properties are stated by `ProjectController.DecidedFields` |
| ProjectController.DecidedFields | contractor-automation-backend/controllers/ProjectController.js:50-64 | without auto-assignment the project keeps status and contractor; with it, Assigned to the top match at now; alternatives are written on success with a non-empty list and untouched otherwise; identity, client, details, requirements and remaining amount never change |
| ProjectController.BookedTable | contractor-automation-backend/controllers/ProjectController.js:54-56 | only the auto-assigned contractor changes, and exactly as `Book` says: one more project, the project id in its history, nothing else; with no assignment the table is unchanged |
| ProjectController.ProjectStore.Directory | contractor-automation-backend/services/MatchingService.js:86 | the directory lists the contractor table in its natural order, with distinct ids |
| ProjectController.ProjectStore.DirectoryEntry | contractor-automation-backend/services/MatchingService.js:86 | a directory entry is the table's contractor under its own id |
| ProjectController.ProjectStore.AutoAssigneeInTable | contractor-automation-backend/controllers/ProjectController.js:52-55 | a contractor chosen for automatic assignment from the directory is in the contractor table |
| ProjectController.ProjectStore.AssignContractor | contractor-automation-backend/controllers/ProjectController.js:89-121 | updates only the named project and contractor, then reports a failed contractor notification, a missing project, or a failed client notification, without rolling back |
| ProjectController.ProjectStore.ApplyMatching | contractor-automation-backend/controllers/ProjectController.js:50-64 | the tables after the decision are exactly `Decided` on the project and `BookedTable` on the contractors, with `DecisionResult` as the outcome |
| ProjectController.ProjectStore.RecordAlternates | contractor-automation-backend/controllers/ProjectController.js:58-63 | only the named project's alternatives change, to the ids ranked 2 to 4 |
| ProjectController.ProjectStore.CreateProject | contractor-automation-backend/controllers/ProjectController.js:8-87 | a request missing a required field is rejected with nothing changed; otherwise a new project is stored and the decision on the directory's match result is applied to it |

## Left out

- Database queries and persistence (`find`, `findByIdAndUpdate`, `save`, `populate`). They become the store's tables and an in-memory filter. Schema validation on save is not modelled.
- The distance library is a parameter. Its haversine arithmetic is not modelled.
- The clock is a parameter. One value of "now" serves both the timeline score and the assignment's start date.
- `Promise.all` scoring runs in sequence. Scoring has no shared state, so the result is the same.
- IEEE double arithmetic, NaN and Infinity. Scores are exact reals. Division by a zero project limit cannot happen for an eligible contractor, and `AvailabilityScore` requires a positive limit.
- An atomic capacity re-check with a fallback to the next alternate. It is a concurrency concern, and the JavaScript service does not implement it.
- Notification sends are booleans saying whether each succeeds. Their content and delivery are not modelled.
- The `catch` branch that turns a failing query into "Error in matching process". A query failure is not modelled, so `FindBestMatches` has only the two outcomes.
- Logging in the `catch` blocks, the HTTP status codes and the populated response body.
- `updateProgress`, `getProjectDetails`, `getClientProjects` and `getContractorProjects`: request handling and pagination with no decision logic.
- The shape of the request body. The matcher receives the flat requirements record. In the code, the whole request body is passed, and category, configuration and property type sit under the project details.
- The contractor's primary coordinates are not part of its schema. The model keeps them as an optional field.
- A `matching.alternativeContractors` list supplied by the client is ignored. The model starts every project with an empty one.
- The request's `requirements`, `timeline` and `documents` sub-objects are not stored separately. The project keeps the requirements record the matcher reads.
- The preferred start date is an integer of milliseconds. The model treats every present value as given, including the epoch itself.
