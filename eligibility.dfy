/**
 * The eligibility query of the matching service, as a predicate on one
 * contractor and an order-preserving filter over the directory snapshot.
 */
module Eligibility {
  import opened Records

  /** The conjunctive query: fixed conjuncts, then one per requirement given. */
  predicate IsEligible(r: Requirements, c: Contractor)
  {
    && c.status == Active
    && c.profileVerified
    && HasCapacity(c)
    && (Given(r.category) ==> r.category.value in c.categories)
    && (Given(r.configuration) ==> r.configuration.value in c.configurations)
    && (Given(r.propertyType) ==> r.propertyType.value in c.propertyTypes)
    && (CityGiven(r) ==>
          var city := r.location.value.city.value;
          c.primaryCity == Some(city) || city in c.secondaryCities)
    && (BudgetGiven(r) ==>
          c.minimumProject.Some? && c.minimumProject.value <= r.budget.value.total)
  }

  /** No two contractors of a list share an id. */
  predicate DistinctIds(cs: seq<Contractor>)
  {
    forall i, j :: 0 <= i < j < |cs| ==> cs[i].id != cs[j].id
  }

  /** `xs` is `ys` with some entries left out: the entries of `xs` occur in
      `ys` in the same order. */
  predicate IsSubsequence<T(==)>(xs: seq<T>, ys: seq<T>)
    decreases |ys|
  {
    if ys == [] then xs == []
    else (xs != [] && xs[0] == ys[0] && IsSubsequence(xs[1..], ys[1..])) || IsSubsequence(xs, ys[1..])
  }

  /** The contractors of `directory` that satisfy the query, in directory order. */
  function Eligible(r: Requirements, directory: seq<Contractor>): (found: seq<Contractor>)
    ensures |found| <= |directory|
    ensures forall c :: c in found <==> c in directory && IsEligible(r, c)
    ensures DistinctIds(directory) ==> DistinctIds(found)
  {
    if directory == [] then []
    else
      var rest := Eligible(r, directory[1..]);
      if IsEligible(r, directory[0]) then
        HeadIdUnique(directory);
        [directory[0]] + rest
      else rest
  }

  /** The filter keeps directory order: its result is a subsequence of the directory. */
  lemma {:induction false} EligibleInOrder(r: Requirements, directory: seq<Contractor>)
    ensures IsSubsequence(Eligible(r, directory), directory)
  {
    if directory != [] {
      var rest := Eligible(r, directory[1..]);
      EligibleInOrder(r, directory[1..]);
      if IsEligible(r, directory[0]) {
        assert ([directory[0]] + rest)[1..] == rest;
      }
    }
  }

  lemma HeadIdUnique(cs: seq<Contractor>)
    requires cs != []
    ensures DistinctIds(cs) ==> forall c :: c in cs[1..] ==> c.id != cs[0].id
  {
    if DistinctIds(cs) {
      forall c | c in cs[1..] ensures c.id != cs[0].id {
        var k :| 0 <= k < |cs[1..]| && cs[1..][k] == c;
        assert cs[k + 1] == c;
      }
    }
  }

  /** Every contractor the filter returns is active, verified, below its
      project limit, and meets each requirement that was given. */
  lemma EligibleSound(r: Requirements, directory: seq<Contractor>, c: Contractor)
    requires c in Eligible(r, directory)
    ensures c in directory
    ensures c.status == Active && c.profileVerified
    ensures c.currentProjects < c.maxConcurrentProjects
    ensures Given(r.category) ==> r.category.value in c.categories
    ensures Given(r.configuration) ==> r.configuration.value in c.configurations
    ensures Given(r.propertyType) ==> r.propertyType.value in c.propertyTypes
    ensures CityGiven(r) ==>
      c.primaryCity == r.location.value.city || r.location.value.city.value in c.secondaryCities
    ensures BudgetGiven(r) ==>
      c.minimumProject.Some? && c.minimumProject.value <= r.budget.value.total
  {
  }

  /** A requirement that is absent or empty places no constraint on the matching field. */
  lemma AbsentRequirementsOnlyCheckStanding(r: Requirements, c: Contractor)
    requires !Given(r.category) && !Given(r.configuration) && !Given(r.propertyType)
    requires !CityGiven(r) && !BudgetGiven(r)
    ensures IsEligible(r, c) <==>
      c.status == Active && c.profileVerified && c.currentProjects < c.maxConcurrentProjects
  {
  }
}
