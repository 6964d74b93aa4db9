/**
 * The match ranker: score every eligible contractor, sort by score from
 * highest to lowest (stably, as `Array.prototype.sort` is), keep the first
 * `limit` entries, and report how many contractors were eligible.
 */
module Ranking {
  import opened Records
  import opened Scoring
  import opened Eligibility

  /** Default `limit` of the ranker. */
  const DefaultLimit: int := 5

  predicate NonIncreasing(s: seq<ScoredContractor>)
  {
    forall i, j :: 0 <= i < j < |s| ==> s[i].score >= s[j].score
  }

  /** No two entries of a ranked list are the same contractor. */
  predicate DistinctMatches(s: seq<ScoredContractor>)
  {
    forall i, j :: 0 <= i < j < |s| ==> s[i].contractor.id != s[j].contractor.id
  }

  /** The entries of `s` that score exactly `v`, in their order in `s`. */
  function WithScore(s: seq<ScoredContractor>, v: real): seq<ScoredContractor>
  {
    if s == [] then []
    else (if s[0].score == v then [s[0]] else []) + WithScore(s[1..], v)
  }

  /** Places `x` before the first entry that scores no more than it. Since `x`
      always comes from before every entry of `sorted`, ties keep their order. */
  function InsertByScore(x: ScoredContractor, sorted: seq<ScoredContractor>): (r: seq<ScoredContractor>)
    ensures |r| == |sorted| + 1
    ensures multiset(r) == multiset(sorted) + multiset{x}
    ensures r[0] == x || (sorted != [] && r[0] == sorted[0])
  {
    if sorted == [] || sorted[0].score <= x.score then [x] + sorted
    else
      assert sorted == [sorted[0]] + sorted[1..];
      [sorted[0]] + InsertByScore(x, sorted[1..])
  }

  /** Insertion keeps a non-increasing list non-increasing. */
  lemma {:induction false} InsertKeepsOrder(x: ScoredContractor, sorted: seq<ScoredContractor>)
    requires NonIncreasing(sorted)
    ensures NonIncreasing(InsertByScore(x, sorted))
  {
    if sorted != [] && sorted[0].score > x.score {
      var rest := InsertByScore(x, sorted[1..]);
      InsertKeepsOrder(x, sorted[1..]);
      assert rest[0] == x || rest[0] == sorted[1];
      var r := [sorted[0]] + rest;
      forall i, j | 0 <= i < j < |r| ensures r[i].score >= r[j].score {
        if i > 0 {
          assert r[i] == rest[i - 1] && r[j] == rest[j - 1];
        } else {
          assert r[j] == rest[j - 1];
          assert rest[0].score <= sorted[0].score;
        }
      }
    }
  }

  /** Stable insertion sort from the highest score to the lowest. */
  function SortByScore(s: seq<ScoredContractor>): (r: seq<ScoredContractor>)
    ensures |r| == |s|
    ensures multiset(r) == multiset(s)
    ensures NonIncreasing(r)
  {
    if s == [] then []
    else
      assert s == [s[0]] + s[1..];
      InsertKeepsOrder(s[0], SortByScore(s[1..]));
      InsertByScore(s[0], SortByScore(s[1..]))
  }

  lemma {:induction false} InsertKeepsTies(x: ScoredContractor, sorted: seq<ScoredContractor>, v: real)
    ensures WithScore(InsertByScore(x, sorted), v) == (if x.score == v then [x] else []) + WithScore(sorted, v)
  {
    if sorted == [] || sorted[0].score <= x.score {
      assert ([x] + sorted)[1..] == sorted;
    } else {
      var rest := InsertByScore(x, sorted[1..]);
      InsertKeepsTies(x, sorted[1..], v);
      assert ([sorted[0]] + rest)[1..] == rest;
      // x scores below sorted[0], so at most one of the two is kept for `v`
      var head := if sorted[0].score == v then [sorted[0]] else [];
      var mid := if x.score == v then [x] else [];
      assert head == [] || mid == [];
      assert WithScore(sorted, v) == head + WithScore(sorted[1..], v);
      assert WithScore(InsertByScore(x, sorted), v) == head + (mid + WithScore(sorted[1..], v));
    }
  }

  /** Stability: sorting leaves the relative order of equal scores unchanged. */
  lemma {:induction false} SortKeepsTies(s: seq<ScoredContractor>, v: real)
    ensures WithScore(SortByScore(s), v) == WithScore(s, v)
  {
    if s != [] {
      SortKeepsTies(s[1..], v);
      InsertKeepsTies(s[0], SortByScore(s[1..]), v);
    }
  }

  lemma {:induction false} InsertKeepsDistinct(x: ScoredContractor, sorted: seq<ScoredContractor>)
    requires DistinctMatches(sorted)
    requires forall e :: e in sorted ==> e.contractor.id != x.contractor.id
    ensures DistinctMatches(InsertByScore(x, sorted))
  {
    if sorted != [] && sorted[0].score > x.score {
      var rest := InsertByScore(x, sorted[1..]);
      InsertKeepsDistinct(x, sorted[1..]);
      forall e | e in rest ensures e.contractor.id != sorted[0].contractor.id {
        assert e in multiset(rest);
        if e != x {
          var k :| 0 <= k < |sorted[1..]| && sorted[1..][k] == e;
          assert sorted[k + 1] == e;
        }
      }
    }
  }

  lemma {:induction false} SortKeepsDistinct(s: seq<ScoredContractor>)
    requires DistinctMatches(s)
    ensures DistinctMatches(SortByScore(s))
  {
    if s != [] {
      var rest := SortByScore(s[1..]);
      SortKeepsDistinct(s[1..]);
      forall e | e in rest ensures e.contractor.id != s[0].contractor.id {
        assert e in multiset(s[1..]);
        var k :| 0 <= k < |s[1..]| && s[1..][k] == e;
        assert s[k + 1] == e;
      }
      InsertKeepsDistinct(s[0], rest);
    }
  }

  /** Every contractor paired with its own match score, in input order. */
  function ScoreAll(cs: seq<Contractor>, r: Requirements, geo: Geo, now: int): (s: seq<ScoredContractor>)
    requires forall c :: c in cs ==> c.maxConcurrentProjects > 0
    ensures |s| == |cs|
    ensures forall i :: 0 <= i < |cs| ==> s[i] == ScoredContractor(cs[i], MatchScore(cs[i], r, geo, now))
  {
    seq(|cs|, i requires 0 <= i < |cs| => ScoredContractor(cs[i], MatchScore(cs[i], r, geo, now)))
  }

  /** Length of `slice(0, limit)` on a list of `n` entries; a negative limit counts from the end. */
  function SliceEnd(limit: int, n: nat): (k: nat)
    ensures k <= n
    ensures limit >= 0 ==> k == if limit < n then limit else n
  {
    if limit >= 0 then (if limit < n then limit else n)
    else if n + limit > 0 then n + limit else 0
  }

  /** Scoring a list keeps exactly its contractors, each with its own score,
      and keeps distinct contractors distinct. */
  lemma ScoreAllMembers(cs: seq<Contractor>, r: Requirements, geo: Geo, now: int)
    requires forall c :: c in cs ==> c.maxConcurrentProjects > 0
    ensures forall e :: e in ScoreAll(cs, r, geo, now) ==>
      e.contractor in cs && e.score == MatchScore(e.contractor, r, geo, now)
    ensures forall c :: c in cs ==> ScoredContractor(c, MatchScore(c, r, geo, now)) in ScoreAll(cs, r, geo, now)
    ensures DistinctIds(cs) ==> DistinctMatches(ScoreAll(cs, r, geo, now))
  {
    var s := ScoreAll(cs, r, geo, now);
    forall e | e in s ensures e.contractor in cs && e.score == MatchScore(e.contractor, r, geo, now) {
      var k :| 0 <= k < |s| && s[k] == e;
      assert e.contractor == cs[k];
    }
    forall c | c in cs ensures ScoredContractor(c, MatchScore(c, r, geo, now)) in s {
      var k :| 0 <= k < |cs| && cs[k] == c;
      assert s[k] == ScoredContractor(c, MatchScore(c, r, geo, now));
    }
  }

  /** Eligible contractors paired with their scores, in eligibility order. */
  function ScoredEligible(r: Requirements, directory: seq<Contractor>, geo: Geo, now: int): (s: seq<ScoredContractor>)
    ensures |s| == |Eligible(r, directory)|
    ensures forall i :: 0 <= i < |s| ==> s[i].contractor == Eligible(r, directory)[i]
    ensures forall e :: e in s ==>
      e.contractor in Eligible(r, directory) && e.score == MatchScore(e.contractor, r, geo, now)
    ensures forall c :: c in Eligible(r, directory) ==> ScoredContractor(c, MatchScore(c, r, geo, now)) in s
    ensures DistinctIds(directory) ==> DistinctMatches(s)
  {
    var eligible := Eligible(r, directory);
    ScoreAllMembers(eligible, r, geo, now);
    ScoreAll(eligible, r, geo, now)
  }

  /** The public entry point of the matching service. */
  function FindBestMatches(r: Requirements, directory: seq<Contractor>, geo: Geo, now: int, limit: int): (result: MatchResult)
    ensures result.NoContractorsAvailable? <==> Eligible(r, directory) == []
    ensures result.Matched? ==>
      && result.totalAvailable == |Eligible(r, directory)|
      && |result.matches| == SliceEnd(limit, result.totalAvailable)
      && NonIncreasing(result.matches)
    ensures result.Matched? ==> forall m :: m in result.matches ==>
      && m.contractor in Eligible(r, directory)
      && m.score == MatchScore(m.contractor, r, geo, now)
    ensures result.Matched? && (forall c :: c in directory ==> WellFormed(c)) ==>
      forall m :: m in result.matches ==> InRange(m.score)
  {
    var eligible := Eligible(r, directory);
    if eligible == [] then NoContractorsAvailable
    else
      var ranked := SortByScore(ScoredEligible(r, directory, geo, now));
      var matches := ranked[..SliceEnd(limit, |eligible|)];
      PrefixMembers(ranked, ScoredEligible(r, directory, geo, now), SliceEnd(limit, |eligible|));
      Matched(matches, |eligible|)
  }

  /** Every entry of a prefix of a permutation of `s` is an entry of `s`. */
  lemma PrefixMembers(ranked: seq<ScoredContractor>, s: seq<ScoredContractor>, k: nat)
    requires multiset(ranked) == multiset(s) && k <= |ranked|
    ensures forall m :: m in ranked[..k] ==> m in s
  {
    forall m | m in ranked[..k] ensures m in s {
      assert m in multiset(ranked);
    }
  }

  /** In a non-increasing list, an entry outside the first `cut` scores no
      higher than any entry inside them. */
  lemma PrefixIsTop(ranked: seq<ScoredContractor>, cut: nat, e: ScoredContractor)
    requires NonIncreasing(ranked) && cut <= |ranked|
    requires e in ranked && e !in ranked[..cut]
    ensures forall m :: m in ranked[..cut] ==> e.score <= m.score
  {
    var k :| 0 <= k < |ranked| && ranked[k] == e;
    assert k >= cut;
    forall m | m in ranked[..cut] ensures e.score <= m.score {
      var i :| 0 <= i < cut && ranked[..cut][i] == m;
    }
  }

  /** The filter and the scores agree: an eligible contractor earns the full
      90 tag points when all three tags are asked for, and never scores 0 on budget. */
  lemma EligibleScoresWell(r: Requirements, directory: seq<Contractor>, c: Contractor)
    requires c in Eligible(r, directory) && WellFormed(c)
    ensures Given(r.category) && Given(r.configuration) && Given(r.propertyType) ==> ExpertiseScore(c, r) >= 90.0
    ensures BudgetScore(c, r) >= 50.0
  {
  }

  /** A project budget below the contractor's minimum scores 0 on budget and
      keeps that contractor out of the eligible set altogether. */
  lemma UnderBudgetExcluded(c: Contractor, r: Requirements)
    requires c.minimumProject == Some(100000.0)
    requires r.budget == Some(Budget(50000.0, 0.0))
    ensures BudgetScore(c, r) == 0.0
    ensures !IsEligible(r, c)
  {
  }

  /** Every match is a contractor of the directory it was drawn from. */
  lemma MatchesComeFromDirectory(r: Requirements, directory: seq<Contractor>, geo: Geo, now: int, limit: int, i: nat)
    requires FindBestMatches(r, directory, geo, now, limit).Matched?
    requires i < |FindBestMatches(r, directory, geo, now, limit).matches|
    ensures FindBestMatches(r, directory, geo, now, limit).matches[i].contractor in directory
  {
    var m := FindBestMatches(r, directory, geo, now, limit).matches[i];
    assert m in FindBestMatches(r, directory, geo, now, limit).matches;
  }

  /** Top-k: every eligible contractor left out of the matches scores no
      higher than any contractor in them. */
  lemma BestMatchesAreTop(r: Requirements, directory: seq<Contractor>, geo: Geo, now: int, limit: int, c: Contractor)
    requires FindBestMatches(r, directory, geo, now, limit).Matched?
    requires c in Eligible(r, directory)
    requires forall m :: m in FindBestMatches(r, directory, geo, now, limit).matches ==> m.contractor != c
    ensures forall m :: m in FindBestMatches(r, directory, geo, now, limit).matches ==>
      MatchScore(c, r, geo, now) <= m.score
  {
    var scored := ScoredEligible(r, directory, geo, now);
    var ranked := SortByScore(scored);
    var matches := ranked[..SliceEnd(limit, |Eligible(r, directory)|)];
    assert FindBestMatches(r, directory, geo, now, limit).matches == matches;
    var e := ScoredContractor(c, MatchScore(c, r, geo, now));
    assert e in multiset(scored);
    PrefixIsTop(ranked, |matches|, e);
  }

  lemma {:induction false} WithScorePrefix(s: seq<ScoredContractor>, k: nat, v: real)
    requires k <= |s|
    ensures WithScore(s[..k], v) <= WithScore(s, v)
  {
    if k > 0 {
      WithScorePrefix(s[1..], k - 1, v);
      assert s[..k][1..] == s[1..][..k - 1];
    }
  }

  /** Ties keep eligibility order: the matches scoring any given value are the
      first of the eligible contractors scoring that value, in their order. */
  lemma BestMatchesKeepTies(r: Requirements, directory: seq<Contractor>, geo: Geo, now: int, limit: int, v: real)
    requires FindBestMatches(r, directory, geo, now, limit).Matched?
    ensures WithScore(FindBestMatches(r, directory, geo, now, limit).matches, v)
      <= WithScore(ScoredEligible(r, directory, geo, now), v)
  {
    var scored := ScoredEligible(r, directory, geo, now);
    var ranked := SortByScore(scored);
    WithScorePrefix(ranked, SliceEnd(limit, |Eligible(r, directory)|), v);
    SortKeepsTies(scored, v);
  }

  /** With a directory of distinct ids, no contractor is ranked twice. */
  lemma BestMatchesDistinct(r: Requirements, directory: seq<Contractor>, geo: Geo, now: int, limit: int)
    requires DistinctIds(directory)
    requires FindBestMatches(r, directory, geo, now, limit).Matched?
    ensures DistinctMatches(FindBestMatches(r, directory, geo, now, limit).matches)
  {
    var ranked := SortByScore(ScoredEligible(r, directory, geo, now));
    SortKeepsDistinct(ScoredEligible(r, directory, geo, now));
    assert FindBestMatches(r, directory, geo, now, limit).matches
      == ranked[..SliceEnd(limit, |Eligible(r, directory)|)];
  }
}
