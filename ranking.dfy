/**
 * Ranking of opportunities for one user (recsys.py, get_recommendations):
 * the per-opportunity recommendation record, the descending sort by total
 * score, Python's `xs[:limit]` and the specification a ranking meets.
 */
module Ranking {
  import opened Profiles
  import opened Scoring
  import opened Sequences

  datatype Recommendation = Recommendation(
    opportunityId: string,
    title: string,
    company: string,
    totalScore: real,
    personalityMatch: real,
    emotionalFit: real,
    skillMatch: real,
    growthOpportunities: seq<string>,
    workEnvironment: string)

  /** The record built for opportunity `o`, registered under `id`, when ranking for user `u`. */
  function Recommend(u: User, id: string, o: Opportunity): Recommendation
  {
    var personality := PersonalityMatch(u, o);
    var emotional := EmotionalFit(u, o);
    var skill := SkillMatch(u, o);
    Recommendation(id, o.title, o.company, TotalScore(personality, emotional, skill),
                   personality, emotional, skill, o.growthOpportunities,
                   EnvironmentValue(o.workEnvironment))
  }

  /** Every score of a recommendation is in [0,1] when the profiles are normalised. */
  lemma RecommendInUnit(u: User, id: string, o: Opportunity)
    requires Normalized(u, o)
    ensures var r := Recommend(u, id, o);
      InUnit(r.personalityMatch) && InUnit(r.emotionalFit) && InUnit(r.skillMatch) && InUnit(r.totalScore)
  {
    var r := Recommend(u, id, o);
    EmotionalFitInUnit(u, o);
    TotalScoreInUnit(r.personalityMatch, r.emotionalFit, r.skillMatch);
  }

  /** The record of every registered opportunity, keyed by its identifier, scored for `u`. */
  function ScoreTable(u: User, opps: map<string, Opportunity>): (table: map<string, Recommendation>)
    ensures table.Keys == opps.Keys
    ensures forall id :: id in table ==> table[id] == Recommend(u, id, opps[id]) && table[id].opportunityId == id
  {
    map id | id in opps :: Recommend(u, id, opps[id])
  }

  /** `rec` is the record the table holds for its opportunity. */
  ghost predicate Tabled(table: map<string, Recommendation>, rec: Recommendation)
  {
    rec.opportunityId in table && table[rec.opportunityId] == rec
  }

  predicate SortedDesc(s: seq<Recommendation>)
  {
    forall i, j :: 0 <= i < j < |s| ==> s[i].totalScore >= s[j].totalScore
  }

  /** Inserts `x` before the first record it does not score below, keeping the order of equal scores. */
  function Insert(x: Recommendation, s: seq<Recommendation>): (r: seq<Recommendation>)
    requires SortedDesc(s)
    ensures SortedDesc(r)
    ensures multiset(r) == multiset(s) + multiset{x}
    ensures forall y :: y in r ==> y == x || y in s
  {
    if s == [] || x.totalScore >= s[0].totalScore then
      [x] + s
    else
      var rest := Insert(x, s[1..]);
      assert s == [s[0]] + s[1..];
      assert forall y :: y in rest ==> y.totalScore <= s[0].totalScore;
      [s[0]] + rest
  }

  /**
   * A stable sort by descending total score (Python's `list.sort(key=...,
   * reverse=True)`): the result is sorted and a permutation of the input.
   */
  function SortDesc(s: seq<Recommendation>): (r: seq<Recommendation>)
    ensures SortedDesc(r)
    ensures multiset(r) == multiset(s)
  {
    if s == [] then [] else
      assert s == [s[0]] + s[1..];
      Insert(s[0], SortDesc(s[1..]))
  }

  /** The length of Python's `xs[:limit]` for a list of length `n`. */
  function SliceLength(n: nat, limit: int): nat
  {
    if limit >= 0 then (if limit < n then limit else n)
    else if n + limit > 0 then n + limit
    else 0
  }

  /**
   * Python's `xs[:limit]`: a prefix of `xs`, at most `limit` long for a
   * non-negative limit; a negative limit drops the last `-limit` items.
   */
  function Take<T>(xs: seq<T>, limit: int): (r: seq<T>)
    ensures |r| <= |xs| && r == xs[..|r|]
    ensures limit >= 0 ==> |r| == if limit < |xs| then limit else |xs|
    ensures limit < 0 ==> |r| == if |xs| + limit > 0 then |xs| + limit else 0
  {
    xs[..SliceLength(|xs|, limit)]
  }

  /** `all` lists the record of every opportunity of the table (each keyed by its own identifier), once each. */
  ghost predicate Enumerates(table: map<string, Recommendation>, all: seq<Recommendation>)
  {
    && (forall id :: id in table ==> table[id].opportunityId == id)
    && |all| == |table|
    && NoDup(all)
    && (forall i :: 0 <= i < |all| ==> Tabled(table, all[i]))
    && (forall id :: id in table ==> table[id] in all)
  }

  /**
   * What get_recommendations returns: the first `limit` (in Python's slice
   * sense) entries of the records of all opportunities, in an order sorted
   * by descending total score.
   */
  ghost predicate IsRanking(table: map<string, Recommendation>, limit: int, rs: seq<Recommendation>)
  {
    exists all :: Enumerates(table, all) && SortedDesc(all) && rs == Take(all, limit)
  }

  function IdsOf(rs: seq<Recommendation>): set<string>
  {
    set i | 0 <= i < |rs| :: rs[i].opportunityId
  }

  /** `recs` holds the record of each opportunity in `done`, once each, and nothing else. */
  ghost predicate ScannedSoFar(table: map<string, Recommendation>, done: set<string>, recs: seq<Recommendation>)
  {
    && (forall id :: id in table ==> table[id].opportunityId == id)
    && done <= table.Keys
    && |recs| == |done|
    && NoDup(recs)
    && (forall i :: 0 <= i < |recs| ==> Tabled(table, recs[i]) && recs[i].opportunityId in done)
    && (forall id :: id in done ==> table[id] in recs)
  }

  /** Appending the record of one more opportunity extends the scan. */
  lemma ScanStep(table: map<string, Recommendation>, done: set<string>, recs: seq<Recommendation>, id: string)
    requires ScannedSoFar(table, done, recs)
    requires id in table && id !in done
    ensures ScannedSoFar(table, done + {id}, recs + [table[id]])
  {
    var recs' := recs + [table[id]];
    forall i, j | 0 <= i < j < |recs'| ensures recs'[i] != recs'[j] {
      if j == |recs| {
        assert recs[i].opportunityId in done;
      }
    }
  }

  /** A scan that has visited every opportunity enumerates the table. */
  lemma ScanComplete(table: map<string, Recommendation>, recs: seq<Recommendation>)
    requires ScannedSoFar(table, table.Keys, recs)
    ensures Enumerates(table, recs)
  {
    assert |table| == |table.Keys|;
  }

  /** Sorting a complete list of records keeps it complete. */
  lemma SortKeepsEnumeration(table: map<string, Recommendation>, all: seq<Recommendation>)
    requires Enumerates(table, all)
    ensures Enumerates(table, SortDesc(all))
  {
    var sorted := SortDesc(all);
    assert forall x :: x in sorted <==> x in all by {
      forall x ensures x in sorted <==> x in all {
        assert x in sorted <==> x in multiset(sorted);
        assert x in all <==> x in multiset(all);
      }
    }
    NoDupPermutation(sorted, all);
    forall i | 0 <= i < |sorted| ensures Tabled(table, sorted[i]) {
      assert sorted[i] in all;
    }
  }

  /** Entries of a duplicate-free list of tabled records belong to distinct opportunities. */
  lemma DistinctIds(table: map<string, Recommendation>, all: seq<Recommendation>)
    requires NoDup(all)
    requires forall i :: 0 <= i < |all| ==> Tabled(table, all[i])
    ensures forall i, j :: 0 <= i < j < |all| ==> all[i].opportunityId != all[j].opportunityId
  {
    forall i, j | 0 <= i < j < |all| ensures all[i].opportunityId != all[j].opportunityId {
      assert Tabled(table, all[i]) && Tabled(table, all[j]);
      assert all[i] != all[j];
    }
  }

  /** In a sorted complete list, an opportunity outside the first `k` entries scores no higher than any of them. */
  lemma OutsidePrefixScoresLower(table: map<string, Recommendation>, all: seq<Recommendation>, k: nat, id: string, i: nat)
    requires Enumerates(table, all) && SortedDesc(all)
    requires k <= |all| && i < k && id in table && id !in IdsOf(all[..k])
    ensures table[id].totalScore <= all[i].totalScore
  {
    var m :| 0 <= m < |all| && all[m] == table[id];
    assert Tabled(table, all[m]);
    assert m >= k;
  }

  /**
   * The explicit shape of a ranking: its length is that of the slice, it is
   * sorted, its entries are records of distinct opportunities of the table,
   * and no opportunity left out scores above any entry.
   */
  lemma RankingShape(table: map<string, Recommendation>, limit: int, rs: seq<Recommendation>)
    requires IsRanking(table, limit, rs)
    ensures |rs| == SliceLength(|table|, limit)
    ensures SortedDesc(rs)
    ensures forall i :: 0 <= i < |rs| ==> Tabled(table, rs[i])
    ensures forall i, j :: 0 <= i < j < |rs| ==> rs[i].opportunityId != rs[j].opportunityId
    ensures forall id, i :: id in table && id !in IdsOf(rs) && 0 <= i < |rs| ==>
              table[id].totalScore <= rs[i].totalScore
  {
    var all :| Enumerates(table, all) && SortedDesc(all) && rs == Take(all, limit);
    assert rs == all[..|rs|];
    assert forall i :: 0 <= i < |rs| ==> rs[i] == all[i];
    DistinctIds(table, all);
    forall id, i | id in table && id !in IdsOf(rs) && 0 <= i < |rs|
      ensures table[id].totalScore <= rs[i].totalScore
    {
      OutsidePrefixScoresLower(table, all, |rs|, id, i);
    }
  }

  /** Sorting a complete list and slicing it gives a ranking. */
  lemma SortedSliceIsRanking(table: map<string, Recommendation>, all: seq<Recommendation>, limit: int)
    requires Enumerates(table, all)
    ensures IsRanking(table, limit, Take(SortDesc(all), limit))
  {
    SortKeepsEnumeration(table, all);
  }

  /**
   * A ranking for user `u` lists, sorted by descending total score, the
   * recommendation records of distinct registered opportunities.
   */
  lemma RankingForUser(u: User, opps: map<string, Opportunity>, limit: int, rs: seq<Recommendation>)
    requires IsRanking(ScoreTable(u, opps), limit, rs)
    ensures |rs| == SliceLength(|opps|, limit) && SortedDesc(rs)
    ensures forall i :: 0 <= i < |rs| ==>
              var id := rs[i].opportunityId;
              id in opps && rs[i] == Recommend(u, id, opps[id])
  {
    var table := ScoreTable(u, opps);
    RankingShape(table, limit, rs);
    assert |table| == |table.Keys| == |opps.Keys| == |opps|;
    forall i | 0 <= i < |rs| ensures rs[i].opportunityId in opps && rs[i] == Recommend(u, rs[i].opportunityId, opps[rs[i].opportunityId]) {
      assert Tabled(table, rs[i]);
    }
  }

  /** The best-ranked entry scores at least as high as every opportunity of the table. */
  lemma RankingHeadIsBest(table: map<string, Recommendation>, limit: int, rs: seq<Recommendation>, id: string)
    requires IsRanking(table, limit, rs) && |rs| > 0 && id in table
    ensures table[id].totalScore <= rs[0].totalScore
  {
    RankingShape(table, limit, rs);
    if id in IdsOf(rs) {
      var i :| 0 <= i < |rs| && rs[i].opportunityId == id;
      assert Tabled(table, rs[i]);
    }
  }

  function Scores(rs: seq<Recommendation>): seq<real>
  {
    seq(|rs|, i requires 0 <= i < |rs| => rs[i].totalScore)
  }

  /** Removing one entry from a sorted sequence leaves it sorted. */
  lemma SortedRemove(t: seq<Recommendation>, j: nat)
    requires SortedDesc(t) && j < |t|
    ensures SortedDesc(t[..j] + t[j + 1..])
  {
    var t' := t[..j] + t[j + 1..];
    forall a, b | 0 <= a < b < |t'| ensures t'[a].totalScore >= t'[b].totalScore {
      var a', b' := if a < j then a else a + 1, if b < j then b else b + 1;
      assert t'[a] == t[a'] && t'[b] == t[b'];
    }
  }

  /**
   * Removing from a sorted sequence an entry that scores as high as its
   * head leaves the same scores as removing the head.
   */
  lemma RemoveTopScorer(t: seq<Recommendation>, j: nat)
    requires SortedDesc(t) && j < |t| && t[j].totalScore == t[0].totalScore
    ensures Scores(t[..j] + t[j + 1..]) == Scores(t[1..])
  {
    var t' := t[..j] + t[j + 1..];
    forall k | 0 <= k < |t'| ensures t'[k].totalScore == t[k + 1].totalScore {
      if k < j {
        assert t'[k] == t[k];
      } else {
        assert t'[k] == t[k + 1];
      }
    }
  }

  /** Taking the same entry out of two permutations of each other leaves permutations. */
  lemma MultisetRemove<T>(s: seq<T>, t: seq<T>, j: nat)
    requires multiset(s) == multiset(t) && s != [] && j < |t| && t[j] == s[0]
    ensures multiset(s[1..]) == multiset(t[..j] + t[j + 1..])
  {
    assert t == t[..j] + [t[j]] + t[j + 1..];
    assert multiset(t) == multiset(t[..j]) + multiset{t[j]} + multiset(t[j + 1..]);
    assert s == [s[0]] + s[1..];
    assert multiset(s) == multiset{s[0]} + multiset(s[1..]);
    var rest := multiset(t[..j] + t[j + 1..]);
    assert rest == multiset(t[..j]) + multiset(t[j + 1..]);
    assert rest == multiset(t) - multiset{s[0]};
    assert multiset(s[1..]) == multiset(s) - multiset{s[0]};
  }

  /** Two sequences sorted by descending score that are permutations of each other have the same scores. */
  lemma {:induction false} SortedPermutationsAgree(s: seq<Recommendation>, t: seq<Recommendation>)
    requires SortedDesc(s) && SortedDesc(t) && multiset(s) == multiset(t)
    ensures Scores(s) == Scores(t)
    decreases |s|
  {
    assert |s| == |multiset(s)| == |t|;
    if s != [] {
      assert s[0] in multiset(t) && t[0] in multiset(s);
      var j :| 0 <= j < |t| && t[j] == s[0];
      var i :| 0 <= i < |s| && s[i] == t[0];
      assert s[0].totalScore == t[0].totalScore by {
        assert s[0].totalScore >= s[i].totalScore;
        assert t[0].totalScore >= t[j].totalScore;
      }
      var t' := t[..j] + t[j + 1..];
      MultisetRemove(s, t, j);
      SortedRemove(t, j);
      SortedPermutationsAgree(s[1..], t');
      RemoveTopScorer(t, j);
      forall k | 0 <= k < |s| ensures Scores(s)[k] == Scores(t)[k] {
        if k > 0 {
          assert Scores(s)[k] == Scores(s[1..])[k - 1];
          assert Scores(t)[k] == Scores(t[1..])[k - 1];
        }
      }
    }
  }

  /**
   * Any two rankings of the same table and limit have the same scores,
   * position by position. Equally scored records may trade places, and when
   * a tie straddles the cut, which of them are returned may differ.
   */
  lemma RankingScoresDetermined(table: map<string, Recommendation>, limit: int, a: seq<Recommendation>, b: seq<Recommendation>)
    requires IsRanking(table, limit, a) && IsRanking(table, limit, b)
    ensures Scores(a) == Scores(b)
  {
    var allA :| Enumerates(table, allA) && SortedDesc(allA) && a == Take(allA, limit);
    var allB :| Enumerates(table, allB) && SortedDesc(allB) && b == Take(allB, limit);
    forall x ensures x in allA <==> x in allB {
      if x in allA {
        var i :| 0 <= i < |allA| && allA[i] == x;
        assert Tabled(table, allA[i]);
      }
      if x in allB {
        var i :| 0 <= i < |allB| && allB[i] == x;
        assert Tabled(table, allB[i]);
      }
    }
    NoDupSameElements(allA, allB);
    SortedPermutationsAgree(allA, allB);
    assert |a| == |b|;
    forall k | 0 <= k < |a| ensures Scores(a)[k] == Scores(b)[k] {
      assert Scores(allA)[k] == Scores(allB)[k];
    }
  }
}
