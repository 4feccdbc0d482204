/**
 * The recommendation engine (recsys.py, FitPathRecommender): registries of
 * users and opportunities, the ranking scan, the well-being tracker and the
 * learning-path generator.
 */
module Engine {
  import opened Wrappers
  import opened Profiles
  import opened Ranking
  import opened LearningPath
  import opened Wellbeing
  import opened Sequences

  datatype Error = UserNotFound | UserOrOpportunityNotFound

  /** Registering the same record twice leaves the registry as registering it once. */
  lemma UpsertIdempotent<V>(registry: map<string, V>, id: string, v: V)
    ensures registry[id := v][id := v] == registry[id := v]
    ensures id in registry[id := v] && registry[id := v][id] == v
  {
  }

  class Recommender {
    var users: map<string, User>
    var opportunities: map<string, Opportunity>
    /** Skill tag to resource description; owned and filled in by the caller. */
    var learningResources: map<string, string>

    /**
     * Every registry entry is keyed by its record's own identifier. No
     * operation needs it; the constructor establishes it and every mutator
     * preserves it.
     */
    ghost predicate Valid()
      reads this
    {
      && (forall id :: id in users ==> users[id].id == id)
      && (forall id :: id in opportunities ==> opportunities[id].id == id)
    }

    constructor ()
      ensures Valid()
      ensures users == map[] && opportunities == map[] && learningResources == map[]
    {
      users := map[];
      opportunities := map[];
      learningResources := map[];
    }

    /** Adds or replaces the user registered under the user's identifier. */
    method AddUser(user: User)
      modifies this`users
      ensures users == old(users)[user.id := user]
      ensures user.id in users && users[user.id] == user
      ensures forall id :: id != user.id ==> (id in users <==> id in old(users))
      ensures forall id :: id != user.id && id in users ==> users[id] == old(users)[id]
      ensures old(Valid()) ==> Valid()
    {
      users := users[user.id := user];
    }

    /** Adds or replaces the opportunity registered under the opportunity's identifier. */
    method AddOpportunity(opportunity: Opportunity)
      modifies this`opportunities
      ensures opportunities == old(opportunities)[opportunity.id := opportunity]
      ensures opportunity.id in opportunities && opportunities[opportunity.id] == opportunity
      ensures forall id :: id != opportunity.id ==> (id in opportunities <==> id in old(opportunities))
      ensures forall id :: id != opportunity.id && id in opportunities ==> opportunities[id] == old(opportunities)[id]
      ensures old(Valid()) ==> Valid()
    {
      opportunities := opportunities[opportunity.id := opportunity];
    }

    /**
     * Scores every registered opportunity for the user and returns the first
     * `limit` of them (Python slice semantics, five by default) by descending
     * total score; fails when the user is not registered.
     */
    method GetRecommendations(userId: string, limit: int := 5) returns (r: Result<seq<Recommendation>, Error>)
      ensures r.Failure? <==> userId !in users
      ensures r.Failure? ==> r.error == UserNotFound
      ensures r.Success? ==> IsRanking(ScoreTable(users[userId], opportunities), limit, r.value)
      ensures r.Success? ==> |r.value| == SliceLength(|opportunities|, limit) && SortedDesc(r.value)
    {
      if userId !in users {
        return Failure(UserNotFound);
      }
      var user := users[userId];
      ghost var table := ScoreTable(user, opportunities);
      var recommendations: seq<Recommendation> := [];
      var remaining := opportunities.Keys;
      ghost var done: set<string> := {};
      while remaining != {}
        invariant remaining <= opportunities.Keys
        invariant done == opportunities.Keys - remaining
        invariant ScannedSoFar(table, done, recommendations)
        decreases remaining
      {
        var id :| id in remaining;
        var recommendation := Recommend(user, id, opportunities[id]);
        ScanStep(table, done, recommendations, id);
        recommendations := recommendations + [recommendation];
        remaining := remaining - {id};
        done := done + {id};
      }
      ScanComplete(table, recommendations);
      SortedSliceIsRanking(table, recommendations, limit);
      r := Success(Take(SortDesc(recommendations), limit));
      RankingForUser(user, opportunities, limit, r.value);
    }

    /**
     * Appends a satisfaction score to a registered user's history; when the
     * last three scores then average below 0.6, returns a fresh top-3
     * ranking. An unknown user is ignored.
     */
    method TrackEmotionalWellbeing(userId: string, score: real) returns (r: Option<seq<Recommendation>>)
      modifies this`users
      ensures userId !in old(users) ==> users == old(users) && r == None
      ensures userId in old(users) ==> users == old(users)[userId := WithSatisfaction(old(users)[userId], score)]
      ensures r.Some? <==> userId in users && LowSatisfaction(users[userId].emotional.satisfactionHistory)
      ensures r.Some? ==> IsRanking(ScoreTable(users[userId], opportunities), 3, r.value)
      ensures old(Valid()) ==> Valid()
    {
      r := None;
      if userId in users {
        var user := users[userId];
        users := users[userId := WithSatisfaction(user, score)];
        var history := users[userId].emotional.satisfactionHistory;
        if |history| >= 3 {
          var recent := history[|history| - 3..];
          if Sum(recent) / 3.0 < 0.6 {
            var ranking := GetRecommendations(userId, 3);
            r := Some(ranking.value);
          }
        }
      }
    }

    /**
     * The learning resources of the skills the opportunity requires and the
     * user lacks; gap skills without a resource are skipped. Fails when
     * either identifier is not registered.
     */
    method SuggestLearningPath(userId: string, opportunityId: string) returns (r: Result<seq<string>, Error>)
      ensures r.Failure? <==> userId !in users || opportunityId !in opportunities
      ensures r.Failure? ==> r.error == UserOrOpportunityNotFound
      ensures r.Success? ==>
                IsLearningPath(learningResources, SkillGaps(users[userId], opportunities[opportunityId]), r.value)
    {
      if userId !in users || opportunityId !in opportunities {
        return Failure(UserOrOpportunityNotFound);
      }
      var user, opportunity := users[userId], opportunities[opportunityId];
      var skillGaps := Elems(opportunity.requiredSkills) - UserSkills(user);
      var learningPath: seq<string> := [];
      var remaining := skillGaps;
      ghost var order: seq<string> := [];
      while remaining != {}
        invariant remaining <= skillGaps
        invariant Elems(order) == skillGaps - remaining
        invariant NoDup(order)
        invariant learningPath == Resolve(learningResources, order)
        decreases remaining
      {
        var skill :| skill in remaining;
        assert Elems(order + [skill]) == Elems(order) + {skill};
        if skill in learningResources {
          learningPath := learningPath + [learningResources[skill]];
        }
        ResolveAppend(learningResources, order, skill);
        order := order + [skill];
        remaining := remaining - {skill};
      }
      r := Success(learningPath);
    }
  }
}
