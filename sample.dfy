/**
 * The sample data of recsys.py (create_sample_recommender): one user, one
 * opportunity, and the scores, learning path and well-being trigger they
 * give.
 */
module Sample {
  import opened Wrappers
  import opened Profiles
  import opened Scoring
  import opened Ranking
  import opened LearningPath
  import opened Wellbeing
  import opened Engine

  function SampleUser(): User
  {
    User(
      "user1",
      PersonalityProfile([Remote, Hybrid], [Creative, Introvert]),
      SkillProfile(["python", "data analysis", "machine learning"], ["communication", "problem-solving"]),
      EmotionalProfile(0.7, 0.9, 0.8, [0.8, 0.7, 0.9]))
  }

  function SampleOpportunity(): Opportunity
  {
    Opportunity(
      "job1", "Senior Data Scientist", "Tech Corp",
      ["python", "machine learning", "leadership"],
      Hybrid, [Analytical, Creative],
      ["management track", "research projects"],
      0.6)
  }

  /** The sample user shares one of three personality types with the job, whose environment it prefers. */
  lemma SamplePersonalityMatch()
    ensures PersonalityMatch(SampleUser(), SampleOpportunity()) == 0.7 * (1.0 / 3.0) + 0.3
  {
    var mine, theirs := Elems(SampleUser().personality.personalityTypes), Elems(SampleOpportunity().personalityFit);
    assert mine == {Creative, Introvert};
    assert theirs == {Analytical, Creative};
    assert mine * theirs == {Creative};
    assert mine + theirs == {Creative, Introvert, Analytical};
  }

  /** 0.6 * (1 - |0.7 - 0.6|) + 0.4 * (0.8 + 0.9) / 2 = 0.88. */
  lemma SampleEmotionalFit()
    ensures EmotionalFit(SampleUser(), SampleOpportunity()) == 0.88
  {
  }

  /** The sample user has two of the three required skills; leadership is the one gap. */
  lemma SampleSkills()
    ensures SkillMatch(SampleUser(), SampleOpportunity()) == 2.0 / 3.0
    ensures SkillGaps(SampleUser(), SampleOpportunity()) == {"leadership"}
  {
    var required, have := Elems(SampleOpportunity().requiredSkills), UserSkills(SampleUser());
    assert required == {"python", "machine learning", "leadership"};
    assert have == {"python", "data analysis", "machine learning", "communication", "problem-solving"};
    assert required * have == {"python", "machine learning"};
    assert required - have == {"leadership"};
  }

  /** The sample total 0.4 * 8/15 + 0.3 * 0.88 + 0.3 * 2/3 is 254/375, about 0.677. */
  lemma SampleTotal()
    ensures Recommend(SampleUser(), "job1", SampleOpportunity()).totalScore == 254.0 / 375.0
  {
    SamplePersonalityMatch();
    SampleEmotionalFit();
    SampleSkills();
  }

  /** With a resource for leadership, the learning path is that resource alone. */
  lemma SampleLearningPath(resources: map<string, string>, path: seq<string>)
    requires IsLearningPath(resources, SkillGaps(SampleUser(), SampleOpportunity()), path)
    requires "leadership" in resources
    ensures path == [resources["leadership"]]
  {
    SampleSkills();
    SingleGapPath(resources, SkillGaps(SampleUser(), SampleOpportunity()), path, "leadership");
  }

  /**
   * Recording 0.4 then 0.3 after the sample history [0.8, 0.7, 0.9]: the
   * first leaves the last three at 0.7, 0.9, 0.4 (mean above 0.6); the
   * second brings them to 0.9, 0.4, 0.3 and triggers a re-evaluation, as
   * does a further 0.5.
   */
  lemma SampleWellbeingTrigger()
    ensures !LowSatisfaction([0.8, 0.7, 0.9])
    ensures !LowSatisfaction([0.8, 0.7, 0.9, 0.4])
    ensures LowSatisfaction([0.8, 0.7, 0.9, 0.4, 0.3])
    ensures LowSatisfaction([0.8, 0.7, 0.9, 0.4, 0.3, 0.5])
  {
    LowSatisfactionByLastThree([0.8, 0.7, 0.9]);
    LowSatisfactionByLastThree([0.8, 0.7, 0.9, 0.4]);
    LowSatisfactionByLastThree([0.8, 0.7, 0.9, 0.4, 0.3]);
    LowSatisfactionByLastThree([0.8, 0.7, 0.9, 0.4, 0.3, 0.5]);
  }

  /** A client of the engine: register the sample data and rank. */
  method SampleRanking()
  {
    var recommender := new Recommender();
    recommender.AddUser(SampleUser());
    recommender.AddOpportunity(SampleOpportunity());
    assert recommender.opportunities == map["job1" := SampleOpportunity()];
    var ranking := recommender.GetRecommendations("user1");
    assert ranking.Success? && |ranking.value| == 1;
    assert ranking.value[0].opportunityId == "job1";
    SampleTotal();
    assert ranking.value[0].totalScore == 254.0 / 375.0;
  }

  /** A client of the engine: ranking for an unregistered user fails. */
  method SampleRankingUnknown()
  {
    var recommender := new Recommender();
    recommender.AddUser(SampleUser());
    assert "user2" !in recommender.users;
    var missing := recommender.GetRecommendations("user2", 5);
    assert missing.Failure? && missing.error == UserNotFound;
  }

  /** A client of the engine: the learning path of the sample user for the sample job. */
  method SampleLearning()
  {
    var recommender := new Recommender();
    recommender.AddUser(SampleUser());
    recommender.AddOpportunity(SampleOpportunity());
    recommender.learningResources := map["leadership" := "leadership course"];
    var path := recommender.SuggestLearningPath("user1", "job1");
    assert path.Success?;
    SampleLearningPath(recommender.learningResources, path.value);
    assert path.value == ["leadership course"];
    var unknown := recommender.SuggestLearningPath("user1", "job2");
    assert unknown.Failure?;
  }

  /** A client of the engine: two low satisfaction scores for the sample user trigger a re-evaluation. */
  method SampleTracking()
  {
    var recommender := new Recommender();
    recommender.AddUser(SampleUser());
    SampleFirstScore(recommender);
    SampleSecondScore(recommender);
  }

  /** The first low score, 0.4, leaves the mean of the last three above 0.6. */
  method SampleFirstScore(recommender: Recommender)
    requires "user1" in recommender.users
    requires recommender.users["user1"].emotional.satisfactionHistory == [0.8, 0.7, 0.9]
    modifies recommender
    ensures "user1" in recommender.users
    ensures recommender.users["user1"].emotional.satisfactionHistory == [0.8, 0.7, 0.9, 0.4]
  {
    SampleWellbeingTrigger();
    var user := recommender.users["user1"];
    ghost var after: seq<real> := [0.8, 0.7, 0.9, 0.4];
    assert WithSatisfaction(user, 0.4).emotional.satisfactionHistory == after;
    var first := recommender.TrackEmotionalWellbeing("user1", 0.4);
    assert recommender.users["user1"].emotional.satisfactionHistory == after;
    assert first == None;
  }

  /** The second low score, 0.3, brings the mean of the last three below 0.6. */
  method SampleSecondScore(recommender: Recommender)
    requires "user1" in recommender.users
    requires recommender.users["user1"].emotional.satisfactionHistory == [0.8, 0.7, 0.9, 0.4]
    modifies recommender
  {
    SampleWellbeingTrigger();
    var user := recommender.users["user1"];
    ghost var after: seq<real> := [0.8, 0.7, 0.9, 0.4, 0.3];
    assert WithSatisfaction(user, 0.3).emotional.satisfactionHistory == after;
    var second := recommender.TrackEmotionalWellbeing("user1", 0.3);
    assert recommender.users["user1"].emotional.satisfactionHistory == after;
    assert second.Some?;
  }

  /** A client of the engine: a score for an unregistered user is ignored. */
  method SampleTrackingUnknown()
  {
    var recommender := new Recommender();
    recommender.AddUser(SampleUser());
    var ignored := recommender.TrackEmotionalWellbeing("nobody", 0.1);
    assert ignored == None;
    assert recommender.users == map["user1" := SampleUser()];
  }
}
