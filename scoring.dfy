/**
 * The three compatibility scorers of the recommender and the weighted total
 * that ranks opportunities (recsys.py, calculate_personality_match,
 * calculate_emotional_fit, calculate_skill_match and get_recommendations).
 * Scores are exact rationals: the formulas only add, scale by constants,
 * take an absolute value and divide by a set's size.
 */
module Scoring {
  import opened Profiles

  /** A subset is no larger than its superset, and only an equal set is as large. */
  lemma {:induction false} SubsetCardinality<T>(a: set<T>, b: set<T>)
    requires a <= b
    ensures |a| <= |b|
    ensures |a| == |b| ==> a == b
    decreases b
  {
    if b != {} {
      var x :| x in b;
      SubsetCardinality(a - {x}, b - {x});
      if x in a {
        assert |a| == |a - {x}| + 1;
        assert a == (a - {x}) + {x} && b == (b - {x}) + {x};
      } else {
        assert a - {x} == a;
        assert |b - {x}| < |b|;
      }
    }
  }

  /** Two sets are disjoint exactly when their intersection is empty. */
  lemma DisjointIffEmptyIntersection<T>(a: set<T>, b: set<T>)
    ensures a !! b <==> a * b == {}
  {
    if a * b == {} {
      forall x | x in a ensures x !in b {
        assert x in b ==> x in a * b;
      }
    }
  }

  /** The ratio k/n of a part to a non-empty whole is in [0,1], 0 only for k = 0 and 1 only for k = n. */
  lemma Ratio(k: nat, n: nat)
    requires k <= n && n > 0
    ensures 0.0 <= (k as real) / (n as real) <= 1.0
    ensures (k as real) / (n as real) == 0.0 <==> k == 0
    ensures (k as real) / (n as real) == 1.0 <==> k == n
  {
    var q := (k as real) / (n as real);
    assert q * (n as real) == k as real;
  }

  /**
   * Jaccard similarity |a * b| / |a + b|, 0 when both sets are empty. It is
   * 0 exactly for disjoint sets and 1 exactly for equal non-empty sets.
   */
  function Jaccard<T>(a: set<T>, b: set<T>): (r: real)
    ensures 0.0 <= r <= 1.0
    ensures r == 0.0 <==> a !! b
    ensures r == 1.0 <==> a == b && a != {}
  {
    var inter, union := a * b, a + b;
    SubsetCardinality(inter, union);
    if |union| > 0 then
      Ratio(|inter|, |union|);
      DisjointIffEmptyIntersection(a, b);
      assert inter == {} <==> |inter| == 0;
      assert |inter| == |union| <==> inter == union;
      assert inter == union <==> a == b;
      (|inter| as real) / (|union| as real)
    else
      assert a !! b;
      0.0
  }

  lemma JaccardSymmetric<T>(a: set<T>, b: set<T>)
    ensures Jaccard(a, b) == Jaccard(b, a)
  {
    assert a * b == b * a && a + b == b + a;
  }

  /**
   * 1.0 when the opportunity's environment is one the user prefers, else 0.0;
   * a helper of PersonalityMatch, whose contract states its effect.
   */
  function EnvironmentBonus(u: User, o: Opportunity): real
  {
    if o.workEnvironment in u.personality.preferredEnvironment then 1.0 else 0.0
  }

  /**
   * Personality match: 0.7 of the Jaccard overlap of personality types plus
   * 0.3 for a preferred environment. It is 1 exactly when the type sets agree
   * (and are non-empty) and the environment is preferred; 0 exactly when the
   * type sets are disjoint and the environment is not preferred.
   */
  function PersonalityMatch(u: User, o: Opportunity): (r: real)
    ensures 0.0 <= r <= 1.0
    ensures o.workEnvironment in u.personality.preferredEnvironment ==> r >= 0.3
    ensures o.workEnvironment !in u.personality.preferredEnvironment ==> r <= 0.7
    ensures r == 1.0 <==>
      && Elems(u.personality.personalityTypes) == Elems(o.personalityFit) != {}
      && o.workEnvironment in u.personality.preferredEnvironment
    ensures r == 0.0 <==>
      && Elems(u.personality.personalityTypes) !! Elems(o.personalityFit)
      && o.workEnvironment !in u.personality.preferredEnvironment
  {
    var personality := Jaccard(Elems(u.personality.personalityTypes), Elems(o.personalityFit));
    0.7 * personality + 0.3 * EnvironmentBonus(u, o)
  }

  function Abs(x: real): real
  {
    if x < 0.0 then -x else x
  }

  /** 1 - |stress tolerance - stress level|: 1 for a perfect stress match. */
  function StressCompatibility(u: User, o: Opportunity): (r: real)
    ensures r <= 1.0
    ensures r == 1.0 <==> u.emotional.stressTolerance == o.stressLevel
  {
    1.0 - Abs(u.emotional.stressTolerance - o.stressLevel)
  }

  /** Emotional fit: 0.6 stress compatibility plus 0.4 mean of stability and growth mindset. */
  function EmotionalFit(u: User, o: Opportunity): (r: real)
    ensures r <= 0.6 + 0.2 * (u.emotional.emotionalStability + u.emotional.growthMindset)
    ensures r == 0.6 + 0.2 * (u.emotional.emotionalStability + u.emotional.growthMindset)
            <==> u.emotional.stressTolerance == o.stressLevel
  {
    var emotionalHealth := (u.emotional.emotionalStability + u.emotional.growthMindset) / 2.0;
    0.6 * StressCompatibility(u, o) + 0.4 * emotionalHealth
  }

  /** With normalised inputs the emotional fit is a score in [0,1]. */
  lemma EmotionalFitInUnit(u: User, o: Opportunity)
    requires Normalized(u, o)
    ensures InUnit(EmotionalFit(u, o))
  {
  }

  /** Of two opportunities, the one whose stress level is closer to the user's tolerance fits better. */
  lemma EmotionalFitPrefersCloserStress(u: User, o1: Opportunity, o2: Opportunity)
    requires Abs(u.emotional.stressTolerance - o1.stressLevel) <= Abs(u.emotional.stressTolerance - o2.stressLevel)
    ensures EmotionalFit(u, o1) >= EmotionalFit(u, o2)
  {
  }

  /**
   * Skill match: the fraction of the required skills the user has, 0 when
   * nothing is required. It is 1 exactly when every one of a non-empty set of
   * required skills is covered, and 0 exactly when none is.
   */
  function SkillMatch(u: User, o: Opportunity): (r: real)
    ensures 0.0 <= r <= 1.0
    ensures r == 1.0 <==> Elems(o.requiredSkills) != {} && Elems(o.requiredSkills) <= UserSkills(u)
    ensures r == 0.0 <==> Elems(o.requiredSkills) !! UserSkills(u)
  {
    var required := Elems(o.requiredSkills);
    var matching := required * UserSkills(u);
    SubsetCardinality(matching, required);
    if |required| > 0 then
      Ratio(|matching|, |required|);
      DisjointIffEmptyIntersection(required, UserSkills(u));
      assert matching == {} <==> |matching| == 0;
      assert |matching| == |required| <==> matching == required;
      (|matching| as real) / (|required| as real)
    else
      0.0
  }

  /** The weighted total 0.4 personality + 0.3 emotional + 0.3 skill. */
  function TotalScore(personality: real, emotional: real, skill: real): real
  {
    0.4 * personality + 0.3 * emotional + 0.3 * skill
  }

  /** The total of three scores in [0,1] is in [0,1], and it is 1 only when all three are. */
  lemma TotalScoreInUnit(personality: real, emotional: real, skill: real)
    requires InUnit(personality) && InUnit(emotional) && InUnit(skill)
    ensures InUnit(TotalScore(personality, emotional, skill))
    ensures TotalScore(personality, emotional, skill) == 1.0 <==> personality == emotional == skill == 1.0
  {
  }
}
