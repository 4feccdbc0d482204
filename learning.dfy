/**
 * Learning-path generation (recsys.py, suggest_learning_path): the skill
 * gaps of a user against one opportunity and the resources that cover them.
 */
module LearningPath {
  import opened Profiles
  import opened Scoring
  import opened Sequences

  /** The required skills the user has neither as a technical nor as a soft skill. */
  function SkillGaps(u: User, o: Opportunity): set<string>
  {
    Elems(o.requiredSkills) - UserSkills(u)
  }

  /**
   * The gaps and the matched skills split the required skills, so the skill
   * match times the number of required skills is the number of required
   * skills that are not gaps, and there is no gap exactly when nothing is
   * required or the skill match is full.
   */
  lemma SkillMatchComplementsGaps(u: User, o: Opportunity)
    ensures |SkillGaps(u, o)| + |Elems(o.requiredSkills) * UserSkills(u)| == |Elems(o.requiredSkills)|
    ensures SkillMatch(u, o) * (|Elems(o.requiredSkills)| as real) ==
            (|Elems(o.requiredSkills)| - |SkillGaps(u, o)|) as real
    ensures SkillGaps(u, o) == {} <==> Elems(o.requiredSkills) == {} || SkillMatch(u, o) == 1.0
  {
    var required, have := Elems(o.requiredSkills), UserSkills(u);
    assert required == (required - have) + (required * have);
    assert (required - have) !! (required * have);
    if |required| > 0 {
      var n := |required| as real;
      assert (|required * have| as real) / n * n == |required * have| as real;
    }
  }

  /** The resources of the given skills, in order, skipping skills that have none. */
  function Resolve(resources: map<string, string>, skills: seq<string>): (path: seq<string>)
    ensures |path| <= |skills|
  {
    if skills == [] then []
    else (if skills[0] in resources then [resources[skills[0]]] else []) + Resolve(resources, skills[1..])
  }

  /** Every resolved entry is the resource of one of the skills. */
  lemma {:induction false} ResolveSound(resources: map<string, string>, skills: seq<string>)
    ensures forall p :: p in Resolve(resources, skills) ==>
              exists s :: s in skills && s in resources && resources[s] == p
  {
    if skills != [] {
      ResolveSound(resources, skills[1..]);
      forall p | p in Resolve(resources, skills)
        ensures exists s :: s in skills && s in resources && resources[s] == p
      {
        if p !in Resolve(resources, skills[1..]) {
          assert skills[0] in resources && resources[skills[0]] == p;
        } else {
          var s :| s in skills[1..] && s in resources && resources[s] == p;
          assert s in skills;
        }
      }
    }
  }

  /** The resource of every skill that has one is resolved. */
  lemma {:induction false} ResolveComplete(resources: map<string, string>, skills: seq<string>)
    ensures forall s :: s in skills && s in resources ==> resources[s] in Resolve(resources, skills)
  {
    if skills != [] {
      ResolveComplete(resources, skills[1..]);
      assert forall s :: s in skills ==> s == skills[0] || s in skills[1..];
    }
  }

  /** Resolving one more skill extends the path by that skill's resource, if it has one. */
  lemma {:induction false} ResolveAppend(resources: map<string, string>, skills: seq<string>, s: string)
    ensures Resolve(resources, skills + [s]) ==
            Resolve(resources, skills) + (if s in resources then [resources[s]] else [])
  {
    if skills != [] {
      assert (skills + [s])[1..] == skills[1..] + [s];
      ResolveAppend(resources, skills[1..], s);
    }
  }

  /** Putting a new skill in front of a list adds one covered skill exactly when it has a resource. */
  lemma CoveredCons(resources: map<string, string>, first: string, rest: seq<string>)
    requires first !in rest
    ensures |Elems([first] + rest) * resources.Keys| ==
            (if first in resources then 1 else 0) + |Elems(rest) * resources.Keys|
  {
    assert Elems([first] + rest) == {first} + Elems(rest);
    if first in resources {
      assert Elems([first] + rest) * resources.Keys == {first} + Elems(rest) * resources.Keys;
    } else {
      assert Elems([first] + rest) * resources.Keys == Elems(rest) * resources.Keys;
    }
  }

  /** Resolving distinct skills yields one resource per skill that has one. */
  lemma {:induction false} ResolveLength(resources: map<string, string>, skills: seq<string>)
    requires NoDup(skills)
    ensures |Resolve(resources, skills)| == |Elems(skills) * resources.Keys|
  {
    if skills != [] {
      var first, rest := skills[0], skills[1..];
      assert NoDup(rest);
      ResolveLength(resources, rest);
      assert first !in rest;
      assert skills == [first] + rest;
      CoveredCons(resources, first, rest);
    }
  }

  /**
   * What suggest_learning_path returns: the resources of the gap skills, in
   * some order of the (unordered) gaps, each gap visited once.
   */
  ghost predicate IsLearningPath(resources: map<string, string>, gaps: set<string>, path: seq<string>)
  {
    exists order :: NoDup(order) && Elems(order) == gaps && path == Resolve(resources, order)
  }

  /**
   * A learning path has one entry per gap skill that has a resource; each
   * entry is the resource of a required skill the user lacks, and every
   * such resource appears.
   */
  lemma LearningPathShape(resources: map<string, string>, u: User, o: Opportunity, path: seq<string>)
    requires IsLearningPath(resources, SkillGaps(u, o), path)
    ensures |path| == |SkillGaps(u, o) * resources.Keys| <= |SkillGaps(u, o)|
    ensures forall p :: p in path ==>
              exists s :: s in o.requiredSkills && s !in UserSkills(u) && s in resources && resources[s] == p
    ensures forall s :: s in SkillGaps(u, o) && s in resources ==> resources[s] in path
  {
    var order :| NoDup(order) && Elems(order) == SkillGaps(u, o) && path == Resolve(resources, order);
    ResolveLength(resources, order);
    ResolveSound(resources, order);
    ResolveComplete(resources, order);
    forall p | p in path
      ensures exists s :: s in o.requiredSkills && s !in UserSkills(u) && s in resources && resources[s] == p
    {
      var s :| s in order && s in resources && resources[s] == p;
      assert s in Elems(order);
    }
    SubsetCardinality(SkillGaps(u, o) * resources.Keys, SkillGaps(u, o));
  }

  /** A user who has every required skill gets an empty learning path. */
  lemma NoGapNoPath(resources: map<string, string>, u: User, o: Opportunity, path: seq<string>)
    requires IsLearningPath(resources, SkillGaps(u, o), path)
    requires Elems(o.requiredSkills) <= UserSkills(u)
    ensures path == []
  {
    var order :| NoDup(order) && Elems(order) == SkillGaps(u, o) && path == Resolve(resources, order);
    assert SkillGaps(u, o) == {};
    ResolveLength(resources, order);
  }

  /** A single gap skill with a resource yields exactly that resource. */
  lemma SingleGapPath(resources: map<string, string>, gaps: set<string>, path: seq<string>, skill: string)
    requires IsLearningPath(resources, gaps, path)
    requires gaps == {skill} && skill in resources
    ensures path == [resources[skill]]
  {
    var order :| NoDup(order) && Elems(order) == gaps && path == Resolve(resources, order);
    ResolveLength(resources, order);
    ResolveComplete(resources, order);
    assert gaps * resources.Keys == {skill};
    assert skill in order by {
      assert skill in Elems(order);
    }
    assert resources[skill] in path;
    assert |path| == 1;
    assert path == [path[0]];
  }
}
