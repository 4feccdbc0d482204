/**
 * The re-evaluation trigger of the well-being tracker (recsys.py,
 * track_emotional_wellbeing): satisfaction scores are appended to a user's
 * history, and a mean of the last three below 0.6 asks for new
 * recommendations.
 */
module Wellbeing {
  import opened Profiles
  import opened Scoring

  /** Python's `sum`: the scores added left to right. */
  function Sum(xs: seq<real>): real
  {
    if xs == [] then 0.0 else Sum(xs[..|xs| - 1]) + xs[|xs| - 1]
  }

  /** The history holds three or more scores and the last three average below 0.6. */
  predicate LowSatisfaction(history: seq<real>)
  {
    |history| >= 3 && Sum(history[|history| - 3..]) / 3.0 < 0.6
  }

  /** The user with `score` appended to the satisfaction history. */
  function WithSatisfaction(u: User, score: real): User
  {
    u.(emotional := u.emotional.(satisfactionHistory := u.emotional.satisfactionHistory + [score]))
  }

  /** Recording a score appends it and changes nothing else about the user. */
  lemma WithSatisfactionAppends(u: User, score: real)
    ensures var h, h' := u.emotional.satisfactionHistory, WithSatisfaction(u, score).emotional.satisfactionHistory;
      |h'| == |h| + 1 && h'[..|h|] == h && h'[|h|] == score
    ensures WithSatisfaction(u, score).(emotional := u.emotional) == u
    ensures WithSatisfaction(u, score).emotional.(satisfactionHistory := u.emotional.satisfactionHistory) == u.emotional
  {
  }

  /** Recording a score changes none of the user's scores against any opportunity. */
  lemma RecordingKeepsScores(u: User, score: real, o: Opportunity)
    ensures PersonalityMatch(WithSatisfaction(u, score), o) == PersonalityMatch(u, o)
    ensures EmotionalFit(WithSatisfaction(u, score), o) == EmotionalFit(u, o)
    ensures SkillMatch(WithSatisfaction(u, score), o) == SkillMatch(u, o)
  {
  }

  /** The trigger compares the sum of the last three scores with 1.8. */
  lemma LowSatisfactionByLastThree(history: seq<real>)
    requires |history| >= 3
    ensures var n := |history|;
      LowSatisfaction(history) <==> history[n - 3] + history[n - 2] + history[n - 1] < 1.8
  {
    var n := |history|;
    var last := history[n - 3..];
    assert Sum(last[..1]) == history[n - 3] by {
      assert last[..1][..0] == [];
    }
    assert Sum(last[..2]) == history[n - 3] + history[n - 2] by {
      assert last[..2][..1] == last[..1];
    }
    assert Sum(last) == history[n - 3] + history[n - 2] + history[n - 1] by {
      assert last[..2] == last[..|last| - 1];
    }
  }

  /** Three low scores in a row trigger a re-evaluation. */
  lemma ConsistentlyLowTriggers(history: seq<real>)
    requires |history| >= 3
    requires forall i :: |history| - 3 <= i < |history| ==> history[i] < 0.6
    ensures LowSatisfaction(history)
  {
    LowSatisfactionByLastThree(history);
  }

  /** Three scores of at least 0.6 in a row never trigger one. */
  lemma ConsistentlyHighDoesNotTrigger(history: seq<real>)
    requires |history| >= 3
    requires forall i :: |history| - 3 <= i < |history| ==> history[i] >= 0.6
    ensures !LowSatisfaction(history)
  {
    LowSatisfactionByLastThree(history);
  }

  /** Only the last three scores matter: earlier history does not change the trigger. */
  lemma OnlyLastThreeMatter(older: seq<real>, recent: seq<real>)
    requires |recent| >= 3
    ensures LowSatisfaction(older + recent) <==> LowSatisfaction(recent)
  {
    var h := older + recent;
    assert h[|h| - 3..] == recent[|recent| - 3..];
  }
}
