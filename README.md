# FitPath recommender — a Dafny model

This project models the `FitPathRecommender` engine of `recsys.py`, a career
recommender that matches users to career opportunities. The model covers four parts:

- **Three compatibility scorers.**
  - Personality match: 0.7 × the Jaccard overlap of personality-type sets, plus 0.3 when the opportunity's work environment is one the user prefers.
  - Emotional fit: 0.6 × stress compatibility plus 0.4 × the mean of emotional stability and growth mindset.
  - Skill match: the fraction of the required skills that the user has as a technical or soft skill.
- **Registries and ranking.**
  - Users and opportunities live in two maps keyed by their identifiers, and adding a record upserts it.
  - `get_recommendations` scores every registered opportunity with the weighted total 0.4/0.3/0.3.
  - It then sorts the results by descending total and returns `[:limit]` of them.
- **Well-being tracker.** `track_emotional_wellbeing` appends a satisfaction score to a user's history. When the last three scores average below 0.6, it returns a fresh top-3 ranking.
- **Learning-path generator.** `suggest_learning_path` takes the required skills the user lacks and returns the learning resource of each gap skill that has one.

Files:

- `profiles.dfy` — the enums and the user and opportunity records.
- `scoring.dfy` — the scorers, the weighted total, and the set-cardinality lemmas they rest on.
- `ranking.dfy` — the recommendation record, a stable descending sort, Python's `[:limit]` and the specification `IsRanking` of a ranking.
- `learning.dfy` — skill gaps and resource lookup, and the specification `IsLearningPath`.
- `wellbeing.dfy` — the re-evaluation trigger.
- `engine.dfy` — the class `Recommender`, holding the engine's state and methods.
- `sample.dfy` — the sample user and opportunity of `create_sample_recommender`, with their computed scores, and client methods that drive the engine with them.
- `seqs.dfy`, `wrappers.dfy` — small helpers (`NoDup`, `Option`, `Result`).

Design of the model:

- Scores are exact `real`s. The formulas only add, scale by constants, take an absolute value and divide by set sizes.
- Python's `set(list)` is `Elems(list)`.
- The engine is a class:
  - Each of its three dictionaries is a `map` field, and the methods reassign those fields.
  - `get_recommendations` and `suggest_learning_path` are loops over an arbitrarily chosen remaining key, because Python's dict and set order is not something the code relies on.
  - Their results are therefore specified up to that order. A ranking is the `[:limit]` slice of *some* descending order of all the scored records (`IsRanking`). A learning path is the resolution of *some* order of the gap skills (`IsLearningPath`).
  - The lemmas then show what every such result satisfies. In particular, any two rankings have the same scores position by position (`RankingScoresDetermined`); equally scored records may trade places and, when a tie straddles the `[:limit]` cut, which of them are returned may differ.
- Errors that the code raises as `ValueError` are `Failure` results. The trigger path of the tracker returns `Some(ranking)`.
- `GetRecommendations` keeps the source's default `limit` of 5 as a default parameter.
- Re-evaluation triggers whenever, after the append, the last three scores average below 0.6. From the sample history `[0.8, 0.7, 0.9]`, a score of 0.4 does not trigger it, a following 0.3 does, and a further 0.5 does too (`Sample.SampleWellbeingTrigger`).

Where the documented intent and the code differ, the model follows the code:

- **Negative `limit`.** `recommendations[:limit]` with a negative `limit` drops the last `-limit` entries rather than returning an empty list (`Ranking.Take`, `Ranking.SliceLength`).
- **The constructor.** It is written `_init_` (recsys.py:69), so Python never calls it and the three dictionaries are never created. The model's constructor is the intended one, which creates three empty maps.
- **`learning_resources`.** Nothing in the source fills it. It is a public field that the caller assigns.
- **`track_emotional_wellbeing`'s return.** It is annotated `-> None` but returns a list on the trigger path. It is modelled as `Option<seq<Recommendation>>`.

## Model

| member | source | states |
|---|---|---|
| Scoring.Jaccard | recsys.py:85-91 | the overlap `\|a∩b\|/\|a∪b\|` (0 for two empty sets) lies in [0,1]; it is 0 exactly when the sets are disjoint and 1 exactly when they are equal and non-empty |
| Scoring.JaccardSymmetric | recsys.py:89-91 | the overlap does not depend on which set is the user's |
| Scoring.PersonalityMatch | recsys.py:82-97 | the match lies in [0,1], is at least 0.3 with a preferred environment and at most 0.7 without one; it is 1 exactly when the type sets are equal and non-empty and the environment is preferred, 0 exactly when the type sets are disjoint and the environment is not preferred |
| Scoring.StressCompatibility | recsys.py:102 | stress compatibility is at most 1, and equals 1 exactly when tolerance equals the job's stress level |
| Scoring.EmotionalFit | recsys.py:99-108 | the fit never exceeds 0.6 + 0.4 × the mean of stability and growth mindset, and reaches it exactly when tolerance matches the stress level |
| Scoring.EmotionalFitInUnit | recsys.py:99-108 | with tolerance, stress level, stability and growth mindset in [0,1], the fit is in [0,1] |
| Scoring.EmotionalFitPrefersCloserStress | recsys.py:102-108 | an opportunity whose stress level is closer to the user's tolerance fits at least as well |
| Scoring.SkillMatch | recsys.py:110-119 | the match lies in [0,1]; it is 1 exactly when a non-empty set of required skills is all covered by technical plus soft skills, and 0 exactly when none is covered (including when nothing is required) |
| Scoring.TotalScore | recsys.py:135-137 | the weighted total 0.4 × personality + 0.3 × emotional + 0.3 × skill; its range and when it reaches 1 are stated by `Scoring.TotalScoreInUnit` |
| Scoring.TotalScoreInUnit | recsys.py:134-137 | the 0.4/0.3/0.3 total of three scores in [0,1] is in [0,1], and 1 exactly when all three are 1 |
| Ranking.Recommend | recsys.py:129-149 | the record built for one opportunity under its registry key `opp_id`: its three scores, their total, and the copied title, company, growth opportunities and environment name; `Ranking.RecommendInUnit` bounds its scores and `Ranking.RankingForUser` shows every ranking entry is one |
| Ranking.RecommendInUnit | recsys.py:128-149 | for normalised profiles every score in a recommendation record is in [0,1] |
| Ranking.Insert | recsys.py:152 | inserting into a descending list keeps it descending and adds exactly the one record |
| Ranking.SortDesc | recsys.py:152 | the sort by `total_score`, `reverse=True` returns a descending permutation of the scored records |
| Ranking.Take | recsys.py:153 | `xs[:limit]` is a prefix of length min(limit, \|xs\|) for limit ≥ 0, and of length max(\|xs\|+limit, 0) for a negative limit |
| Ranking.SortKeepsEnumeration | recsys.py:151-152 | sorting the scanned records still lists every opportunity's record exactly once |
| Ranking.ScanStep | recsys.py:128-149 | appending the record of a not-yet-scanned opportunity extends the scanned list by that opportunity and keeps its entries distinct |
| Ranking.ScanComplete | recsys.py:128-150 | once every opportunity is scanned, the list holds each opportunity's record exactly once |
| Ranking.SortedSliceIsRanking | recsys.py:151-153 | sorting the full scan and slicing it gives a ranking |
| Ranking.RankingShape | recsys.py:121-153 | a ranking has the slice length, is descending, its entries are records of distinct registered opportunities, and no opportunity left out scores above any entry |
| Ranking.RankingForUser | recsys.py:127-153 | every entry of a ranking for a user is the record that user gets for a registered opportunity, with the slice length, in descending order |
| Ranking.RankingHeadIsBest | recsys.py:151-153 | the first entry of a non-empty ranking scores at least as high as every registered opportunity |
| Ranking.SortedPermutationsAgree | recsys.py:152 | two descending permutations of the same records have the same scores position by position |
| Ranking.RankingScoresDetermined | recsys.py:121-153 | any two rankings of the same opportunities and limit have the same scores position by position; equally scored records may trade places, and when a tie straddles the cut, which of them are returned may differ |
| LearningPath.SkillMatchComplementsGaps | recsys.py:110-119 | the gaps and the matched skills split the required skills; skill match × \|required\| = \|required\| − \|gaps\|; there is no gap exactly when nothing is required or the match is 1 |
| LearningPath.SkillGaps | recsys.py:175-177 | the required skills the user has neither as a technical nor as a soft skill; `LearningPath.SkillMatchComplementsGaps` relates it to the skill match |
| LearningPath.Resolve | recsys.py:180-183 | the resources looked up for skills visited in order, skipping skills without one (never longer than the skills); soundness, completeness, one-step extension and length are `LearningPath.ResolveSound`, `ResolveComplete`, `ResolveAppend` and `ResolveLength` |
| LearningPath.ResolveSound | recsys.py:180-183 | every looked-up entry is the resource of one of the visited skills |
| LearningPath.ResolveComplete | recsys.py:180-183 | the resource of every visited skill that has one is in the path |
| LearningPath.ResolveAppend | recsys.py:181-183 | visiting one more skill appends its resource if it has one, and nothing otherwise |
| LearningPath.ResolveLength | recsys.py:180-185 | visiting distinct skills yields one entry per skill that has a resource |
| LearningPath.LearningPathShape | recsys.py:174-185 | a learning path has one entry per gap skill with a resource (so at most one per gap), every entry is the resource of a required skill the user lacks, and the resource of every gap skill is in it |
| LearningPath.NoGapNoPath | recsys.py:174-185 | a user who has every required skill gets an empty path |
| LearningPath.SingleGapPath | recsys.py:180-185 | a single gap skill with a resource yields exactly that resource |
| Wellbeing.WithSatisfaction | recsys.py:159 | the user with a score appended to the satisfaction history; `Wellbeing.WithSatisfactionAppends` states that nothing else changes |
| Wellbeing.LowSatisfaction | recsys.py:161-163 | the history holds at least three scores and the last three average below 0.6; `Wellbeing.LowSatisfactionByLastThree` and the lemmas after it characterise it |
| Wellbeing.WithSatisfactionAppends | recsys.py:159 | recording a score appends it at the end and keeps all earlier scores; the user's other fields and the other emotional fields (stress tolerance, growth mindset, emotional stability) are unchanged |
| Wellbeing.RecordingKeepsScores | recsys.py:155-159 | recording a score changes neither the personality match, the emotional fit nor the skill match of the user against any opportunity |
| Wellbeing.LowSatisfactionByLastThree | recsys.py:161-163 | the trigger fires exactly when the last three scores sum to less than 1.8 |
| Wellbeing.ConsistentlyLowTriggers | recsys.py:160-163 | three scores below 0.6 in a row trigger a re-evaluation |
| Wellbeing.ConsistentlyHighDoesNotTrigger | recsys.py:160-163 | three scores of at least 0.6 in a row never trigger one |
| Wellbeing.OnlyLastThreeMatter | recsys.py:161-163 | earlier history does not change whether the trigger fires |
| Engine.UpsertIdempotent | recsys.py:74-80 | registering the same record twice gives the same registry as registering it once |
| Engine.Recommender.constructor | recsys.py:69-72 | a new engine has no users, no opportunities and no learning resources |
| Engine.Recommender.AddUser | recsys.py:74-76 | afterwards the user's identifier maps to the new record and every other entry is unchanged; registries keyed by their records' identifiers stay so |
| Engine.Recommender.AddOpportunity | recsys.py:78-80 | afterwards the opportunity's identifier maps to the new record and every other entry is unchanged; registries keyed by their records' identifiers stay so |
| Engine.Recommender.GetRecommendations | recsys.py:121-153 | fails with "user not found" exactly when the user is not registered; otherwise returns a ranking of the user's scored opportunities with the slice length, in descending order |
| Engine.Recommender.TrackEmotionalWellbeing | recsys.py:155-164 | an unknown user changes nothing and gets nothing; a known user's history gets the score appended and no other user changes; a ranking with limit 3 is returned exactly when the new history has at least three scores averaging below 0.6 |
| Engine.Recommender.SuggestLearningPath | recsys.py:166-185 | fails exactly when the user or the opportunity is not registered; otherwise returns the resources of the required skills the user lacks, in some order of the gaps |
| Sample.SamplePersonalityMatch | recsys.py:204-232 | the sample user and job share one of three personality types and a preferred environment: 0.7 × 1/3 + 0.3 |
| Sample.SampleEmotionalFit | recsys.py:213-234 | the sample emotional fit is 0.88 |
| Sample.SampleSkills | recsys.py:207-229 | the sample user has two of the three required skills; leadership is the single gap |
| Sample.SampleTotal | recsys.py:187-238 | the sample total is 254/375 |
| Sample.SampleLearningPath | recsys.py:207-229 | with a leadership resource, the sample learning path is that resource alone |
| Sample.SampleWellbeingTrigger | recsys.py:218 | from the sample history, a further 0.4 does not trigger re-evaluation, a following 0.3 does, and a further 0.5 still does |

## Left out

- The `numpy`, `pandas` and `sklearn` imports (recsys.py:1, 5-6): the code never uses them.
- The `__main__` block (recsys.py:240-251): it only prints to the console.
- `create_sample_recommender` is not a member of the model. Its data appears as `Sample.SampleUser` and `Sample.SampleOpportunity`, and the `Sample` client methods register that data and query the engine.
- Record fields no computation reads are not modelled:
  - `big_five_scores`, `mbti_type`, `work_values`;
  - `experience_level`, `certifications`, `career_goals`;
  - `culture_values`, `work_life_balance_preference`.
- `title`, `company` and `growth_opportunities` are copied into the result unchanged and carry no further meaning.
- Floating-point rounding: scores are exact rationals. Comparisons such as the 0.6 threshold are therefore exact here, where the IEEE doubles of the source may round.
- Aliasing of user objects. In Python, the caller's `User` object and the registry share one history list, so an append is visible through both. The model stores users as values and replaces the registry entry.
- Dictionary insertion order and set iteration order are not modelled. The order of equally scored recommendations and the order of the learning path are left unspecified. Both are pinned down only up to that order.
- Ranking.SortDesc: it is a stable sort, like Python's, but no contract states stability, because the order of ties also depends on the dictionary order that is left out.
- Engine.Recommender.GetRecommendations: its contract gives the ranking specification, the length and the order. That each entry is the user's record for a registered opportunity is stated by the lemma `Ranking.RankingForUser`, which the method's ranking satisfies.
- The constructor misspelling `_init_` is not reproduced. A source object has no `users`, `opportunities` or `learning_resources` attribute, so the five methods that read them (recsys.py:76, 80, 123, 157, 168-169) raise `AttributeError`; the three scorers read only their arguments and are unaffected. The model uses the intended constructor instead.
