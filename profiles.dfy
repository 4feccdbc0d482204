/**
 * The profile records of the recommender: the two closed enumerations, the
 * user and the career opportunity. Only the fields that the engine reads are
 * kept; title, company and growth opportunities are payload copied into
 * recommendations.
 */
module Profiles {

  datatype PersonalityType = Introvert | Extrovert | Analytical | Creative | Structured | Flexible

  datatype WorkEnvironment = Remote | Office | Hybrid | Startup | Corporate

  /** The string value of a work environment (`WorkEnvironment.value`). */
  function EnvironmentValue(e: WorkEnvironment): string
  {
    match e
    case Remote => "remote"
    case Office => "office"
    case Hybrid => "hybrid"
    case Startup => "startup"
    case Corporate => "corporate"
  }

  datatype PersonalityProfile = PersonalityProfile(
    preferredEnvironment: seq<WorkEnvironment>,
    personalityTypes: seq<PersonalityType>)

  datatype SkillProfile = SkillProfile(
    technicalSkills: seq<string>,
    softSkills: seq<string>)

  datatype EmotionalProfile = EmotionalProfile(
    stressTolerance: real,
    growthMindset: real,
    emotionalStability: real,
    satisfactionHistory: seq<real>)

  datatype User = User(
    id: string,
    personality: PersonalityProfile,
    skills: SkillProfile,
    emotional: EmotionalProfile)

  datatype Opportunity = Opportunity(
    id: string,
    title: string,
    company: string,
    requiredSkills: seq<string>,
    workEnvironment: WorkEnvironment,
    personalityFit: seq<PersonalityType>,
    growthOpportunities: seq<string>,
    stressLevel: real)

  /** The set of the elements of a list, as Python's `set(xs)`. */
  function Elems<T>(xs: seq<T>): set<T>
  {
    set x | x in xs
  }

  /** All skills of a user: technical and soft skills together. */
  function UserSkills(u: User): set<string>
  {
    Elems(u.skills.technicalSkills + u.skills.softSkills)
  }

  predicate InUnit(x: real)
  {
    0.0 <= x <= 1.0
  }

  /** The normalisation the scoring formulas assume of their inputs. */
  predicate Normalized(u: User, o: Opportunity)
  {
    && InUnit(u.emotional.stressTolerance)
    && InUnit(u.emotional.growthMindset)
    && InUnit(u.emotional.emotionalStability)
    && InUnit(o.stressLevel)
  }
}
