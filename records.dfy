/**
 * The records the front end holds in memory and exchanges with the backend.
 * A string field that JavaScript would leave `undefined` is the empty string
 * here: every place that reads one treats both as falsy.
 */
module Records {

  datatype Option<T> = None | Some(value: T)
  {
    /** The wrapped value, or `d` for `None`. */
    function GetOr(d: T): (r: T)
      ensures Some? ==> r == value
      ensures None? ==> r == d
    {
      match this
      case Some(v) => v
      case None => d
    }
  }

  /**
   * A JavaScript number read from a numeric input: `NaN` (what `parseFloat`
   * and `parseInt` give for an empty or malformed field) or an exact value.
   * Floating-point rounding is not modelled.
   */
  datatype Number = NaN | Num(value: real)
  {
    /** JavaScript truthiness: `NaN` and zero are falsy. */
    predicate Truthy()
    {
      Num? && value != 0.0
    }
  }

  /** The identity object returned by the session and auth endpoints. */
  datatype User = User(email: string, name: string)

  /** An opaque browser `File` chosen in the resume picker. */
  datatype FileToken = FileToken(name: string)

  /** One entry of `skills`: `{name, years, last_used, level}`. */
  datatype Skill = Skill(name: string, years: Number, lastUsed: string, level: Number)

  /** One entry of `projects`: `{title, description, stack}`. */
  datatype Project = Project(title: string, description: string, stack: seq<string>)

  /** One entry of `education`: `{degree, institution, year}`. */
  datatype Education = Education(degree: string, institution: string, year: string)

  /** The profile as posted in the `profile_data` part and as read back from the backend. */
  datatype ProfileData = ProfileData(
    name: string,
    roles: seq<string>,
    interests: seq<string>,
    skills: seq<Skill>,
    experienceYears: Number,
    projects: seq<Project>,
    education: seq<Education>,
    location: string)

  /** The onboarding wizard's `formData`: the profile plus the optional resume file. */
  datatype ProfileForm = ProfileForm(
    name: string,
    roles: seq<string>,
    interests: seq<string>,
    skills: seq<Skill>,
    experienceYears: Number,
    projects: seq<Project>,
    education: seq<Education>,
    location: string,
    resumeFile: Option<FileToken>)

  /**
   * A market template as the backend sends it. Both spellings of the
   * timestamp occur in responses (`generated_at` and `generatedAt`);
   * `topKeywords` is `None` when the array is absent.
   */
  datatype MarketTemplate = MarketTemplate(
    generatedAtSnake: string,
    generatedAtCamel: string,
    topKeywords: Option<seq<string>>,
    role: string,
    domain: string)

  /**
   * An analysis as returned by the backend; `level` is the readiness score.
   * The display-only parts (score breakdown, category results, missing
   * skills, roadmap) are carried as one opaque value.
   */
  datatype Analysis = Analysis(
    level: int,
    domain: string,
    marketTemplate: Option<MarketTemplate>,
    details: AnalysisDetails)

  /** Score breakdown, skill categories, missing skills and roadmap, shown but never inspected. */
  datatype AnalysisDetails = AnalysisDetails(token: nat)
}
