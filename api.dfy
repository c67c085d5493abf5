/**
 * The boundary to the backend. Every HTTP call is an abstract `Outcome`
 * supplied by the caller of a handler; every call a handler makes is
 * reported back as a `Request` value; every toast it raises is a `Toast`
 * value. Base URLs, cookies, timeouts and encodings are not modelled.
 */
module Api {
  import opened Records
  import opened JsStrings

  /**
   * The fields of an error object the pages look at; the empty string stands
   * for an absent field.
   */
  datatype ErrorFields = ErrorFields(detail: string, error: string, message: string, kind: string)

  /**
   * A rejected request: the response body when the server answered
   * (`error.response.data`) and the fields of the thrown error itself.
   */
  datatype RequestError = RequestError(responseData: Option<ErrorFields>, thrown: ErrorFields)

  /** The result of one backend call. */
  datatype Outcome<T> = Success(data: T) | Failure(error: RequestError)

  /** `error.response?.data?.detail || fallback`. */
  function DetailOr(e: RequestError, fallback: string): (r: string)
    ensures e.responseData.Some? && e.responseData.value.detail != "" ==> r == e.responseData.value.detail
    ensures e.responseData.None? || e.responseData.value.detail == "" ==> r == fallback
  {
    match e.responseData
    case Some(body) => Or(body.detail, fallback)
    case None => fallback
  }

  datatype Verb = Get | Post

  /** One part of a multipart upload: the serialized profile or a file. */
  datatype Part = ProfilePart(profile: ProfileData) | FilePart(file: FileToken)

  /** A request body: none, a JSON object of string fields, or named multipart parts. */
  datatype Body = NoBody | Json(fields: map<string, string>) | Multipart(parts: map<string, Part>)

  /** A request issued to the backend, the path relative to the API prefix. */
  datatype Request = Request(verb: Verb, path: string, body: Body)

  /** A notification raised through the toast library. */
  datatype Toast = SuccessToast(text: string) | ErrorToast(text: string)

  const MePath := "/auth/me"
  const LoginPath := "/auth/login"
  const RegisterPath := "/auth/register"
  const LogoutPath := "/auth/logout"
  const ProfilePath := "/profile"
  const LatestAnalysisPath := "/analysis/latest"
  const AnalyzePath := "/analyze"
  const RefreshTemplatePath := "/analyze/refresh-template"
  const ResumePath := "/generate/resume"
  const CoverLetterPath := "/generate/cover-letter"
  const ColdEmailPath := "/generate/cold-email"

  /** Client-side routes. */
  const LandingRoute := "/"
  const LoginRoute := "/login"
  const OnboardingRoute := "/onboarding"
  const DashboardRoute := "/dashboard"
}
