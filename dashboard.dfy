/**
 * The dashboard: loading the profile and the latest analysis, running an
 * analysis, refreshing the market template, generating application
 * material, and the rules that decide what is shown.
 */
module Dashboard {
  import opened Records
  import opened Api
  import opened JsStrings

  // ---------------------------------------------------------------------------
  // Role resolution and request payloads

  /** `profile?.roles?.[0]`, with a missing profile or an empty list giving the empty string. */
  function FirstProfileRole(profile: Option<ProfileData>): (r: string)
    ensures profile.Some? && |profile.value.roles| > 0 ==> r == profile.value.roles[0]
    ensures profile.None? || profile.value.roles == [] ==> r == ""
  {
    if profile.Some? && |profile.value.roles| > 0 then profile.value.roles[0] else ""
  }

  /**
   * The role an analysis is asked for: the trimmed role input when it holds
   * more than whitespace, else the profile's first role when that is
   * non-empty, else none.
   */
  function ResolveRole(roleInput: string, profile: Option<ProfileData>): (r: Option<string>)
    ensures !IsBlank(roleInput) ==> r == Some(Trim(roleInput))
    ensures IsBlank(roleInput) && FirstProfileRole(profile) != "" ==> r == Some(FirstProfileRole(profile))
    ensures IsBlank(roleInput) && FirstProfileRole(profile) == "" ==> r == None
    ensures r.Some? ==> r.value != ""
  {
    assert (roleInput != "" && Trim(roleInput) != "") <==> !IsBlank(roleInput) by {
      TrimEmptyIffBlank(roleInput);
    }
    if roleInput != "" && Trim(roleInput) != "" then Some(Trim(roleInput))
    else if FirstProfileRole(profile) != "" then Some(FirstProfileRole(profile))
    else None
  }

  /** `runAnalysis`'s body `{domain, role?}`: the role key is present exactly when a role resolves. */
  function AnalysisPayload(domain: string, roleInput: string, profile: Option<ProfileData>): (body: map<string, string>)
    ensures "domain" in body && body["domain"] == domain
    ensures "role" in body <==> ResolveRole(roleInput, profile).Some?
    ensures "role" in body ==> body["role"] == ResolveRole(roleInput, profile).value
    ensures body.Keys <= {"domain", "role"}
  {
    match ResolveRole(roleInput, profile)
    case Some(role) => map["domain" := domain, "role" := role]
    case None => map["domain" := domain]
  }

  /** `refreshMarketTemplate`'s body `{domain, role}`: the same role, or the empty string. */
  function RefreshPayload(domain: string, roleInput: string, profile: Option<ProfileData>): (body: map<string, string>)
    ensures body.Keys == {"domain", "role"} && body["domain"] == domain
    ensures body["role"] == ResolveRole(roleInput, profile).GetOr("")
  {
    map["domain" := domain, "role" := ResolveRole(roleInput, profile).GetOr("")]
  }

  /** Both operations ask for the same role; the refresh sends `''` where the analysis omits the key. */
  lemma RefreshAndAnalysisAgreeOnRole(domain: string, roleInput: string, profile: Option<ProfileData>)
    ensures "role" in AnalysisPayload(domain, roleInput, profile) ==>
      AnalysisPayload(domain, roleInput, profile) == RefreshPayload(domain, roleInput, profile)
    ensures "role" !in AnalysisPayload(domain, roleInput, profile) ==>
      RefreshPayload(domain, roleInput, profile)["role"] == ""
  {
  }

  /** The template kept after a refresh: the server's template with `role || 'general'` and the current domain. */
  function StoredTemplate(t: MarketTemplate, role: string, domain: string): (r: MarketTemplate)
    ensures r.role != "" && r.domain == domain
    ensures r.role == (if role != "" then role else "general")
    ensures r.generatedAtSnake == t.generatedAtSnake && r.generatedAtCamel == t.generatedAtCamel
    ensures r.topKeywords == t.topKeywords
  {
    t.(role := Or(role, "general"), domain := domain)
  }

  // ---------------------------------------------------------------------------
  // Analysis errors

  /** `error?.response?.data || error`: the server's body when there is one, else the thrown error. */
  function AnalysisErrorFields(e: RequestError): (f: ErrorFields)
    ensures e.responseData.Some? ==> f == e.responseData.value
    ensures e.responseData.None? ==> f == e.thrown
  {
    match e.responseData
    case Some(body) => body
    case None => e.thrown
  }

  /** `err?.error || err?.message || ''`. */
  function AnalysisErrorMessage(e: RequestError): (m: string)
    ensures AnalysisErrorFields(e).error != "" ==> m == AnalysisErrorFields(e).error
    ensures AnalysisErrorFields(e).error == "" ==> m == AnalysisErrorFields(e).message
  {
    Or(AnalysisErrorFields(e).error, Or(AnalysisErrorFields(e).message, ""))
  }

  datatype AnalysisFailure = QuotaExhausted | InvalidApiKey | OtherFailure(text: string)

  /** A message that mentions `insufficient_quota` mentions `quota`. */
  lemma InsufficientQuotaMentionsQuota(s: string)
    ensures Contains(s, "insufficient_quota") ==> Contains(s, "quota")
  {
    if Contains(s, "insufficient_quota") {
      assert OccursAt("insufficient_quota", "quota", 13);
      ContainsTransitive(s, "insufficient_quota", "quota");
    }
  }

  /**
   * The three-way classification of a failed analysis, checked in order:
   * quota (the message mentions `insufficient_quota` or `quota`, or the type
   * is `insufficient_quota`), then an invalid key, then anything else with
   * the raw message or the default text. Since `insufficient_quota` contains
   * `quota`, the first check reduces to "mentions quota or has the quota type".
   */
  function ClassifyAnalysisError(e: RequestError): (r: AnalysisFailure)
    ensures var m := AnalysisErrorMessage(e);
      r == QuotaExhausted <==> Contains(m, "quota") || AnalysisErrorFields(e).kind == "insufficient_quota"
    ensures var m := AnalysisErrorMessage(e);
      r == InvalidApiKey <==>
        && !Contains(m, "quota") && AnalysisErrorFields(e).kind != "insufficient_quota"
        && (Contains(m, "invalid_api_key") || Contains(m, "Incorrect API key"))
    ensures r.OtherFailure? ==> r.text == Or(AnalysisErrorMessage(e), "Failed to run analysis") && r.text != ""
  {
    var m := AnalysisErrorMessage(e);
    InsufficientQuotaMentionsQuota(m);
    if Contains(m, "insufficient_quota") || Contains(m, "quota") || AnalysisErrorFields(e).kind == "insufficient_quota" then
      QuotaExhausted
    else if Contains(m, "invalid_api_key") || Contains(m, "Incorrect API key") then InvalidApiKey
    else OtherFailure(Or(m, "Failed to run analysis"))
  }

  const QuotaExhaustedText: string :=
    "OpenAI quota exhausted. Please add a payment method at platform.openai.com/account/billing or check your usage limits."
  const InvalidApiKeyText: string := "Invalid OpenAI API key. Please update your API key in backend/.env"

  /** The error toast for each class of failure. */
  function AnalysisFailureText(f: AnalysisFailure): (t: string)
    requires f.OtherFailure? ==> f.text != ""
    ensures t != ""
    ensures f.OtherFailure? ==> t == f.text
  {
    match f
    case QuotaExhausted => QuotaExhaustedText
    case InvalidApiKey => InvalidApiKeyText
    case OtherFailure(text) => text
  }

  // ---------------------------------------------------------------------------
  // Display rules

  /** The category shown beside the readiness score. */
  function LevelLabel(level: int): (r: string)
    ensures r == "Advanced" <==> level >= 70
    ensures r == "Intermediate" <==> 40 <= level < 70
    ensures r == "Beginner" <==> level < 40
  {
    if level >= 70 then "Advanced" else if level >= 40 then "Intermediate" else "Beginner"
  }

  /** `analysis?.market_template`. */
  function EmbeddedTemplate(analysis: Option<Analysis>): Option<MarketTemplate>
  {
    if analysis.Some? then analysis.value.marketTemplate else None
  }

  /** `t?.generated_at || t?.generatedAt`, the empty string when neither is set. */
  function Stamp(t: Option<MarketTemplate>): string
  {
    if t.Some? then Or(t.value.generatedAtSnake, t.value.generatedAtCamel) else ""
  }

  /** `t?.role`, the empty string when there is no template. */
  function TemplateRole(t: Option<MarketTemplate>): string
  {
    if t.Some? then t.value.role else ""
  }

  /** `analysis?.domain`, the empty string when there is no analysis. */
  function AnalysisDomain(analysis: Option<Analysis>): string
  {
    if analysis.Some? then analysis.value.domain else ""
  }

  /**
   * The market-signals panel sits inside the results view, which exists only
   * while an analysis is held; there it appears when either template exists.
   * Without an analysis the page shows its call to analyse instead.
   */
  predicate MarketPanelShown(analysis: Option<Analysis>, local: Option<MarketTemplate>)
    ensures MarketPanelShown(analysis, local) ==> analysis.Some?
    ensures analysis.Some? && local.Some? ==> MarketPanelShown(analysis, local)
    ensures EmbeddedTemplate(analysis).Some? ==> MarketPanelShown(analysis, local)
    ensures MarketPanelShown(analysis, local) && local.None? ==> EmbeddedTemplate(analysis).Some?
  {
    analysis.Some? && (EmbeddedTemplate(analysis).Some? || local.Some?)
  }

  /**
   * The panel's timestamp: the four-way chain through the embedded
   * template's two spellings and the local template's two spellings, then
   * `'—'`. The embedded template wins whenever it carries a stamp.
   */
  function MarketGeneratedAt(analysis: Option<Analysis>, local: Option<MarketTemplate>): (r: string)
    ensures r != ""
    ensures Stamp(EmbeddedTemplate(analysis)) != "" ==> r == Stamp(EmbeddedTemplate(analysis))
    ensures Stamp(EmbeddedTemplate(analysis)) == "" && Stamp(local) != "" ==> r == Stamp(local)
    ensures Stamp(EmbeddedTemplate(analysis)) == "" && Stamp(local) == "" ==> r == "—"
  {
    var a := EmbeddedTemplate(analysis);
    var candidates := [
      if a.Some? then a.value.generatedAtSnake else "",
      if a.Some? then a.value.generatedAtCamel else "",
      if local.Some? then local.value.generatedAtSnake else "",
      if local.Some? then local.value.generatedAtCamel else ""];
    FirstTruthyOfFour(candidates[0], candidates[1], candidates[2], candidates[3], "—");
    assert candidates == [candidates[0], candidates[1], candidates[2], candidates[3]];
    FirstTruthy(candidates, "—")
  }

  /** The panel's role: embedded role, local role, the role input, the analysis domain, then `'general'`. */
  function MarketRoleLabel(analysis: Option<Analysis>, local: Option<MarketTemplate>, roleInput: string): (r: string)
    ensures r != ""
    ensures TemplateRole(EmbeddedTemplate(analysis)) != "" ==> r == TemplateRole(EmbeddedTemplate(analysis))
    ensures TemplateRole(EmbeddedTemplate(analysis)) == "" && TemplateRole(local) != "" ==>
      r == TemplateRole(local)
    ensures TemplateRole(EmbeddedTemplate(analysis)) == "" && TemplateRole(local) == "" && roleInput != "" ==>
      r == roleInput
    ensures (TemplateRole(EmbeddedTemplate(analysis)) == "" && TemplateRole(local) == "" && roleInput == ""
      && AnalysisDomain(analysis) != "") ==> r == AnalysisDomain(analysis)
    ensures (TemplateRole(EmbeddedTemplate(analysis)) == "" && TemplateRole(local) == "" && roleInput == ""
      && AnalysisDomain(analysis) == "") ==> r == "general"
  {
    var candidates := [TemplateRole(EmbeddedTemplate(analysis)), TemplateRole(local), roleInput, AnalysisDomain(analysis)];
    FirstTruthyOfFour(candidates[0], candidates[1], candidates[2], candidates[3], "general");
    assert candidates == [candidates[0], candidates[1], candidates[2], candidates[3]];
    FirstTruthy(candidates, "general")
  }

  /** The keywords listed: the embedded template's list, else the local one, else none. */
  function MarketKeywords(analysis: Option<Analysis>, local: Option<MarketTemplate>): (r: seq<string>)
    ensures EmbeddedTemplate(analysis).Some? && EmbeddedTemplate(analysis).value.topKeywords.Some? ==>
      r == EmbeddedTemplate(analysis).value.topKeywords.value
    ensures !(EmbeddedTemplate(analysis).Some? && EmbeddedTemplate(analysis).value.topKeywords.Some?) ==>
      r == (if local.Some? && local.value.topKeywords.Some? then local.value.topKeywords.value else [])
  {
    var a := EmbeddedTemplate(analysis);
    if a.Some? && a.value.topKeywords.Some? then a.value.topKeywords.value
    else if local.Some? && local.value.topKeywords.Some? then local.value.topKeywords.value
    else []
  }

  /**
   * The two copies of the market template are not merged: while the held
   * analysis embeds a template with keywords and a stamp, replacing the
   * local template changes neither the keywords nor the timestamp shown.
   */
  lemma EmbeddedTemplateShadowsLocal(analysis: Option<Analysis>, local1: Option<MarketTemplate>, local2: Option<MarketTemplate>)
    requires EmbeddedTemplate(analysis).Some? && EmbeddedTemplate(analysis).value.topKeywords.Some?
    requires Stamp(EmbeddedTemplate(analysis)) != ""
    ensures MarketKeywords(analysis, local1) == MarketKeywords(analysis, local2)
    ensures MarketGeneratedAt(analysis, local1) == MarketGeneratedAt(analysis, local2)
  {
  }

  // ---------------------------------------------------------------------------
  // Content generation

  datatype ContentKind = Resume | CoverLetter | ColdEmail

  /**
   * The generation request for a kind, with the defaults for empty inputs:
   * job role `'Software Developer'`; cover-letter company `'the company'`
   * and position `'Software Developer'`; cold-email company `'your company'`.
   */
  function GenerationRequest(kind: ContentKind, jobRole: string, company: string, position: string,
                             jobDescription: string, recruiterName: string): (r: Request)
    ensures r.verb == Post && r.body.Json?
    ensures kind == Resume ==>
      r.path == ResumePath && r.body.fields == map["job_role" := Or(jobRole, "Software Developer")]
    ensures kind == CoverLetter ==>
      && r.path == CoverLetterPath
      && r.body.fields.Keys == {"company", "position", "job_description"}
      && r.body.fields["company"] == Or(company, "the company")
      && r.body.fields["position"] == Or(position, "Software Developer")
      && r.body.fields["job_description"] == jobDescription
    ensures kind == ColdEmail ==>
      && r.path == ColdEmailPath
      && r.body.fields.Keys == {"recruiter_name", "company"}
      && r.body.fields["recruiter_name"] == recruiterName
      && r.body.fields["company"] == Or(company, "your company")
    ensures forall k | k in r.body.fields && k != "job_description" && k != "recruiter_name" :: r.body.fields[k] != ""
  {
    match kind
    case Resume =>
      Request(Post, ResumePath, Json(map["job_role" := Or(jobRole, "Software Developer")]))
    case CoverLetter =>
      Request(Post, CoverLetterPath, Json(map[
        "company" := Or(company, "the company"),
        "position" := Or(position, "Software Developer"),
        "job_description" := jobDescription]))
    case ColdEmail =>
      Request(Post, ColdEmailPath, Json(map[
        "recruiter_name" := recruiterName,
        "company" := Or(company, "your company")]))
  }

  /** A kind's Generate button is disabled while a generation of that same kind is in flight. */
  predicate GenerateDisabled(generating: bool, contentType: Option<ContentKind>, kind: ContentKind)
    ensures !generating ==> !GenerateDisabled(generating, contentType, kind)
    ensures GenerateDisabled(generating, contentType, kind) ==> contentType == Some(kind)
  {
    generating && contentType == Some(kind)
  }

  /** A kind's dialog shows the shared output only when that kind was the last one requested. */
  predicate OutputShown(generatedContent: string, contentType: Option<ContentKind>, kind: ContentKind)
    ensures generatedContent == "" ==> !OutputShown(generatedContent, contentType, kind)
    ensures OutputShown(generatedContent, contentType, kind) ==> contentType == Some(kind)
  {
    generatedContent != "" && contentType == Some(kind)
  }

  /** While one kind is generating, only its own button is disabled, and only one dialog ever shows output. */
  lemma OnlyRequestedKindAffected(generating: bool, contentType: Option<ContentKind>, content: string, k1: ContentKind, k2: ContentKind)
    requires k1 != k2
    ensures !(GenerateDisabled(generating, contentType, k1) && GenerateDisabled(generating, contentType, k2))
    ensures !(OutputShown(content, contentType, k1) && OutputShown(content, contentType, k2))
  {
  }

  // ---------------------------------------------------------------------------
  // The page

  class DashboardPage {
    var analysis: Option<Analysis>
    var profile: Option<ProfileData>
    var loading: bool
    var analyzing: bool
    var generating: bool
    var domain: string
    var roleInput: string
    var marketTemplate: Option<MarketTemplate>
    var refreshingTemplate: bool
    var generatedContent: string
    var contentType: Option<ContentKind>
    var jobRole: string
    var company: string
    var position: string
    var jobDescription: string
    var recruiterName: string

    constructor ()
      ensures analysis == None && profile == None && loading
      ensures !analyzing && !generating && !refreshingTemplate
      ensures domain == "web" && roleInput == "" && marketTemplate == None
      ensures generatedContent == "" && contentType == None
      ensures jobRole == "" && company == "" && position == "" && jobDescription == "" && recruiterName == ""
    {
      analysis, profile, loading := None, None, true;
      analyzing, generating, refreshingTemplate := false, false, false;
      domain, roleInput, marketTemplate := "web", "", None;
      generatedContent, contentType := "", None;
      jobRole, company, position, jobDescription, recruiterName := "", "", "", "", "";
    }

    /**
     * `loadData`, taken as one step: both the profile and the latest analysis
     * are stored when both requests succeed, neither otherwise.
     */
    method LoadData(profileResponse: Outcome<Option<ProfileData>>, analysisResponse: Outcome<Option<Analysis>>)
      returns (requests: seq<Request>)
      modifies this`profile, this`analysis, this`loading
      ensures requests == [Request(Get, ProfilePath, NoBody), Request(Get, LatestAnalysisPath, NoBody)]
      ensures !loading
      ensures profileResponse.Success? && analysisResponse.Success? ==>
        profile == profileResponse.data && analysis == analysisResponse.data
      ensures profileResponse.Failure? || analysisResponse.Failure? ==>
        profile == old(profile) && analysis == old(analysis)
    {
      requests := [Request(Get, ProfilePath, NoBody), Request(Get, LatestAnalysisPath, NoBody)];
      if profileResponse.Success? && analysisResponse.Success? {
        profile := profileResponse.data;
        analysis := analysisResponse.data;
      }
      loading := false;
    }

    /**
     * `refreshMarketTemplate`: the local template is replaced only when the
     * response carries one; the held analysis is never touched.
     */
    method RefreshMarketTemplate(outcome: Outcome<Option<MarketTemplate>>) returns (request: Request, toast: Option<Toast>)
      modifies this`marketTemplate, this`refreshingTemplate
      ensures request == Request(Post, RefreshTemplatePath, Json(RefreshPayload(old(domain), old(roleInput), old(profile))))
      ensures !refreshingTemplate
      ensures outcome.Success? && outcome.data.Some? ==>
        && marketTemplate == Some(StoredTemplate(outcome.data.value, ResolveRole(old(roleInput), old(profile)).GetOr(""), old(domain)))
        && toast == Some(SuccessToast("Market template refreshed with latest data!"))
      ensures outcome.Success? && outcome.data.None? ==> marketTemplate == old(marketTemplate) && toast == None
      ensures outcome.Failure? ==>
        marketTemplate == old(marketTemplate) && toast == Some(ErrorToast("Failed to refresh market template"))
    {
      refreshingTemplate := true;
      var role := ResolveRole(roleInput, profile).GetOr("");
      request := Request(Post, RefreshTemplatePath, Json(map["domain" := domain, "role" := role]));
      toast := None;
      match outcome {
        case Success(template) =>
          if template.Some? {
            marketTemplate := Some(StoredTemplate(template.value, role, domain));
            toast := Some(SuccessToast("Market template refreshed with latest data!"));
          }
        case Failure(_) =>
          toast := Some(ErrorToast("Failed to refresh market template"));
      }
      refreshingTemplate := false;
    }

    /**
     * `runAnalysis`: a success replaces the held analysis by the response
     * body as it is, and the local template too when the body embeds one; a
     * failure changes neither and raises the classified message.
     */
    method RunAnalysis(outcome: Outcome<Analysis>) returns (request: Request, toast: Toast)
      modifies this`analysis, this`marketTemplate, this`analyzing
      ensures request == Request(Post, AnalyzePath, Json(AnalysisPayload(old(domain), old(roleInput), old(profile))))
      ensures !analyzing
      ensures outcome.Success? ==>
        && analysis == Some(outcome.data)
        && marketTemplate == (if outcome.data.marketTemplate.Some? then outcome.data.marketTemplate else old(marketTemplate))
        && toast == SuccessToast("Analysis completed!")
      ensures outcome.Failure? ==>
        && analysis == old(analysis) && marketTemplate == old(marketTemplate)
        && toast == ErrorToast(AnalysisFailureText(ClassifyAnalysisError(outcome.error)))
    {
      analyzing := true;
      request := Request(Post, AnalyzePath, Json(AnalysisPayload(domain, roleInput, profile)));
      match outcome {
        case Success(body) =>
          analysis := Some(body);
          if body.marketTemplate.Some? {
            marketTemplate := body.marketTemplate;
          }
          toast := SuccessToast("Analysis completed!");
        case Failure(e) =>
          toast := ErrorToast(AnalysisFailureText(ClassifyAnalysisError(e)));
      }
      analyzing := false;
    }

    /**
     * `generateContent`: records the requested kind before the call, stores
     * the content only on success, and clears the shared `generating` flag
     * whatever the outcome.
     */
    method GenerateContent(kind: ContentKind, outcome: Outcome<string>) returns (request: Request, toast: Toast)
      modifies this`generating, this`contentType, this`generatedContent
      ensures request == GenerationRequest(kind, jobRole, company, position, jobDescription, recruiterName)
      ensures !generating && contentType == Some(kind)
      ensures forall k :: !GenerateDisabled(generating, contentType, k)
      ensures outcome.Success? ==>
        generatedContent == outcome.data && toast == SuccessToast("Content generated!")
      ensures outcome.Failure? ==>
        generatedContent == old(generatedContent) && toast == ErrorToast("Failed to generate content")
      ensures generatedContent != "" ==> OutputShown(generatedContent, contentType, kind)
    {
      generating := true;
      contentType := Some(kind);
      request := GenerationRequest(kind, jobRole, company, position, jobDescription, recruiterName);
      match outcome {
        case Success(content) =>
          generatedContent := content;
          toast := SuccessToast("Content generated!");
        case Failure(_) =>
          toast := ErrorToast("Failed to generate content");
      }
      generating := false;
    }
  }
}
