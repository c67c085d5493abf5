# Career-assistant front end: session, sign-in, onboarding and dashboard

This project models the client-side logic of a single-page career-assistant
application in Dafny. The application has four parts:

- **Application shell.** An `AuthProvider` asks the backend who is signed in
  and holds back every route behind a loading spinner until it has an answer.
  Two routes, onboarding and the dashboard, are guarded: a visitor with no
  user is redirected to the landing page.
- **Sign-in page.** One form posts to the login or the register endpoint,
  depending on its mode. It then sends the user to the dashboard or to
  onboarding, depending on whether a profile exists.
- **Onboarding wizard.** A four-step form collects roles, interests, skills,
  projects, education and an optional résumé file. Each list entry is
  validated when it is added. The profile is posted as one multipart request.
- **Dashboard.** It loads the profile and the latest analysis. It runs a new
  analysis or refreshes the market template, choosing the role from the role
  box or from the profile. It classifies analysis failures into user-facing
  messages, resolves which market template is displayed, and requests
  generated résumés, cover letters and cold e-mails.

## How the model is built

- **Each page component becomes a Dafny `class`.** Its `useState` hooks become
  fields. Each event handler becomes a method whose `modifies` clause names
  exactly the fields the handler's setters touch.
- **Backend calls are parameters.** Each call a handler awaits is supplied as
  an `Outcome` (`Success(data)` or `Failure(error)`). The requests a handler
  issues and the toasts it raises are returned as values (`Request`, `Toast`).
  Navigation assigns the provider's `location`.
- **JavaScript truthiness is written out.** The empty string stands for an
  absent field, and `Or` is `||` on strings. `Trim` strips the ECMAScript
  white-space and line-terminator characters. Numbers read from inputs are
  `NaN` or an exact real.

The modules are:

- `JsStrings` and `Records`: string and data helpers.
- `Api`: the backend boundary.
- `Session`: `App.js`.
- `Login`: `LoginPage.js`.
- `Collections` and `Onboarding`: `OnboardingPage.js`.
- `Dashboard`: `DashboardPage.js`.

Two behaviours of the code worth noting:

- **Logout.** A failed logout request is only logged, and the user stays
  signed in. The user is cleared, and the route changes, only when the request
  succeeds.
- **Failed profile fetch at session resolution.** Suppose `/auth/me` succeeds
  on the landing route, but the following profile request fails. The catch
  block then resets the user to null, so the visitor stays anonymous.

## Model

| member | source | states |
|---|---|---|
| Session.ProtectedRoute | src/App.js:77-82 | without a user the guard renders a redirect to `/`; with one it renders its child unchanged |
| Session.RouteElement | src/App.js:91-110 | `/` and `/login` are open; the onboarding and dashboard pages are rendered for a signed-in user on their paths and only then, and an anonymous visitor on those paths is redirected to `/` |
| Session.HomeFor | src/App.js:37-41 | a user with a profile goes to `/dashboard`, one without to `/onboarding` (both directions) |
| Session.AuthProvider.constructor | src/App.js:19-23 | the provider starts with no user, the loading gate closed, at the current pathname |
| Session.AuthProvider.Render | src/App.js:62-73 | the spinner is shown exactly while loading; afterwards the route table for the current location and user |
| Session.AuthProvider.CheckExistingSession | src/App.js:29-49 | `/auth/me` is always asked first; its failure leaves the visitor anonymous; success off the landing route signs in without moving; on the landing route the profile decides between dashboard and onboarding, and a failed profile fetch resets the user; the gate always opens |
| Session.AuthProvider.Logout | src/App.js:51-60 | posts `/auth/logout`; only success clears the user, returns to `/` and raises the success toast; a failure changes nothing |
| Session.SessionThenRender | src/App.js:25-73 | after the session check from any starting path the routes are rendered; a guarded page is shown only if `/auth/me` succeeded; a failed check on a guarded path renders the redirect to `/`, and a successful one renders that path's page for the signed-in user |
| Login.EmptyForm | src/pages/LoginPage.js:14-18 | the cleared form has exactly the email, password and name fields, all empty |
| Login.ChangeField | src/pages/LoginPage.js:51-53 | only the named field takes the new value; every other field keeps its value and the three form fields stay present |
| Login.AuthEndpoint | src/pages/LoginPage.js:26 | sign-in mode posts to `/auth/login`, sign-up mode to `/auth/register` (both directions) |
| Login.AuthPayload | src/pages/LoginPage.js:27-29 | sign-in sends exactly email and password, sign-up adds the name; every value is copied from the form |
| Login.LoginPayloadIsRegisterWithoutName | src/pages/LoginPage.js:27-29 | the sign-in payload is the sign-up payload without the name, and the sign-up payload is the sign-in payload plus the name |
| Login.LoginPage.constructor | src/pages/LoginPage.js:11-19 | the page opens in sign-in mode, not loading, password hidden, with the cleared form |
| Login.LoginPage.HandleChange | src/pages/LoginPage.js:51-53 | the form becomes `ChangeField` of the old form; nothing else on the page changes |
| Login.LoginPage.ToggleMode | src/pages/LoginPage.js:159-162 | the mode flips and every field is cleared |
| Login.LoginPage.TogglePasswordVisibility | src/pages/LoginPage.js:126 | password visibility flips and nothing else changes |
| Login.LoginPage.HandleSubmit | src/pages/LoginPage.js:21-49 | the credentials are posted to the mode's endpoint with the mode's payload; a rejection raises the server `detail` or "Authentication failed" and touches neither user nor route; acceptance hands the user over, raises the mode's success toast and fetches the profile, whose answer picks the route and whose failure raises a second error toast without navigating; loading always ends false |
| Login.SignInWithoutProfile | src/pages/LoginPage.js:21-49 | typing email and password into a fresh page and signing in with accepted credentials and no stored profile posts exactly those credentials to `/auth/login`, signs the user in and ends on `/onboarding` |
| Collections.RemoveAt | src/pages/OnboardingPage.js:233-236 | filtering out index `idx` removes exactly that element, keeping order, when the index is in range, and leaves the list unchanged otherwise |
| Collections.RemoveAtKeepsElements | src/pages/OnboardingPage.js:233-236 | every element left after a removal was in the list before |
| Collections.ApplyEdit | src/pages/OnboardingPage.js:49-52 | an admitted add appends the entry at the end, a rejected add changes nothing, a removal is `RemoveAt` |
| Collections.ReplayLength | src/pages/OnboardingPage.js:49-53 | after any sequence of edits the list length is its initial length plus the admitted adds minus the in-range removals |
| Collections.ReplayOnlyAdmits | src/pages/OnboardingPage.js:39-53 | every entry of a list after any sequence of edits was there at the start or came in through an admitted add |
| Onboarding.SkillError | src/pages/OnboardingPage.js:39-47 | no error exactly when the skill has a name and a truthy positive years value; a missing name is reported first, then the years message |
| Onboarding.ProjectError | src/pages/OnboardingPage.js:57-65 | no error exactly when title and description are present; the title message comes first |
| Onboarding.EducationError | src/pages/OnboardingPage.js:75-83 | no error exactly when degree and institution are present; the degree message comes first |
| Onboarding.PreviousStep | src/pages/OnboardingPage.js:593 | "Previous" moves one step back and never below step 1 |
| Onboarding.NextStep | src/pages/OnboardingPage.js:602 | "Next" moves one step forward and never past step 4 |
| Onboarding.WalkStaysInRange | src/pages/OnboardingPage.js:593-606 | from any step in 1..4, any sequence of Previous/Next presses stays within 1..4 |
| Onboarding.ThreeNextsReachLastStep | src/pages/OnboardingPage.js:600-616 | three presses of "Next" from any valid step reach the submit step 4 |
| Onboarding.WithoutFile | src/pages/OnboardingPage.js:105 | the profile part keeps every form field except the résumé file |
| Onboarding.SubmitRequest | src/pages/OnboardingPage.js:101-117 | a multipart POST to `/profile` that always carries the profile part and carries the file part exactly when a file was chosen, and no other part |
| Onboarding.SubmitProfileIgnoresFile | src/pages/OnboardingPage.js:105-111 | the profile part does not depend on which file, if any, is attached |
| Onboarding.SubmittedProfileIsWellFormed | src/pages/OnboardingPage.js:39-55 | on a form built only through the page's handlers every submitted skill passed the skill validation |
| Onboarding.OnboardingPage.constructor | src/pages/OnboardingPage.js:15-37 | step 1, not loading, the name taken from the user or empty, every list empty, no file, the empty drafts (a skill at level 5) |
| Onboarding.OnboardingPage.SetName | src/pages/OnboardingPage.js:167 | only the name field changes |
| Onboarding.OnboardingPage.SetExperienceYears | src/pages/OnboardingPage.js:182 | only the experience field changes |
| Onboarding.OnboardingPage.SetLocation | src/pages/OnboardingPage.js:194 | only the location field changes |
| Onboarding.OnboardingPage.AddRole | src/pages/OnboardingPage.js:208-221 | a non-empty draft role is appended; an empty one changes nothing; the draft ends empty |
| Onboarding.OnboardingPage.AddInterest | src/pages/OnboardingPage.js:251-264 | a non-empty draft interest is appended; an empty one changes nothing; the draft ends empty |
| Onboarding.OnboardingPage.RemoveRole | src/pages/OnboardingPage.js:233-236 | only the roles list changes, by `RemoveAt` |
| Onboarding.OnboardingPage.RemoveInterest | src/pages/OnboardingPage.js:276-279 | only the interests list changes, by `RemoveAt` |
| Onboarding.OnboardingPage.AddSkill | src/pages/OnboardingPage.js:39-55 | an admissible draft skill is appended, the draft reset and a success toast raised; otherwise the validation message is raised and nothing changes; the form stays well-formed |
| Onboarding.OnboardingPage.RemoveSkill | src/pages/OnboardingPage.js:361-364 | only the skills list changes, by `RemoveAt` |
| Onboarding.OnboardingPage.AddStackItem | src/pages/OnboardingPage.js:413-426 | a non-empty stack tag is appended to the draft project; an empty one changes nothing |
| Onboarding.OnboardingPage.RemoveStackItem | src/pages/OnboardingPage.js:437-440 | only the draft project's stack changes, by `RemoveAt` |
| Onboarding.OnboardingPage.AddProject | src/pages/OnboardingPage.js:57-73 | an admissible draft project is appended and the draft reset with a success toast; otherwise the validation message is raised and nothing changes |
| Onboarding.OnboardingPage.RemoveProject | src/pages/OnboardingPage.js:469-472 | only the projects list changes, by `RemoveAt` |
| Onboarding.OnboardingPage.AddEducation | src/pages/OnboardingPage.js:75-91 | an admissible draft education entry is appended and the draft reset with a success toast; otherwise the validation message is raised and nothing changes |
| Onboarding.OnboardingPage.RemoveEducation | src/pages/OnboardingPage.js:539-542 | only the education list changes, by `RemoveAt` |
| Onboarding.OnboardingPage.SelectResume | src/pages/OnboardingPage.js:556-562 | a chosen file is stored with a toast naming it; no file changes nothing |
| Onboarding.OnboardingPage.ClearResume | src/pages/OnboardingPage.js:577-580 | only the file is cleared |
| Onboarding.OnboardingPage.PreviousDisabled | src/pages/OnboardingPage.js:593-594 | "Previous" is disabled exactly where pressing it would leave the step unchanged |
| Onboarding.OnboardingPage.SubmitOffered | src/pages/OnboardingPage.js:600-616 | the submit button replaces "Next" exactly on step 4 |
| Onboarding.OnboardingPage.PreviousPressed | src/pages/OnboardingPage.js:593 | the step becomes `PreviousStep` of the old step and stays valid |
| Onboarding.OnboardingPage.NextPressed | src/pages/OnboardingPage.js:602 | the step becomes `NextStep` of the old step and stays valid |
| Onboarding.OnboardingPage.HandleSubmit | src/pages/OnboardingPage.js:93-127 | without skills nothing is sent and only the error toast is raised; otherwise exactly `SubmitRequest` of the form is sent; success goes to `/dashboard`, failure stays and raises the server `detail` or "Failed to create profile"; loading ends false |
| Dashboard.FirstProfileRole | src/pages/DashboardPage.js:90 | the profile's first role, or empty when there is no profile or no role |
| Dashboard.ResolveRole | src/pages/DashboardPage.js:86-92 | a role box that is not blank wins, trimmed; otherwise the profile's first role; otherwise no role; a resolved role is never empty |
| Dashboard.AnalysisPayload | src/pages/DashboardPage.js:86-92 | the analysis body always carries the domain and carries a role exactly when one resolves |
| Dashboard.RefreshPayload | src/pages/DashboardPage.js:63-64 | the refresh body always carries domain and role, the role empty when none resolves |
| Dashboard.RefreshAndAnalysisAgreeOnRole | src/pages/DashboardPage.js:63-92 | the two requests name the same role whenever the analysis request names one, and the refresh request sends the empty role otherwise |
| Dashboard.StoredTemplate | src/pages/DashboardPage.js:66-71 | the stored template keeps the server's stamps and keywords, takes the request's domain, and its role is the resolved role or "general" |
| Dashboard.AnalysisErrorFields | src/pages/DashboardPage.js:107 | the error fields read are the server's response body when there is one, else the thrown error's own; `AnalysisErrorMessage` and `ClassifyAnalysisError` state what is read from them |
| Dashboard.AnalysisErrorMessage | src/pages/DashboardPage.js:107-108 | the message is the error object's `error` field, else its `message` field |
| Dashboard.InsufficientQuotaMentionsQuota | src/pages/DashboardPage.js:110 | a message containing `insufficient_quota` also contains `quota`, so the first test of the quota branch is subsumed by the second |
| Dashboard.ClassifyAnalysisError | src/pages/DashboardPage.js:107-120 | quota exhausted exactly when the message mentions `quota` or the type is `insufficient_quota`; otherwise an invalid key exactly when the message mentions `invalid_api_key` or `Incorrect API key`; otherwise the message itself or "Failed to run analysis" |
| Dashboard.AnalysisFailureText | src/pages/DashboardPage.js:110-120 | every failure is reported with a non-empty text; an unclassified failure shows the text `ClassifyAnalysisError` chose, whose default is applied there alone |
| Dashboard.LevelLabel | src/pages/DashboardPage.js:287 | "Advanced" exactly from 70, "Intermediate" exactly from 40 below 70, "Beginner" exactly below 40 |
| Dashboard.MarketPanelShown | src/pages/DashboardPage.js:196-341 | the market panel is shown only while an analysis is held, always when a local template exists alongside it, always when the analysis embeds a template, and without a local template only through the embedded one |
| Dashboard.MarketGeneratedAt | src/pages/DashboardPage.js:345-351 | the analysis's embedded stamp wins over the local template's, each snake-case before camel-case; with none the dash is shown; never empty |
| Dashboard.MarketRoleLabel | src/pages/DashboardPage.js:354-360 | the embedded role, else the local template's role, else the role box, else the analysis domain, else "general", each fallback stated case by case; never empty |
| Dashboard.MarketKeywords | src/pages/DashboardPage.js:364 | the embedded keywords when present, else the local template's, else none |
| Dashboard.EmbeddedTemplateShadowsLocal | src/pages/DashboardPage.js:341-366 | when the analysis embeds a stamped template with keywords, the local template does not affect the displayed stamp or keywords |
| Dashboard.GenerationRequest | src/pages/DashboardPage.js:132-145 | each kind posts to its own endpoint with its own fields and defaults ("Software Developer", "the company", "your company"); every defaulted field is non-empty |
| Dashboard.GenerateDisabled | src/pages/DashboardPage.js:586 | a kind's button is disabled only while generating, and only for the last kind requested; `OnlyRequestedKindAffected` and `GenerateContent` state the rest |
| Dashboard.OutputShown | src/pages/DashboardPage.js:596 | a kind's dialog shows output only when there is content and that kind was the last requested; `OnlyRequestedKindAffected` and `GenerateContent` state the rest |
| Dashboard.OnlyRequestedKindAffected | src/pages/DashboardPage.js:586-596 | at most one kind's button is disabled and at most one kind's output is shown at a time |
| Dashboard.DashboardPage.constructor | src/pages/DashboardPage.js:21-38 | no analysis or profile, loading, domain "web", every other input empty and no template |
| Dashboard.DashboardPage.LoadData | src/pages/DashboardPage.js:44-58 | both reads are issued; both results are stored when both succeed and neither otherwise; loading ends false |
| Dashboard.DashboardPage.RefreshMarketTemplate | src/pages/DashboardPage.js:60-80 | posts `RefreshPayload`; a returned template is stored as `StoredTemplate` with a success toast; an empty answer changes nothing silently; a failure keeps the old template and raises the error toast |
| Dashboard.DashboardPage.RunAnalysis | src/pages/DashboardPage.js:82-124 | posts `AnalysisPayload`; success stores the analysis and, when it embeds one, its template; failure keeps both and raises the classified message |
| Dashboard.DashboardPage.GenerateContent | src/pages/DashboardPage.js:127-155 | posts `GenerationRequest` for the kind and records the kind; content is replaced only on success; no button stays disabled afterwards; non-empty content is shown under the requested kind |
| JsStrings.Or | src/pages/DashboardPage.js:133 | a non-empty left operand is the result, an empty one yields the right operand |
| JsStrings.FirstTruthy | src/pages/DashboardPage.js:345-351 | the first non-empty candidate, with every earlier candidate empty; the default when all are empty |
| JsStrings.FirstTruthyOfFour | src/pages/DashboardPage.js:345-351 | a chain of four `||` equals the first non-empty of the four candidates |
| JsStrings.TrimStart | src/pages/DashboardPage.js:63 | the result is a suffix whose dropped prefix is all white space and which does not start with white space |
| JsStrings.TrimEnd | src/pages/DashboardPage.js:63 | the result is a prefix whose dropped suffix is all white space and which does not end with white space |
| JsStrings.TrimIsInnerSlice | src/pages/DashboardPage.js:63 | the trimmed string is a contiguous slice of the input with only white space outside it |
| JsStrings.TrimHasNoOuterWhitespace | src/pages/DashboardPage.js:63 | a non-empty trimmed string neither starts nor ends with white space |
| JsStrings.Trim | src/pages/DashboardPage.js:63 | `.trim()` never lengthens the string; `TrimIsInnerSlice`, `TrimHasNoOuterWhitespace` and `TrimEmptyIffBlank` characterise it |
| JsStrings.TrimEmptyIffBlank | src/pages/DashboardPage.js:88 | trimming yields the empty string exactly when the input is entirely white space |
| JsStrings.Contains | src/pages/DashboardPage.js:110 | `.includes` holds only of a substring no longer than the string; `ContainsTransitive` and `ClassifyAnalysisError` build on it |
| JsStrings.ContainsTransitive | src/pages/DashboardPage.js:110 | a substring of a substring is a substring |
| Api.DetailOr | src/pages/LoginPage.js:45 | the server's non-empty `detail` when the response carries one, the fallback text otherwise |
| Records.Option.GetOr | src/pages/DashboardPage.js:63 | the held value, or the default when there is none |

## Left out

- HTTP transport is not modelled: the backend base URL, cookies (`withCredentials`), request headers and the 120-second analysis timeout. The profile part of the upload stays a structured value rather than its `JSON.stringify` text.
- Asynchrony is not modelled. Each handler runs as one step, with its awaited calls supplied as outcomes. Interleavings of concurrent handlers, a component unmounting mid-request, and the parallelism of `Promise.all` in the dashboard's load are not captured.
- Dashboard.DashboardPage.LoadData: the whole load is one step; the requests being in flight at the same time is not modelled.
- Rendering is not modelled: markup, styling, animations, icons, charts and their data arrays, and the static copy. The page's visible state is modelled through predicates such as `Render`, `SubmitOffered`, `GenerateDisabled` and `OutputShown`.
- `parseFloat` and floating-point arithmetic are not modelled. Numeric inputs are `NaN` or an exact real.
- The browser `File` object is an opaque token. Resetting the file input through `document.getElementById` has no state in the model.
- Onboarding.OnboardingPage.HandleSubmit: the submit button exists only on step 4 (`src/pages/OnboardingPage.js:600-616`); the model lets the method run on any step. Likewise every other handler of the page is reachable on any step in the model, although each control exists only on its own step (name, roles and interests on step 1, skills on step 2, projects and their stack on step 3, education and the résumé on step 4: `src/pages/OnboardingPage.js:155`, `:289`, `:373`, `:482`).
- Dashboard.DashboardPage.GenerateContent: the three generation dialogs exist only inside the results view (`src/pages/DashboardPage.js:258-756`); the model lets the method run without an analysis.
- Dashboard.DashboardPage.RefreshMarketTemplate: its button exists only inside the results view, which is shown while an analysis is held (`src/pages/DashboardPage.js:196-326`); the model lets it run without an analysis.
- Route matching is exact string equality. The router's own matching, which ignores letter case and a trailing slash (so `/Dashboard` and `/dashboard/` reach the guarded page), is not modelled.
- Login.LoginPage.HandleSubmit: posts any form. The browser's own checks before submission (`required` fields, `type="email"`, `minLength={6}` on the password, `src/pages/LoginPage.js:85-122`) are not modelled.
- Keyboard handling is not modelled: the Enter-key handlers and the Add buttons call the same Add method. Per-keystroke draft updates assign the public draft fields directly.
- The fields of the analysis that are only displayed (scores, breakdowns, gaps, roadmap) are one opaque value. The level is an unbounded integer.
- Error fields holding JavaScript values that are not strings are not modelled. An absent field is the empty string.
- Toast durations and console logging are not modelled.
- `src/pages/LandingPage.js` (static markup with one signed-in branch) and `src/api/axiosInstance.js` (a token-setting helper the pages do not use) are not part of this model.
- The backend's own computations (profile storage, analysis, template generation, content generation) are not part of this model. They appear only through their outcomes.
