/**
 * The four-step onboarding wizard. It accumulates a draft profile in
 * `formData`: each of skills, projects and education is admitted from a
 * draft entry that must pass its validator, and roles, interests and a
 * project's tech stack are tag lists that admit any non-empty text. The
 * final submit posts the profile and the optional resume as one multipart
 * request.
 */
module Onboarding {
  import opened Records
  import opened Api
  import opened Collections
  import Session

  // ---------------------------------------------------------------------------
  // Validators and defaults

  /** What the skill validator demands: a name and a positive number of years. */
  predicate SkillAdmissible(s: Skill)
  {
    s.name != "" && s.years.Num? && s.years.value > 0.0
  }

  /** What the project validator demands: a title and a description. */
  predicate ProjectAdmissible(p: Project)
  {
    p.title != "" && p.description != ""
  }

  /** What the education validator demands: a degree and an institution. */
  predicate EducationAdmissible(e: Education)
  {
    e.degree != "" && e.institution != ""
  }

  /**
   * `addSkill`'s checks in order: the name, then `!years || years <= 0`.
   * `None` admits the draft; `Some(m)` rejects it with the toast `m`.
   * The level and the last-used date are not checked.
   */
  function SkillError(s: Skill): (r: Option<string>)
    ensures r.None? <==> SkillAdmissible(s)
    ensures s.name == "" ==> r == Some("Please enter a skill name")
    ensures s.name != "" && !SkillAdmissible(s) ==>
      r == Some("Please enter years of experience (greater than 0)")
  {
    if s.name == "" then Some("Please enter a skill name")
    else if !s.years.Truthy() || s.years.value <= 0.0 then
      Some("Please enter years of experience (greater than 0)")
    else None
  }

  /** `addProject`'s checks in order: the title, then the description; the stack is not checked. */
  function ProjectError(p: Project): (r: Option<string>)
    ensures r.None? <==> ProjectAdmissible(p)
    ensures p.title == "" ==> r == Some("Please enter a project title")
    ensures p.title != "" && p.description == "" ==> r == Some("Please enter a project description")
  {
    if p.title == "" then Some("Please enter a project title")
    else if p.description == "" then Some("Please enter a project description")
    else None
  }

  /** `addEducation`'s checks in order: the degree, then the institution; the year is not checked. */
  function EducationError(e: Education): (r: Option<string>)
    ensures r.None? <==> EducationAdmissible(e)
    ensures e.degree == "" ==> r == Some("Please enter a degree")
    ensures e.degree != "" && e.institution == "" ==> r == Some("Please enter an institution")
  {
    if e.degree == "" then Some("Please enter a degree")
    else if e.institution == "" then Some("Please enter an institution")
    else None
  }

  /** The draft entries a successful add resets to. */
  const EmptySkill := Skill("", Num(0.0), "", Num(5.0))
  const EmptyProject := Project("", "", [])
  const EmptyEducation := Education("", "", "")

  /** Every tag in the list is non-empty text. */
  predicate NoEmptyTags(tags: seq<string>)
  {
    forall i | 0 <= i < |tags| :: tags[i] != ""
  }

  /**
   * What the wizard's handlers guarantee of the accumulated profile: every
   * entry passed its validator and no tag is empty.
   */
  predicate WellFormed(f: ProfileForm)
  {
    && (forall i | 0 <= i < |f.skills| :: SkillAdmissible(f.skills[i]))
    && (forall i | 0 <= i < |f.projects| :: ProjectAdmissible(f.projects[i]) && NoEmptyTags(f.projects[i].stack))
    && (forall i | 0 <= i < |f.education| :: EducationAdmissible(f.education[i]))
    && NoEmptyTags(f.roles)
    && NoEmptyTags(f.interests)
  }

  // ---------------------------------------------------------------------------
  // Step navigation

  /** Previous: `Math.max(1, step - 1)`. */
  function PreviousStep(step: int): (r: int)
    ensures r >= 1
    ensures step > 1 ==> r == step - 1
    ensures step <= 1 ==> r == 1
  {
    if step - 1 > 1 then step - 1 else 1
  }

  /** Next: `Math.min(4, step + 1)`. */
  function NextStep(step: int): (r: int)
    ensures r <= 4
    ensures step < 4 ==> r == step + 1
    ensures step >= 4 ==> r == 4
  {
    if step + 1 < 4 then step + 1 else 4
  }

  datatype StepButton = Previous | Next

  /** The step reached from `step` by pressing the buttons in order. */
  function Walk(step: int, presses: seq<StepButton>): int
    decreases |presses|
  {
    if presses == [] then step
    else Walk(if presses[0] == Previous then PreviousStep(step) else NextStep(step), presses[1..])
  }

  /** No sequence of Previous/Next presses leaves the steps 1 to 4. */
  lemma {:induction false} WalkStaysInRange(step: int, presses: seq<StepButton>)
    requires 1 <= step <= 4
    ensures 1 <= Walk(step, presses) <= 4
    decreases |presses|
  {
    if presses != [] {
      var next := if presses[0] == Previous then PreviousStep(step) else NextStep(step);
      WalkStaysInRange(next, presses[1..]);
    }
  }

  /** Three presses of Next from any step reach the last step, where submit is offered. */
  lemma {:induction false} ThreeNextsReachLastStep(step: int)
    requires 1 <= step <= 4
    ensures Walk(step, [Next, Next, Next]) == 4
  {
    assert [Next, Next, Next][1..] == [Next, Next];
    assert [Next, Next][1..] == [Next];
    assert [Next][1..] == [];
  }

  // ---------------------------------------------------------------------------
  // Submission

  /** `const { resume_file, ...profileData } = formData`. */
  function WithoutFile(f: ProfileForm): (p: ProfileData)
    ensures p.name == f.name && p.roles == f.roles && p.interests == f.interests
    ensures p.skills == f.skills && p.experienceYears == f.experienceYears
    ensures p.projects == f.projects && p.education == f.education && p.location == f.location
  {
    ProfileData(f.name, f.roles, f.interests, f.skills, f.experienceYears, f.projects, f.education, f.location)
  }

  /** The multipart `POST /profile`: always the profile part, the file part only when a file was chosen. */
  function SubmitRequest(f: ProfileForm): (r: Request)
    ensures r.verb == Post && r.path == ProfilePath && r.body.Multipart?
    ensures "profile_data" in r.body.parts && r.body.parts["profile_data"] == ProfilePart(WithoutFile(f))
    ensures "resume_file" in r.body.parts <==> f.resumeFile.Some?
    ensures f.resumeFile.Some? ==> r.body.parts["resume_file"] == FilePart(f.resumeFile.value)
    ensures r.body.parts.Keys <= {"profile_data", "resume_file"}
  {
    var parts := map["profile_data" := ProfilePart(WithoutFile(f))];
    Request(Post, ProfilePath, Multipart(
      match f.resumeFile
      case Some(file) => parts["resume_file" := FilePart(file)]
      case None => parts))
  }

  /** Removing the file part loses nothing of the profile: the profile part is independent of the file. */
  lemma SubmitProfileIgnoresFile(f: ProfileForm, file: Option<FileToken>)
    ensures SubmitRequest(f.(resumeFile := file)).body.parts["profile_data"]
         == SubmitRequest(f).body.parts["profile_data"]
  {
  }

  const NoSkillsText := "Please add at least one skill"
  const ProfileCreatedText := "Profile created successfully!"
  const ProfileFailedText := "Failed to create profile"

  // ---------------------------------------------------------------------------
  // The page

  class OnboardingPage {
    var loading: bool
    var step: int
    var formData: ProfileForm
    var currentSkill: Skill
    var currentProject: Project
    var currentEducation: Education
    var currentRole: string
    var currentInterest: string
    var currentStackItem: string

    /** The wizard's invariant: a step in range and a well-formed accumulated profile. */
    ghost predicate Valid()
      reads this
    {
      1 <= step <= 4 && WellFormed(formData) && NoEmptyTags(currentProject.stack)
    }

    /** Mounting: step 1, empty lists, the name prefilled from the signed-in user. */
    constructor (user: Option<User>)
      ensures Valid()
      ensures step == 1 && !loading
      ensures formData == ProfileForm(
        if user.Some? then user.value.name else "", [], [], [], Num(0.0), [], [], "", None)
      ensures currentSkill == EmptySkill && currentProject == EmptyProject && currentEducation == EmptyEducation
      ensures currentRole == "" && currentInterest == "" && currentStackItem == ""
    {
      loading := false;
      step := 1;
      formData := ProfileForm(
        if user.Some? then user.value.name else "", [], [], [], Num(0.0), [], [], "", None);
      currentSkill := EmptySkill;
      currentProject := EmptyProject;
      currentEducation := EmptyEducation;
      currentRole := "";
      currentInterest := "";
      currentStackItem := "";
    }

    // Step 1 inputs

    method SetName(name: string)
      requires Valid()
      modifies this`formData
      ensures Valid() && formData == old(formData).(name := name)
    {
      formData := formData.(name := name);
    }

    method SetExperienceYears(years: Number)
      requires Valid()
      modifies this`formData
      ensures Valid() && formData == old(formData).(experienceYears := years)
    {
      formData := formData.(experienceYears := years);
    }

    method SetLocation(location: string)
      requires Valid()
      modifies this`formData
      ensures Valid() && formData == old(formData).(location := location)
    {
      formData := formData.(location := location);
    }

    /** The role tag input (Enter key or plus button): append the text if non-empty, then clear it. */
    method AddRole()
      requires Valid()
      modifies this`formData, this`currentRole
      ensures Valid() && currentRole == ""
      ensures formData == old(formData).(roles := ApplyEdit(old(formData.roles), Append(old(currentRole), old(currentRole) != "")))
    {
      if currentRole != "" {
        formData := formData.(roles := formData.roles + [currentRole]);
        currentRole := "";
      }
    }

    /** The interest tag input (Enter key or plus button). */
    method AddInterest()
      requires Valid()
      modifies this`formData, this`currentInterest
      ensures Valid() && currentInterest == ""
      ensures formData == old(formData).(interests := ApplyEdit(old(formData.interests), Append(old(currentInterest), old(currentInterest) != "")))
    {
      if currentInterest != "" {
        formData := formData.(interests := formData.interests + [currentInterest]);
        currentInterest := "";
      }
    }

    method RemoveRole(idx: int)
      requires Valid()
      modifies this`formData
      ensures Valid()
      ensures formData == old(formData).(roles := RemoveAt(old(formData.roles), idx))
    {
      RemoveAtKeepsElements(formData.roles, idx);
      formData := formData.(roles := RemoveAt(formData.roles, idx));
    }

    method RemoveInterest(idx: int)
      requires Valid()
      modifies this`formData
      ensures Valid()
      ensures formData == old(formData).(interests := RemoveAt(old(formData.interests), idx))
    {
      RemoveAtKeepsElements(formData.interests, idx);
      formData := formData.(interests := RemoveAt(formData.interests, idx));
    }

    // Step 2: skills

    /**
     * `addSkill`: a draft that fails validation raises its message and
     * changes nothing; an admitted draft is appended as a copy and the draft
     * is reset to the defaults.
     */
    method AddSkill() returns (toast: Toast)
      requires Valid()
      modifies this`formData, this`currentSkill
      ensures Valid()
      ensures formData == old(formData).(skills := ApplyEdit(old(formData.skills), Append(old(currentSkill), SkillError(old(currentSkill)).None?)))
      ensures SkillError(old(currentSkill)).Some? ==>
        currentSkill == old(currentSkill) && toast == ErrorToast(SkillError(old(currentSkill)).value)
      ensures SkillError(old(currentSkill)).None? ==>
        currentSkill == EmptySkill && toast == SuccessToast("Skill added successfully")
    {
      var error := SkillError(currentSkill);
      if error.Some? {
        return ErrorToast(error.value);
      }
      formData := formData.(skills := formData.skills + [currentSkill]);
      currentSkill := EmptySkill;
      toast := SuccessToast("Skill added successfully");
    }

    method RemoveSkill(idx: int)
      requires Valid()
      modifies this`formData
      ensures Valid()
      ensures formData == old(formData).(skills := RemoveAt(old(formData.skills), idx))
    {
      RemoveAtKeepsElements(formData.skills, idx);
      formData := formData.(skills := RemoveAt(formData.skills, idx));
    }

    // Step 3: projects

    /** The tech-stack tag input of the project draft (Enter key or plus button). */
    method AddStackItem()
      requires Valid()
      modifies this`currentProject, this`currentStackItem
      ensures Valid() && currentStackItem == ""
      ensures currentProject == old(currentProject).(stack := ApplyEdit(old(currentProject.stack), Append(old(currentStackItem), old(currentStackItem) != "")))
    {
      if currentStackItem != "" {
        currentProject := currentProject.(stack := currentProject.stack + [currentStackItem]);
        currentStackItem := "";
      }
    }

    method RemoveStackItem(idx: int)
      requires Valid()
      modifies this`currentProject
      ensures Valid()
      ensures currentProject == old(currentProject).(stack := RemoveAt(old(currentProject.stack), idx))
    {
      RemoveAtKeepsElements(currentProject.stack, idx);
      currentProject := currentProject.(stack := RemoveAt(currentProject.stack, idx));
    }

    /** `addProject`: validate title and description; append the draft with its stack; reset the draft. */
    method AddProject() returns (toast: Toast)
      requires Valid()
      modifies this`formData, this`currentProject
      ensures Valid()
      ensures formData == old(formData).(projects := ApplyEdit(old(formData.projects), Append(old(currentProject), ProjectError(old(currentProject)).None?)))
      ensures ProjectError(old(currentProject)).Some? ==>
        currentProject == old(currentProject) && toast == ErrorToast(ProjectError(old(currentProject)).value)
      ensures ProjectError(old(currentProject)).None? ==>
        currentProject == EmptyProject && toast == SuccessToast("Project added successfully")
    {
      var error := ProjectError(currentProject);
      if error.Some? {
        return ErrorToast(error.value);
      }
      formData := formData.(projects := formData.projects + [currentProject]);
      currentProject := EmptyProject;
      toast := SuccessToast("Project added successfully");
    }

    method RemoveProject(idx: int)
      requires Valid()
      modifies this`formData
      ensures Valid()
      ensures formData == old(formData).(projects := RemoveAt(old(formData.projects), idx))
    {
      RemoveAtKeepsElements(formData.projects, idx);
      formData := formData.(projects := RemoveAt(formData.projects, idx));
    }

    // Step 4: education and resume

    /** `addEducation`: validate degree and institution (not the year); append; reset the draft. */
    method AddEducation() returns (toast: Toast)
      requires Valid()
      modifies this`formData, this`currentEducation
      ensures Valid()
      ensures formData == old(formData).(education := ApplyEdit(old(formData.education), Append(old(currentEducation), EducationError(old(currentEducation)).None?)))
      ensures EducationError(old(currentEducation)).Some? ==>
        currentEducation == old(currentEducation) && toast == ErrorToast(EducationError(old(currentEducation)).value)
      ensures EducationError(old(currentEducation)).None? ==>
        currentEducation == EmptyEducation && toast == SuccessToast("Education added successfully")
    {
      var error := EducationError(currentEducation);
      if error.Some? {
        return ErrorToast(error.value);
      }
      formData := formData.(education := formData.education + [currentEducation]);
      currentEducation := EmptyEducation;
      toast := SuccessToast("Education added successfully");
    }

    method RemoveEducation(idx: int)
      requires Valid()
      modifies this`formData
      ensures Valid()
      ensures formData == old(formData).(education := RemoveAt(old(formData.education), idx))
    {
      RemoveAtKeepsElements(formData.education, idx);
      formData := formData.(education := RemoveAt(formData.education, idx));
    }

    /** The file picker: a chosen file replaces the selection; cancelling the dialog changes nothing. */
    method SelectResume(file: Option<FileToken>) returns (toast: Option<Toast>)
      requires Valid()
      modifies this`formData
      ensures Valid()
      ensures file.Some? ==>
        formData == old(formData).(resumeFile := file)
        && toast == Some(SuccessToast("File \"" + file.value.name + "\" selected"))
      ensures file.None? ==> formData == old(formData) && toast == None
    {
      toast := None;
      if file.Some? {
        formData := formData.(resumeFile := file);
        toast := Some(SuccessToast("File \"" + file.value.name + "\" selected"));
      }
    }

    /** The remove-file button. */
    method ClearResume()
      requires Valid()
      modifies this`formData
      ensures Valid() && formData == old(formData).(resumeFile := None)
    {
      formData := formData.(resumeFile := None);
    }

    // Navigation

    /** Previous is disabled on the first step, exactly where pressing it would not move. */
    predicate PreviousDisabled()
      reads this
      requires Valid()
      ensures PreviousDisabled() <==> PreviousStep(step) == step
    {
      step == 1
    }

    /** Next is shown below the last step; from there on the submit button replaces it. */
    predicate SubmitOffered()
      reads this
      requires Valid()
      ensures SubmitOffered() <==> step == 4
    {
      !(step < 4)
    }

    method PreviousPressed()
      requires Valid()
      modifies this`step
      ensures Valid() && step == PreviousStep(old(step))
    {
      step := PreviousStep(step);
    }

    method NextPressed()
      requires Valid()
      modifies this`step
      ensures Valid() && step == NextStep(old(step))
    {
      step := NextStep(step);
    }

    /**
     * `handleSubmit`: without skills nothing is sent and nothing changes.
     * Otherwise the profile is posted; success leads to the dashboard,
     * failure keeps the draft and raises the server's `detail` or the
     * generic text.
     */
    method HandleSubmit(auth: Session.AuthProvider, outcome: Outcome<()>)
      returns (request: Option<Request>, toast: Toast)
      requires Valid()
      modifies this`loading, auth`location
      ensures Valid()
      ensures formData.skills == [] ==>
        && request == None && toast == ErrorToast(NoSkillsText)
        && loading == old(loading) && auth.location == old(auth.location)
      ensures formData.skills != [] ==> request == Some(SubmitRequest(formData)) && !loading
      ensures formData.skills != [] && outcome.Success? ==>
        auth.location == DashboardRoute && toast == SuccessToast(ProfileCreatedText)
      ensures formData.skills != [] && outcome.Failure? ==>
        auth.location == old(auth.location) && toast == ErrorToast(DetailOr(outcome.error, ProfileFailedText))
    {
      if |formData.skills| == 0 {
        return None, ErrorToast(NoSkillsText);
      }
      loading := true;
      request := Some(SubmitRequest(formData));
      match outcome {
        case Success(_) =>
          toast := SuccessToast(ProfileCreatedText);
          auth.location := DashboardRoute;
        case Failure(e) =>
          toast := ErrorToast(DetailOr(e, ProfileFailedText));
      }
      loading := false;
    }
  }

  /** A submitted profile only ever carries validated entries. */
  lemma SubmittedProfileIsWellFormed(f: ProfileForm)
    requires WellFormed(f)
    ensures forall i | 0 <= i < |SubmitRequest(f).body.parts["profile_data"].profile.skills| ::
      SkillAdmissible(SubmitRequest(f).body.parts["profile_data"].profile.skills[i])
  {
  }
}
