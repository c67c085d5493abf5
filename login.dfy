/**
 * The sign-in / sign-up page: one form whose mode selects the endpoint and
 * the payload, and post-authentication routing by whether a profile exists.
 */
module Login {
  import opened Records
  import opened Api
  import Session

  /** The form's field names, as the inputs' `name` attributes give them. */
  const EmailField := "email"
  const PasswordField := "password"
  const NameField := "name"

  /** The cleared form `{email: '', password: '', name: ''}`. */
  function EmptyForm(): (f: map<string, string>)
    ensures f.Keys == {EmailField, PasswordField, NameField}
    ensures forall k | k in f :: f[k] == ""
  {
    map[EmailField := "", PasswordField := "", NameField := ""]
  }

  /** The form holds all three fields the payloads read. */
  predicate FormComplete(form: map<string, string>)
  {
    EmailField in form && PasswordField in form && NameField in form
  }

  /** `{...formData, [name]: value}`: only the named field changes. */
  function ChangeField(form: map<string, string>, field: string, value: string): (r: map<string, string>)
    ensures r.Keys == form.Keys + {field}
    ensures r[field] == value
    ensures forall k | k in form && k != field :: r[k] == form[k]
    ensures FormComplete(form) ==> FormComplete(r)
  {
    form[field := value]
  }

  /** The endpoint for the current mode. */
  function AuthEndpoint(isLogin: bool): (path: string)
    ensures isLogin <==> path == LoginPath
    ensures !isLogin <==> path == RegisterPath
  {
    if isLogin then LoginPath else RegisterPath
  }

  /** The request body: credentials only when signing in, plus the name when registering. */
  function AuthPayload(isLogin: bool, form: map<string, string>): (body: map<string, string>)
    requires FormComplete(form)
    ensures isLogin ==> body.Keys == {EmailField, PasswordField}
    ensures !isLogin ==> body.Keys == {EmailField, PasswordField, NameField}
    ensures forall k | k in body :: body[k] == form[k]
  {
    if isLogin then map[EmailField := form[EmailField], PasswordField := form[PasswordField]]
    else map[EmailField := form[EmailField], PasswordField := form[PasswordField], NameField := form[NameField]]
  }

  /** The two payloads agree on the credentials; registering only adds the name. */
  lemma LoginPayloadIsRegisterWithoutName(form: map<string, string>)
    requires FormComplete(form)
    ensures AuthPayload(true, form) == AuthPayload(false, form) - {NameField}
    ensures AuthPayload(false, form) == AuthPayload(true, form)[NameField := form[NameField]]
  {
    var login, register := AuthPayload(true, form), AuthPayload(false, form);
    assert (register - {NameField}).Keys == login.Keys;
    assert login[NameField := form[NameField]].Keys == register.Keys;
  }

  /** The toast raised after the credentials are accepted. */
  function AuthSuccessText(isLogin: bool): string
  {
    if isLogin then "Logged in successfully!" else "Account created successfully!"
  }

  const AuthFailedText := "Authentication failed"

  class LoginPage {
    var isLogin: bool
    var loading: bool
    var showPassword: bool
    var formData: map<string, string>

    ghost predicate Valid()
      reads this
    {
      FormComplete(formData)
    }

    constructor ()
      ensures Valid()
      ensures isLogin && !loading && !showPassword && formData == EmptyForm()
    {
      isLogin := true;
      loading := false;
      showPassword := false;
      formData := EmptyForm();
    }

    /** `handleChange`: the input named `field` now reads `value`. */
    method HandleChange(field: string, value: string)
      requires Valid()
      modifies this`formData
      ensures Valid()
      ensures formData == ChangeField(old(formData), field, value)
    {
      formData := ChangeField(formData, field, value);
    }

    /** The mode toggle: flips sign-in / sign-up and clears every field. */
    method ToggleMode()
      modifies this`isLogin, this`formData
      ensures Valid()
      ensures isLogin == !old(isLogin) && formData == EmptyForm()
    {
      isLogin := !isLogin;
      formData := EmptyForm();
    }

    /** The eye button: shows or hides the password. */
    method TogglePasswordVisibility()
      modifies this`showPassword
      ensures showPassword == !old(showPassword)
    {
      showPassword := !showPassword;
    }

    /**
     * `handleSubmit`: post the credentials; on success hand the user to the
     * provider, then fetch the profile and go to the dashboard or to
     * onboarding. Any failure raises the server's `detail` or the generic
     * text and navigates nowhere.
     */
    method HandleSubmit(auth: Session.AuthProvider, credentials: Outcome<User>, profile: Outcome<Option<ProfileData>>)
      returns (requests: seq<Request>, toasts: seq<Toast>)
      requires Valid()
      modifies this`loading, auth`user, auth`location
      ensures !loading
      ensures |requests| >= 1
      ensures requests[0] == Request(Post, AuthEndpoint(isLogin), Json(AuthPayload(isLogin, formData)))
      ensures credentials.Failure? ==>
        && |requests| == 1
        && auth.user == old(auth.user) && auth.location == old(auth.location)
        && toasts == [ErrorToast(DetailOr(credentials.error, AuthFailedText))]
      ensures credentials.Success? ==>
        && requests == [requests[0], Request(Get, ProfilePath, NoBody)]
        && auth.user == Some(credentials.data)
        && |toasts| >= 1 && toasts[0] == SuccessToast(AuthSuccessText(isLogin))
      ensures credentials.Success? && profile.Success? ==>
        auth.location == Session.HomeFor(profile.data) && |toasts| == 1
      ensures credentials.Success? && profile.Failure? ==>
        && auth.location == old(auth.location)
        && toasts == [toasts[0], ErrorToast(DetailOr(profile.error, AuthFailedText))]
    {
      loading := true;
      var endpoint := AuthEndpoint(isLogin);
      var payload := AuthPayload(isLogin, formData);
      requests := [Request(Post, endpoint, Json(payload))];
      match credentials {
        case Success(u) =>
          auth.user := Some(u);
          toasts := [SuccessToast(AuthSuccessText(isLogin))];
          requests := requests + [Request(Get, ProfilePath, NoBody)];
          match profile {
            case Success(p) =>
              auth.location := Session.HomeFor(p);
            case Failure(e) =>
              toasts := toasts + [ErrorToast(DetailOr(e, AuthFailedText))];
          }
        case Failure(e) =>
          toasts := [ErrorToast(DetailOr(e, AuthFailedText))];
      }
      loading := false;
    }
  }

  /**
   * Signing in with accepted credentials when the profile request finds no
   * profile ends on the onboarding route, with the user handed to the
   * provider and exactly the credentials posted.
   */
  method SignInWithoutProfile(pathname: string, email: string, password: string, u: User)
    returns (location: string, user: Option<User>, login: Request)
    ensures location == OnboardingRoute && user == Some(u)
    ensures login == Request(Post, LoginPath, Json(map[EmailField := email, PasswordField := password]))
  {
    var auth := new Session.AuthProvider(pathname);
    var page := new LoginPage();
    page.HandleChange(EmailField, email);
    page.HandleChange(PasswordField, password);
    var requests, _ := page.HandleSubmit(auth, Success(u), Success(None));
    location, user, login := auth.location, auth.user, requests[0];
  }
}
