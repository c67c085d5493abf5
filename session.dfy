/**
 * The session resolver and route guard of the application shell: the
 * `AuthProvider` component, its loading gate, `ProtectedRoute` and the route
 * table. The router's current pathname is kept by the provider as
 * `location`; `navigate(p)` anywhere in the application sets it to `p`.
 */
module Session {
  import opened Records
  import opened Api

  /** What a route renders. */
  datatype Page =
    | LandingPage
    | LoginPage
    | OnboardingPage
    | DashboardPage
    | Redirect(to: string)
    | NoMatch

  /** What the provider renders: the spinner while loading, else the routes. */
  datatype Screen = Spinner | Routes(page: Page)

  /** `ProtectedRoute`: the child when there is a user, else a redirect to the landing route. */
  function ProtectedRoute(user: Option<User>, child: Page): (r: Page)
    ensures user.None? ==> r == Redirect(LandingRoute)
    ensures user.Some? ==> r == child
  {
    if user.None? then Redirect(LandingRoute) else child
  }

  /** The `<Routes>` table: two open pages and two guarded ones. */
  function RouteElement(path: string, user: Option<User>): (r: Page)
    ensures r == OnboardingPage ==> path == OnboardingRoute && user.Some?
    ensures r == DashboardPage ==> path == DashboardRoute && user.Some?
    ensures path == OnboardingRoute && user.Some? ==> r == OnboardingPage
    ensures path == DashboardRoute && user.Some? ==> r == DashboardPage
    ensures (path == OnboardingRoute || path == DashboardRoute) && user.None? ==> r == Redirect(LandingRoute)
    ensures path == LandingRoute ==> r == LandingPage
    ensures path == LoginRoute ==> r == LoginPage
  {
    if path == LandingRoute then LandingPage
    else if path == LoginRoute then LoginPage
    else if path == OnboardingRoute then ProtectedRoute(user, OnboardingPage)
    else if path == DashboardRoute then ProtectedRoute(user, DashboardPage)
    else NoMatch
  }

  /** Where the session check sends a signed-in user found on the landing route. */
  function HomeFor(profile: Option<ProfileData>): (r: string)
    ensures r == DashboardRoute <==> profile.Some?
    ensures r == OnboardingRoute <==> profile.None?
  {
    if profile.Some? then DashboardRoute else OnboardingRoute
  }

  class AuthProvider {
    var user: Option<User>
    var loading: bool
    /** The router's current pathname. */
    var location: string

    /** Mounting at `pathname`: no user yet and the loading gate closed. */
    constructor (pathname: string)
      ensures user == None && loading && location == pathname
    {
      user := None;
      loading := true;
      location := pathname;
    }

    /** The provider's render: nothing but the spinner while `loading`. */
    function Render(): (s: Screen)
      reads this
      ensures loading <==> s == Spinner
      ensures !loading ==> s == Routes(RouteElement(location, user))
    {
      if loading then Spinner else Routes(RouteElement(location, user))
    }

    /**
     * `checkExistingSession`: ask who is signed in; on the landing route also
     * fetch the profile and move on. Any failure, including a failed profile
     * fetch after a good `/auth/me`, leaves the visitor anonymous.
     */
    method CheckExistingSession(me: Outcome<User>, profile: Outcome<Option<ProfileData>>)
      returns (requests: seq<Request>)
      modifies this`user, this`loading, this`location
      ensures !loading
      ensures |requests| >= 1 && requests[0] == Request(Get, MePath, NoBody)
      ensures me.Failure? ==> user == None && location == old(location) && |requests| == 1
      ensures me.Success? && old(location) != LandingRoute ==>
        user == Some(me.data) && location == old(location) && |requests| == 1
      ensures me.Success? && old(location) == LandingRoute ==>
        requests == [Request(Get, MePath, NoBody), Request(Get, ProfilePath, NoBody)]
      ensures me.Success? && old(location) == LandingRoute && profile.Success? ==>
        user == Some(me.data) && location == HomeFor(profile.data)
      ensures me.Success? && old(location) == LandingRoute && profile.Failure? ==>
        user == None && location == old(location)
    {
      requests := [Request(Get, MePath, NoBody)];
      match me {
        case Success(identity) =>
          user := Some(identity);
          if location == LandingRoute {
            requests := requests + [Request(Get, ProfilePath, NoBody)];
            match profile {
              case Success(p) => location := HomeFor(p);
              case Failure(_) => user := None;
            }
          }
        case Failure(_) =>
          user := None;
      }
      loading := false;
    }

    /**
     * `logout`: only a successful request clears the user and returns to the
     * landing route; a failure is logged to the console and changes nothing.
     */
    method Logout(outcome: Outcome<()>) returns (request: Request, toast: Option<Toast>)
      modifies this`user, this`location
      ensures request == Request(Post, LogoutPath, NoBody)
      ensures loading == old(loading)
      ensures outcome.Success? ==>
        user == None && location == LandingRoute && toast == Some(SuccessToast("Logged out successfully"))
      ensures outcome.Failure? ==>
        user == old(user) && location == old(location) && toast == None
    {
      request := Request(Post, LogoutPath, NoBody);
      toast := None;
      if outcome.Success? {
        user := None;
        location := LandingRoute;
        toast := Some(SuccessToast("Logged out successfully"));
      }
    }
  }

  /**
   * Whatever the session check answers, the guarded pages are never shown to
   * an anonymous visitor, a signed-in visitor who opened a guarded page gets
   * that page, and once the check has run the routes are rendered.
   */
  method SessionThenRender(pathname: string, me: Outcome<User>, profile: Outcome<Option<ProfileData>>)
    returns (screen: Screen)
    ensures screen.Routes?
    ensures screen.page == OnboardingPage || screen.page == DashboardPage ==> me.Success?
    ensures me.Failure? && (pathname == OnboardingRoute || pathname == DashboardRoute) ==>
      screen.page == Redirect(LandingRoute)
    ensures me.Success? && (pathname == OnboardingRoute || pathname == DashboardRoute) ==>
      screen.page == RouteElement(pathname, Some(me.data))
  {
    var auth := new AuthProvider(pathname);
    var _ := auth.CheckExistingSession(me, profile);
    screen := auth.Render();
  }
}
