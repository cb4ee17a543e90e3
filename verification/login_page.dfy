/** The sign-in page: its own `roleToPath` and what `onSubmit` does with the outcome of `login`. */
module LoginPage {
  import opened Maybe
  import opened Roles
  import opened AuthContext
  import AppRoutes
  import AuthController
  import Crypto

  /** The page's error text and the `loading` flag after a submission has finished. */
  datatype PageState = PageState(error: string, loading: bool)

  /** A `navigate(to, { replace })` call. */
  datatype Navigation = Navigation(to: string, replace: bool)

  /** `roleToPath` of Login.js: like App.js for the six known roles, but `/` for anything else. */
  function RoleToPath(role: string): (p: string)
    ensures IsKnownRole(role) ==> p == AppRoutes.RoleToPath(Some(role))
    ensures !IsKnownRole(role) ==> p == AppRoutes.HomePath
  {
    if role == Exporter || role == Farmer then AppRoutes.FarmerPath
    else if role == QaAgency || role == Qa then AppRoutes.QaPath
    else if role == Importer || role == Buyer then AppRoutes.BuyerPath
    else AppRoutes.HomePath
  }

  /** The two `roleToPath` tables differ exactly on unknown roles (`/` here, `/login` in App.js). */
  lemma RoleToPathTablesDiffer(role: string)
    ensures RoleToPath(role) != AppRoutes.RoleToPath(Some(role)) <==> !IsKnownRole(role)
  {
  }

  /** The start of `onSubmit`: the previous error is cleared and the spinner turns on while `login` is pending. */
  function Start(st: PageState): (r: PageState)
    ensures r.loading && r.error == ""
  {
    PageState("", true)
  }

  /** The spinner is on only while the request is pending, and a stale error never survives a successful retry. */
  lemma SpinnerOnlyWhilePending(st: PageState, outcome: Result<LoginReturn>)
    ensures Start(st).loading && !Submit(outcome).0.loading
    ensures st.error != "" && outcome.Ok? ==> Submit(outcome).0.error != st.error
  {
  }

  /**
   * `onSubmit`: on success navigate (replacing history) to the path of the returned role; on
   * failure show the message and stay. Either way `loading` ends false.
   */
  function Submit(outcome: Result<LoginReturn>): (r: (PageState, Option<Navigation>))
    ensures !r.0.loading
    ensures outcome.Ok? <==> r.1.Some?
    ensures outcome.Ok? ==> r.0.error == "" && r.1.value == Navigation(RoleToPath(outcome.value.role), true)
    ensures outcome.Err? ==> r.0.error == outcome.message
  {
    match outcome
    case Ok(ret) => (PageState("", false), Some(Navigation(RoleToPath(ret.role), true)))
    case Err(message) => (PageState(message, false), None)
  }

  /** After a successful sign-in the page navigates to a route that renders for the new session, whatever the role. */
  lemma SignInLandsWithoutRedirect(s: Session, username: string, res: Response<AuthController.LoginOk>,
                                   decode: string -> Option<Crypto.Claims>)
    requires AuthContext.Login(s, username, res, decode).1.Ok?
    requires res.OkResponse? && res.data.token != ""
    ensures var (session, outcome) := AuthContext.Login(s, username, res, decode);
      AppRoutes.Visit(session, Submit(outcome).1.value.to) == AppRoutes.Render
  {
    var (session, outcome) := AuthContext.Login(s, username, res, decode);
    if IsKnownRole(outcome.value.role) {
      AppRoutes.RoleToPathAdmits(outcome.value.role);
    }
  }
}
