/** The sign-up page: its default form, the signup-then-login sequence, and where it sends the new user. */
module SignupPage {
  import opened Maybe
  import opened Roles
  import opened AuthContext
  import AuthController
  import AppRoutes
  import LoginPage

  /** The form's starting values: every field empty and the role select on "farmer". */
  const DefaultForm: SignupForm := SignupForm("", "", "", "", Farmer)

  /** The values of the role select. */
  const RoleOptions: seq<string> := [Farmer, Qa, Buyer]

  /** The preselected role is one of the select's options, is stored as exporter, and leads to the farmer portal. */
  lemma DefaultRoleIsFarmer()
    ensures DefaultForm.role in RoleOptions
    ensures RoleMap(DefaultForm.role) == Exporter
    ensures RedirectFor(DefaultForm.role) == AppRoutes.FarmerPath
  {
  }

  /** A call the page makes to the context, in order. */
  datatype Call = SignupCall(body: AuthController.SignupBody) | LoginCall(username: string, password: string)

  /** The calls made, the page's final error/loading state, and the navigation, if any. */
  datatype Trace = Trace(calls: seq<Call>, state: LoginPage.PageState, nav: Option<LoginPage.Navigation>)

  /** The redirect after sign-up: by the mapped form role, with every role that is neither exporter nor QA sent to /buyer. */
  function RedirectFor(role: string): (p: string)
    ensures p == AppRoutes.FarmerPath || p == AppRoutes.QaPath || p == AppRoutes.BuyerPath
  {
    var mapped := RoleMap(role);
    if mapped == Exporter then AppRoutes.FarmerPath
    else if mapped == QaAgency then AppRoutes.QaPath
    else AppRoutes.BuyerPath
  }

  /** For every known role, in particular the three options, the redirect is the sign-in page's path for the mapped role. */
  lemma RedirectMatchesLogin(role: string)
    ensures IsKnownRole(role) ==> RedirectFor(role) == LoginPage.RoleToPath(RoleMap(role))
    ensures !IsKnownRole(role) ==> RedirectFor(role) == AppRoutes.BuyerPath
  {
  }

  /** The redirect is a portal whose guard admits the role the backend stored, `roleMap(role)`, for each option. */
  lemma RedirectAdmitsStoredRole(role: string)
    requires role in RoleOptions
    ensures AppRoutes.AllowedRoles(RedirectFor(role)).Some?
    ensures RoleMap(role) in AppRoutes.AllowedRoles(RedirectFor(role)).value
  {
  }

  /**
   * `onSubmit`: calls `signup` with the form, then `login` with the same username and
   * password, then navigates; a failure in either step shows its message and stops there.
   */
  function Submit(form: SignupForm, signupOutcome: Result<AuthController.SignupOk>,
                  loginOutcome: Result<LoginReturn>): (t: Trace)
    ensures |t.calls| >= 1 && t.calls[0] == SignupCall(SignupRequest(form))
    ensures signupOutcome.Err? ==> |t.calls| == 1 && t.state.error == signupOutcome.message
    ensures signupOutcome.Ok? ==> |t.calls| == 2 && t.calls[1] == LoginCall(form.username, form.password)
    ensures signupOutcome.Ok? && loginOutcome.Err? ==> t.state.error == loginOutcome.message
    ensures t.nav.Some? <==> signupOutcome.Ok? && loginOutcome.Ok?
    ensures t.nav.Some? ==> t.nav.value == LoginPage.Navigation(RedirectFor(form.role), true) && t.state.error == ""
    ensures !t.state.loading
  {
    var first := [SignupCall(SignupRequest(form))];
    match signupOutcome
    case Err(message) => Trace(first, LoginPage.PageState(message, false), None)
    case Ok(_) =>
      var calls := first + [LoginCall(form.username, form.password)];
      match loginOutcome
      case Err(message) => Trace(calls, LoginPage.PageState(message, false), None)
      case Ok(_) => Trace(calls, LoginPage.PageState("", false), Some(LoginPage.Navigation(RedirectFor(form.role), true)))
  }
}
