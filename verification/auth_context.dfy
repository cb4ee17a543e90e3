/**
 * The frontend's authentication context: the session state, `roleMap`, `authHeader`,
 * `logout`, `isAuthenticated`, and what `login`/`signup` do with the server's answer.
 */
module AuthContext {
  import opened Maybe
  import opened Roles
  import opened Crypto
  import opened Http
  import AuthController

  /** The `user` object the context keeps after login. */
  datatype SessionUser = SessionUser(id: nat, role: string, username: string)

  /** The provider's state; its mirroring into localStorage is not modelled. */
  datatype Session = Session(token: Option<string>, user: Option<SessionUser>)

  /** What `fetch` hands back: `res.ok` with the JSON body, or a failure body with an optional `error`. */
  datatype Response<+T> = OkResponse(data: T) | ErrorResponse(error: Option<string>)

  /** What `login` returns to its caller. */
  datatype LoginReturn = LoginReturn(token: string, role: string)

  /** The sign-up form's fields. */
  datatype SignupForm = SignupForm(
    username: string,
    password: string,
    email: string,
    fullName: string,
    role: string)

  const LoginFailed: string := "Login failed"
  const SignupFailed: string := "Signup failed"

  /** The message thrown when the token's payload cannot be read back (the real text comes from `atob`/`JSON.parse`). */
  const UndecodableToken: string := "Token payload could not be decoded"

  /** `isAuthenticated: Boolean(token)`: a missing or empty token is signed out. */
  predicate IsAuthenticated(s: Session)
  {
    s.token.Some? && s.token.value != ""
  }

  /** `roleMap`: translates the three interface roles to backend roles and leaves every other string alone. */
  function RoleMap(role: string): (r: string)
    ensures role == Farmer ==> r == Exporter
    ensures role == Qa ==> r == QaAgency
    ensures role == Buyer ==> r == Importer
    ensures role != Farmer && role != Qa && role != Buyer ==> r == role
  {
    if role == Farmer then Exporter
    else if role == Qa then QaAgency
    else if role == Buyer then Importer
    else role
  }

  /** `roleMap` sends exactly the six known role strings to backend roles, and fixes the backend names. */
  lemma RoleMapNormalises(role: string)
    ensures IsBackendRole(RoleMap(role)) <==> IsKnownRole(role)
    ensures IsBackendRole(role) ==> RoleMap(role) == role
    ensures RoleMap(RoleMap(role)) == RoleMap(role)
  {
  }

  /** `authHeader`: no header without a token, otherwise exactly `Authorization: Bearer <token>`. */
  function AuthHeader(token: Option<string>): (h: map<string, string>)
    ensures h == map[] <==> token.None? || token.value == ""
    ensures h != map[] ==> h.Keys == {"Authorization"} && h["Authorization"] == "Bearer " + token.value
  {
    if token.None? || token.value == "" then map[]
    else
      var h := map["Authorization" := "Bearer " + token.value];
      assert "Authorization" in h;
      h
  }

  /** The header is present exactly when the session counts as authenticated, and it gives the token back. */
  lemma AuthHeaderMatchesSession(s: Session)
    ensures AuthHeader(s.token) != map[] <==> IsAuthenticated(s)
    ensures IsAuthenticated(s) ==> AuthHeader(s.token)["Authorization"][|"Bearer "|..] == s.token.value
  {
  }

  /** `logout`: clears token and user. */
  function Logout(s: Session): (r: Session)
    ensures !IsAuthenticated(r) && r.user.None?
    ensures AuthHeader(r.token) == map[]
  {
    Session(None, None)
  }

  /** `data.error || fallback`: an absent or empty error falls back to the fixed text. */
  function ErrorText(error: Option<string>, fallback: string): (t: string)
    ensures fallback != "" ==> t != ""
    ensures error.Some? && error.value != "" ==> t == error.value
    ensures !(error.Some? && error.value != "") ==> t == fallback
  {
    if error.Some? && error.value != "" then error.value else fallback
  }

  /**
   * `login`: on a non-ok answer the state is untouched and the server's error (or "Login failed")
   * is thrown; otherwise the token is stored and the user's id and role come from its payload,
   * the username from the form.
   */
  function Login(s: Session, username: string, res: Response<AuthController.LoginOk>,
                 decode: string -> Option<Claims>): (r: (Session, Result<LoginReturn>))
    ensures res.ErrorResponse? ==> r == (s, Err(ErrorText(res.error, LoginFailed)))
    ensures r.1.Err? ==> r.0 == s
    ensures res.OkResponse? && decode(res.data.token).None? ==> r == (s, Err(UndecodableToken))
    ensures res.OkResponse? && decode(res.data.token).Some? ==> r.1.Ok?
    ensures r.1.Ok? ==>
      && res.OkResponse? && decode(res.data.token).Some?
      && var claims := decode(res.data.token).value;
      && r.0 == Session(Some(res.data.token), Some(SessionUser(claims.userId, claims.role, username)))
      && r.1.value == LoginReturn(res.data.token, claims.role)
  {
    match res
    case ErrorResponse(error) => (s, Err(ErrorText(error, LoginFailed)))
    case OkResponse(data) =>
      match decode(data.token)
      case None => (s, Err(UndecodableToken))
      case Some(claims) =>
        (Session(Some(data.token), Some(SessionUser(claims.userId, claims.role, username))),
         Ok(LoginReturn(data.token, claims.role)))
  }

  /** The body `signup` posts: the form with its role passed through `roleMap`. */
  function SignupRequest(form: SignupForm): (body: AuthController.SignupBody)
    ensures body.role == RoleMap(form.role)
    ensures body.username == form.username && body.password == form.password
    ensures body.email == form.email && body.fullName == form.fullName
  {
    AuthController.SignupBody(form.username, form.password, form.email, form.fullName, RoleMap(form.role))
  }

  /** `signup`: returns the server's data, or throws its error (or "Signup failed"). It leaves the session alone. */
  function Signup(res: Response<AuthController.SignupOk>): (r: Result<AuthController.SignupOk>)
    ensures r.Ok? <==> res.OkResponse?
    ensures r.Ok? ==> r.value == res.data
    ensures r.Err? ==> r.message == ErrorText(res.error, SignupFailed) && r.message != ""
  {
    match res
    case ErrorResponse(error) => Err(ErrorText(error, SignupFailed))
    case OkResponse(data) => Ok(data)
  }

  /** What the browser receives for a handler's reply (every success status of these handlers is 2xx). */
  function FromReply<T>(reply: Reply<T>): (res: Response<T>)
    ensures res.OkResponse? <==> reply.Success?
    ensures reply.Success? ==> res.data == reply.value
    ensures reply.Failure? ==> res.error == Some(reply.error)
  {
    match reply
    case Success(_, v) => OkResponse(v)
    case Failure(_, e) => ErrorResponse(Some(e))
  }

  /** A successful login followed by logout leaves a signed-out session with no header. */
  lemma LoginThenLogout(s: Session, username: string, res: Response<AuthController.LoginOk>, decode: string -> Option<Claims>)
    requires Login(s, username, res, decode).1.Ok?
    requires res.OkResponse? && res.data.token != ""
    ensures IsAuthenticated(Login(s, username, res, decode).0)
    ensures !IsAuthenticated(Logout(Login(s, username, res, decode).0))
  {
  }
}
