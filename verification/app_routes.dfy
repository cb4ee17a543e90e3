/** The route table of `App.js`: `ProtectedRoute`, its `roleToPath`, and each route's `allowedRoles`. */
module AppRoutes {
  import opened Maybe
  import opened Roles
  import opened AuthContext
  import Text

  const HomePath: string := "/"
  const LoginPath: string := "/login"
  const SignupPath: string := "/signup"
  const ScannerPath: string := "/scanner"
  const FarmerPath: string := "/farmer"
  const QaPath: string := "/qa"
  const BuyerPath: string := "/buyer"

  /** What a route shows: its element, or a `<Navigate replace>` to another path. */
  datatype Outcome = Render | Redirect(to: string)

  /** `user?.role`: absent when there is no user object. */
  function UserRole(s: Session): Option<string>
  {
    if s.user.Some? then Some(s.user.value.role) else None
  }

  /** `roleToPath` of App.js: both spellings of a role share a portal; anything else goes to the login page. */
  function RoleToPath(role: Option<string>): (p: string)
    ensures role.Some? && (role.value == Exporter || role.value == Farmer) <==> p == FarmerPath
    ensures role.Some? && (role.value == QaAgency || role.value == Qa) <==> p == QaPath
    ensures role.Some? && (role.value == Importer || role.value == Buyer) <==> p == BuyerPath
    ensures role.None? || !IsKnownRole(role.value) <==> p == LoginPath
  {
    match role
    case None => LoginPath
    case Some(r) =>
      if r == Exporter || r == Farmer then FarmerPath
      else if r == QaAgency || r == Qa then QaPath
      else if r == Importer || r == Buyer then BuyerPath
      else LoginPath
  }

  /** The `allowedRoles` of each protected route; None for a route without a guard. */
  function AllowedRoles(path: string): (r: Option<seq<string>>)
    ensures r.Some? <==> path == FarmerPath || path == QaPath || path == BuyerPath
    ensures r.Some? ==> |r.value| == 2 && forall role :: role in r.value ==> IsKnownRole(role)
  {
    if path == FarmerPath then Some([Exporter, Farmer])
    else if path == QaPath then Some([QaAgency, Qa])
    else if path == BuyerPath then Some([Importer, Buyer])
    else None
  }

  /**
   * `ProtectedRoute`: a signed-out visitor goes to /login whatever the guard; a signed-in user
   * whose role the guard does not list goes to that role's path; otherwise the page renders.
   */
  function ProtectedRoute(s: Session, allowedRoles: Option<seq<string>>): (r: Outcome)
    ensures !IsAuthenticated(s) ==> r == Redirect(LoginPath)
    ensures IsAuthenticated(s) && allowedRoles.None? ==> r == Render
    ensures IsAuthenticated(s) && allowedRoles.Some? ==>
      (r == Render <==> UserRole(s).Some? && UserRole(s).value in allowedRoles.value)
    ensures IsAuthenticated(s) && r.Redirect? ==> r.to == RoleToPath(UserRole(s))
  {
    if !IsAuthenticated(s) then Redirect(LoginPath)
    else if allowedRoles.Some? && !(UserRole(s).Some? && UserRole(s).value in allowedRoles.value) then
      Redirect(RoleToPath(UserRole(s)))
    else Render
  }

  /** Drops the slashes at the end of a pathname, keeping the root "/" itself. */
  function StripTrailingSlashes(path: string): (r: string)
    ensures |r| <= |path| && r == path[..|r|]
    ensures forall i :: |r| <= i < |path| ==> path[i] == '/'
    ensures |r| > 1 ==> r[|r| - 1] != '/'
    decreases |path|
  {
    if |path| > 1 && path[|path| - 1] == '/' then StripTrailingSlashes(path[..|path| - 1]) else path
  }

  /**
   * The form of a pathname the route patterns are compared with: a `<Route>` without
   * `caseSensitive` matches regardless of letter case and accepts trailing slashes.
   */
  function RoutePath(path: string): string
  {
    StripTrailingSlashes(Text.Lower(path))
  }

  /** The seven route patterns are already in that form. */
  lemma PatternsAreCanonical()
    ensures RoutePath(HomePath) == HomePath && RoutePath(LoginPath) == LoginPath
    ensures RoutePath(SignupPath) == SignupPath && RoutePath(ScannerPath) == ScannerPath
    ensures RoutePath(FarmerPath) == FarmerPath && RoutePath(QaPath) == QaPath
    ensures RoutePath(BuyerPath) == BuyerPath
  {
    assert Text.Lower(HomePath) == HomePath;
    assert Text.Lower(LoginPath) == LoginPath;
    assert Text.Lower(SignupPath) == SignupPath;
    assert Text.Lower(ScannerPath) == ScannerPath;
    assert Text.Lower(FarmerPath) == FarmerPath;
    assert Text.Lower(QaPath) == QaPath;
    assert Text.Lower(BuyerPath) == BuyerPath;
  }

  /**
   * The `<Routes>` table, matched on `RoutePath(path)`: four open pages, three guarded portals,
   * and `*` sent to the home page.
   */
  function Visit(s: Session, path: string): (r: Outcome)
    ensures var p := RoutePath(path);
      && (p == HomePath || p == LoginPath || p == SignupPath || p == ScannerPath ==> r == Render)
      && (AllowedRoles(p).None? && r.Redirect? ==> r.to == HomePath)
      && (AllowedRoles(p).Some? && !IsAuthenticated(s) ==> r == Redirect(LoginPath))
      && (AllowedRoles(p).None? && p !in {HomePath, LoginPath, SignupPath, ScannerPath} ==> r == Redirect(HomePath))
      && (AllowedRoles(p).Some? && IsAuthenticated(s) ==>
            (r == Render <==> UserRole(s).Some? && UserRole(s).value in AllowedRoles(p).value))
    ensures r.Redirect? ==> r.to == HomePath || r.to == LoginPath || AllowedRoles(r.to).Some?
  {
    var p := RoutePath(path);
    if p == HomePath || p == LoginPath || p == SignupPath || p == ScannerPath then Render
    else if AllowedRoles(p).Some? then ProtectedRoute(s, AllowedRoles(p))
    else Redirect(HomePath)
  }

  /** A signed-in user whose role a portal's guard lists is shown that portal. */
  lemma GuardedVisitRenders(s: Session, path: string)
    requires AllowedRoles(path).Some? && IsAuthenticated(s)
    requires UserRole(s).Some? && UserRole(s).value in AllowedRoles(path).value
    ensures Visit(s, path) == Render
  {
    PatternsAreCanonical();
  }

  /** Letter case and a trailing slash make no difference to where a visit ends up. */
  lemma {:induction false} VisitIgnoresCaseAndTrailingSlash(s: Session, path: string)
    requires path != ""
    ensures Visit(s, path + "/") == Visit(s, path)
    ensures Visit(s, Text.Lower(path)) == Visit(s, path)
  {
    Text.LowerAppend(path, "/");
    assert Text.Lower("/") == "/";
    var l := Text.Lower(path);
    assert (l + "/")[..|l + "/"| - 1] == l;
    Text.LowerIdempotent(path);
  }

  /** Each of the six known role strings is admitted by the route `roleToPath` sends it to. */
  lemma RoleToPathAdmits(role: string)
    requires IsKnownRole(role)
    ensures AllowedRoles(RoleToPath(Some(role))).Some?
    ensures role in AllowedRoles(RoleToPath(Some(role))).value
  {
  }

  /** Every redirect of the route table lands on a page that renders: no second redirect, no loop. */
  lemma RedirectSettles(s: Session, path: string)
    ensures Visit(s, path).Redirect? ==> Visit(s, Visit(s, path).to) == Render
  {
    var r := Visit(s, path);
    if r.Redirect? {
      PatternsAreCanonical();
      if r.to != HomePath && r.to != LoginPath {
        assert IsAuthenticated(s) && r.to == RoleToPath(UserRole(s));
        RoleToPathAdmits(UserRole(s).value);
        GuardedVisitRenders(s, r.to);
      }
    }
  }

  /** `roleMap` never changes where `roleToPath` sends a role. */
  lemma RoleMapKeepsPath(role: string)
    ensures RoleToPath(Some(RoleMap(role))) == RoleToPath(Some(role))
  {
  }
}
