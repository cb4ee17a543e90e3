/** Frontend and backend together: the sign-up page driving the real handlers. */
module Journeys {
  import opened Maybe
  import opened Roles
  import opened Store
  import opened Crypto
  import opened AuthContext
  import AuthController
  import AppRoutes
  import SignupPage

  /**
   * Signing up through the page with a free username and one of the select's roles makes
   * both calls succeed, and the page navigates to a portal that renders for the new session
   * (the stored role is `roleMap` of the selected one).
   */
  lemma SignupPageLandsOnOwnPortal(db: Db, form: SignupForm, c: Crypto, secret: string, now: nat, s0: Session)
    requires Sound(c)
    requires form.role in SignupPage.RoleOptions
    requires !Taken(db.users, form.username)
    ensures
      var (db1, created) := AuthController.Signup(db, SignupRequest(form), c, now, false);
      var signedUp := AuthContext.Signup(FromReply(created));
      var token := AuthController.Login(db1, AuthController.LoginBody(form.username, form.password), c, secret, false);
      var (s1, loggedIn) := AuthContext.Login(s0, form.username, FromReply(token), c.decode);
      var t := SignupPage.Submit(form, signedUp, loggedIn);
      && t.nav.Some?
      && s1.user.Some? && s1.user.value.role == RoleMap(form.role)
      && AppRoutes.Visit(s1, t.nav.value.to) == AppRoutes.Render
  {
    var body := SignupRequest(form);
    AuthController.SignupThenLogin(db, body, c, secret, now);
    var (db1, created) := AuthController.Signup(db, body, c, now, false);
    var token := AuthController.Login(db1, AuthController.LoginBody(form.username, form.password), c, secret, false);
    assert token.value.token != "";
    SignupPage.RedirectAdmitsStoredRole(form.role);
    var (s1, loggedIn) := AuthContext.Login(s0, form.username, FromReply(token), c.decode);
    AppRoutes.GuardedVisitRenders(s1, SignupPage.RedirectFor(form.role));
  }
}
