/** The `/api/auth` handlers: `signup` and `login`. */
module AuthController {
  import opened Maybe
  import opened Store
  import opened Http
  import opened Crypto

  datatype SignupBody = SignupBody(
    username: string,
    password: string,
    email: string,
    fullName: string,
    role: string)

  datatype LoginBody = LoginBody(username: string, password: string)

  datatype SignupOk = SignupOk(message: string, userId: nat)

  datatype LoginOk = LoginOk(message: string, token: string)

  const UsernameExists: string := "Username already exists"
  const BadCredentials: string := "Invalid username or password"
  const UserCreated: string := "User created successfully"
  const LoginSucceeded: string := "Login successful"

  /**
   * `signup`: rejects a taken username with 409, otherwise stores a user whose password
   * column holds the bcrypt hash and answers 201 with the new id. `fault` is a database error.
   */
  function Signup(db: Db, body: SignupBody, c: Crypto, now: nat, fault: bool): (r: (Db, Reply<SignupOk>))
    ensures fault ==> r == (db, Failure(ServerError, InternalError))
    ensures !fault && Taken(db.users, body.username) ==> r == (db, Failure(Conflict, UsernameExists))
    ensures !fault && !Taken(db.users, body.username) ==>
      && r.1.Success? && r.1.status == Created
      && |r.0.users| == |db.users| + 1
      && r.0.users[..|db.users|] == db.users
      && var u := r.0.users[|db.users|];
      && u.username == body.username && u.email == body.email
      && u.fullName == body.fullName && u.role == body.role
      && u.passwordHash == c.hash(body.password, SaltRounds)
      && r.1.value.userId == u.id
    ensures r.0.batches == db.batches && r.0.credentials == db.credentials
    ensures ValidIds(db) ==> ValidIds(r.0)
    ensures UniqueUsernames(db.users) ==> UniqueUsernames(r.0.users)
  {
    if fault then (db, Failure(ServerError, InternalError))
    else if FindUserByUsername(db.users, body.username).Some? then (db, Failure(Conflict, UsernameExists))
    else
      var passwordHash := c.hash(body.password, SaltRounds);
      var (db', user) := CreateUser(db, NewUser(body.username, passwordHash, body.email, body.fullName, body.role), now);
      assert db'.users[..|db.users|] == db.users;
      (db', Success(Created, SignupOk(UserCreated, user.id)))
  }

  /**
   * `login`: an unknown username and a wrong password give the same 401 reply; a match
   * answers with a token signed over `{ userId, role }` that expires after two hours.
   * The handler returns no database: it never writes to the store.
   */
  function Login(db: Db, body: LoginBody, c: Crypto, secret: string, fault: bool): (r: Reply<LoginOk>)
    ensures fault ==> r == Failure(ServerError, InternalError)
    ensures !fault && !Taken(db.users, body.username) ==> r == Failure(Unauthorized, BadCredentials)
    ensures !fault && r.Failure? ==> r == Failure(Unauthorized, BadCredentials)
    ensures r.Success? ==>
      && r.status == OkStatus
      && exists u :: u in db.users && u.username == body.username
                   && c.compare(body.password, u.passwordHash)
                   && r.value.token == c.sign(Claims(u.id, u.role), secret, TokenLifetime)
  {
    if fault then Failure(ServerError, InternalError)
    else match FindUserByUsername(db.users, body.username)
      case None => Failure(Unauthorized, BadCredentials)
      case Some(user) =>
        if !c.compare(body.password, user.passwordHash) then Failure(Unauthorized, BadCredentials)
        else Success(OkStatus, LoginOk(LoginSucceeded, c.sign(Claims(user.id, user.role), secret, TokenLifetime)))
  }

  /**
   * The other direction of the login decision: with usernames unique, a stored user whose hash
   * matches the submitted password gets 200 and a token signed over that user's id and role.
   */
  lemma {:induction false} LoginAcceptsMatch(db: Db, body: LoginBody, c: Crypto, secret: string, u: User)
    requires UniqueUsernames(db.users)
    requires u in db.users && u.username == body.username
    requires c.compare(body.password, u.passwordHash)
    ensures Login(db, body, c, secret, false)
         == Success(OkStatus, LoginOk(LoginSucceeded, c.sign(Claims(u.id, u.role), secret, TokenLifetime)))
  {
    FindsTheUser(db.users, u);
  }

  /** With usernames unique, a wrong password for an existing user gets the same 401 as an unknown name. */
  lemma {:induction false} LoginRejectsMismatch(db: Db, body: LoginBody, c: Crypto, secret: string, u: User)
    requires UniqueUsernames(db.users)
    requires u in db.users && u.username == body.username
    requires !c.compare(body.password, u.passwordHash)
    ensures Login(db, body, c, secret, false) == Failure(Unauthorized, BadCredentials)
  {
    FindsTheUser(db.users, u);
  }

  /** Signing up a username that is already taken fails with 409, so a repeated signup never creates a second user. */
  lemma {:induction false} SignupTwiceConflicts(db: Db, first: SignupBody, second: SignupBody, c: Crypto, t1: nat, t2: nat)
    requires second.username == first.username
    requires Signup(db, first, c, t1, false).1.Success?
    ensures Signup(Signup(db, first, c, t1, false).0, second, c, t2, false)
         == (Signup(db, first, c, t1, false).0, Failure(Conflict, UsernameExists))
  {
    var db' := Signup(db, first, c, t1, false).0;
    assert db'.users[|db.users|] in db'.users;
  }

  /**
   * A user who has just signed up can log in with the same password, and the token decodes
   * to the new user's id and the role stored at signup.
   */
  lemma {:induction false} SignupThenLogin(db: Db, body: SignupBody, c: Crypto, secret: string, now: nat)
    requires Sound(c)
    requires !Taken(db.users, body.username)
    ensures var (db', reply) := Signup(db, body, c, now, false);
      && reply.Success?
      && var login := Login(db', LoginBody(body.username, body.password), c, secret, false);
      && login.Success?
      && c.decode(login.value.token) == Some(Claims(reply.value.userId, body.role))
  {
    var hash := c.hash(body.password, SaltRounds);
    var nu := NewUser(body.username, hash, body.email, body.fullName, body.role);
    FindAfterCreate(db, nu, now);
    var (db', row) := CreateUser(db, nu, now);
    assert c.compare(body.password, hash);
    assert c.decode(c.sign(Claims(row.id, row.role), secret, TokenLifetime)) == Some(Claims(row.id, row.role));
  }
}
