/** The `/api/users/me` handler: `getUserDetails`. */
module UserController {
  import opened Maybe
  import opened Seqs
  import opened Store
  import opened Http
  import AuthController
  import Crypto

  /** The selected columns: everything in `users` except `password_hash`. */
  datatype Profile = Profile(
    id: nat,
    username: string,
    email: string,
    fullName: string,
    role: string,
    createdAt: nat)

  const UserNotFound: string := "User not found"

  function ProfileOf(u: User): Profile
  {
    Profile(u.id, u.username, u.email, u.fullName, u.role, u.createdAt)
  }

  /** `getUserDetails`: looks the caller's token id up and returns that user's public columns, or 404. */
  function GetUserDetails(db: Db, caller: Caller, fault: bool): (r: Reply<Profile>)
    ensures fault ==> r == Failure(ServerError, InternalError)
    ensures !fault ==> (r.Failure? <==> forall u :: u in db.users ==> u.id != caller.userId)
    ensures !fault && r.Failure? ==> r == Failure(NotFound, UserNotFound)
    ensures r.Success? ==> r.status == OkStatus && exists u :: u in db.users && u.id == caller.userId && r.value == ProfileOf(u)
  {
    if fault then Failure(ServerError, InternalError)
    else match Find(db.users, (u: User) => u.id == caller.userId)
      case None => Failure(NotFound, UserNotFound)
      case Some(u) => Success(OkStatus, ProfileOf(u))
  }

  /** Only the token's user id selects the row: the token's role plays no part. */
  lemma LookupIgnoresRole(db: Db, a: Caller, b: Caller, fault: bool)
    requires a.userId == b.userId
    ensures GetUserDetails(db, a, fault) == GetUserDetails(db, b, fault)
  {
  }

  /** Right after a successful signup, the new id resolves to a profile carrying the submitted fields. */
  lemma {:induction false} ProfileAfterSignup(db: Db, body: AuthController.SignupBody, c: Crypto.Crypto, now: nat, role: string)
    requires ValidIds(db)
    requires !Taken(db.users, body.username)
    ensures var (db', reply) := AuthController.Signup(db, body, c, now, false);
      && reply.Success?
      && var me := GetUserDetails(db', Caller(reply.value.userId, role), false);
      && me.Success?
      && me.value.username == body.username && me.value.email == body.email
      && me.value.fullName == body.fullName && me.value.role == body.role
  {
    var (db', reply) := AuthController.Signup(db, body, c, now, false);
    var row := db'.users[|db.users|];
    assert db'.users == db.users + [row];
    var p := (u: User) => u.id == reply.value.userId;
    FindAppend(db.users, [row], p);
    assert Find([row], p) == Some(row);
  }
}
