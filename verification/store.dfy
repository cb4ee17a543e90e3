/**
 * The backend's relations (users, product_batches, verifiable_credentials) as in-memory
 * sequences, and the user model's two queries (`findUserByUsername`, `createUser`).
 */
module Store {
  import opened Maybe
  import opened Seqs

  /** A row of `users`. The password is only ever present as its hash. */
  datatype User = User(
    id: nat,
    username: string,
    passwordHash: string,
    email: string,
    fullName: string,
    role: string,
    createdAt: nat)

  /** A row of `product_batches`; `exporterId` refers to `users.id`. */
  datatype Batch = Batch(
    id: nat,
    exporterId: nat,
    productType: string,
    quantity: string,
    originLocation: string,
    destination: string,
    submissionDate: nat)

  /** A row of `verifiable_credentials`; `batchId` refers to `product_batches.id`. */
  datatype Credential = Credential(id: nat, batchId: nat, revoked: bool, qrCodeUrl: string)

  /**
   * The database: the three relations in insertion order, and the next values of the
   * `users` and `product_batches` id sequences.
   */
  datatype Db = Db(
    users: seq<User>,
    batches: seq<Batch>,
    credentials: seq<Credential>,
    nextUserId: nat,
    nextBatchId: nat)

  /** The columns `createUser` supplies; id and created_at come from the database. */
  datatype NewUser = NewUser(
    username: string,
    passwordHash: string,
    email: string,
    fullName: string,
    role: string)

  /** Every id is distinct and below the next value of its sequence. */
  predicate ValidIds(db: Db)
  {
    && (forall i, j :: 0 <= i < j < |db.users| ==> db.users[i].id != db.users[j].id)
    && (forall i :: 0 <= i < |db.users| ==> db.users[i].id < db.nextUserId)
    && (forall i, j :: 0 <= i < j < |db.batches| ==> db.batches[i].id != db.batches[j].id)
    && (forall i :: 0 <= i < |db.batches| ==> db.batches[i].id < db.nextBatchId)
  }

  /** No two users share a username (the invariant `signup` maintains). */
  predicate UniqueUsernames(users: seq<User>)
  {
    forall i, j :: 0 <= i < j < |users| ==> users[i].username != users[j].username
  }

  /** Some user has the given username. */
  predicate Taken(users: seq<User>, username: string)
  {
    exists u :: u in users && u.username == username
  }

  /** `SELECT * FROM users WHERE username = $1`, first row. */
  function FindUserByUsername(users: seq<User>, username: string): (r: Option<User>)
    ensures r.Some? ==> r.value in users && r.value.username == username
    ensures r.None? <==> !Taken(users, username)
  {
    Find(users, (u: User) => u.username == username)
  }

  /** With unique usernames the lookup finds the one user who has the name. */
  lemma FindsTheUser(users: seq<User>, u: User)
    requires UniqueUsernames(users) && u in users
    ensures FindUserByUsername(users, u.username) == Some(u)
  {
    var r := FindUserByUsername(users, u.username);
    var i :| 0 <= i < |users| && users[i] == r.value;
    var j :| 0 <= j < |users| && users[j] == u;
    if i < j {
      assert users[i].username != users[j].username;
    } else if j < i {
      assert users[j].username != users[i].username;
    }
  }

  /** `INSERT INTO users ... RETURNING *`: appends a row with a fresh id and returns it. */
  function CreateUser(db: Db, nu: NewUser, now: nat): (r: (Db, User))
    ensures r.1.username == nu.username && r.1.email == nu.email
    ensures r.1.fullName == nu.fullName && r.1.role == nu.role
    ensures r.1.passwordHash == nu.passwordHash
    ensures r.0.users == db.users + [r.1]
    ensures r.0.batches == db.batches && r.0.credentials == db.credentials
    ensures ValidIds(db) ==> ValidIds(r.0) && forall u :: u in db.users ==> u.id != r.1.id
  {
    var row := User(db.nextUserId, nu.username, nu.passwordHash, nu.email, nu.fullName, nu.role, now);
    (db.(users := db.users + [row], nextUserId := db.nextUserId + 1), row)
  }

  /** After `createUser`, a lookup of that username finds a row; the new one when the name was free. */
  lemma {:induction false} FindAfterCreate(db: Db, nu: NewUser, now: nat)
    ensures FindUserByUsername(CreateUser(db, nu, now).0.users, nu.username).Some?
    ensures !Taken(db.users, nu.username) ==>
      FindUserByUsername(CreateUser(db, nu, now).0.users, nu.username) == Some(CreateUser(db, nu, now).1)
  {
    var (db', row) := CreateUser(db, nu, now);
    FindAppend(db.users, [row], (u: User) => u.username == nu.username);
    assert row in db'.users;
  }
}
