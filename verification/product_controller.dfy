/** The `/api/products` handler: `getProducts`, a listing of batches that depends on the caller's role. */
module ProductController {
  import opened Maybe
  import opened Seqs
  import opened Store
  import opened Http
  import opened Roles
  import BatchController

  /** A result row: the batch columns, the owner's `full_name`, and for importers the credential's QR URL. */
  datatype ProductRow = ProductRow(batch: Batch, exporterName: string, qrCodeUrl: Option<string>)

  /** The three queries the handler can run. */
  datatype Query = OwnBatches(exporterId: nat) | AllBatches | CertifiedBatches

  const UnauthorizedRole: string := "Unauthorized role"

  /** The query a role selects, or None for a role that gets 403. */
  function QueryFor(caller: Caller): (q: Option<Query>)
    ensures q.None? <==> !IsBackendRole(caller.role)
    ensures caller.role == Exporter ==> q == Some(OwnBatches(caller.userId))
    ensures caller.role == QaAgency ==> q == Some(AllBatches)
    ensures caller.role == Importer ==> q == Some(CertifiedBatches)
  {
    if caller.role == Exporter then Some(OwnBatches(caller.userId))
    else if caller.role == QaAgency then Some(AllBatches)
    else if caller.role == Importer then Some(CertifiedBatches)
    else None
  }

  // ---------------------------------------------------------------- ORDER BY submission_date DESC

  predicate NewestFirst(bs: seq<Batch>)
  {
    forall i, j :: 0 <= i < j < |bs| ==> bs[i].submissionDate >= bs[j].submissionDate
  }

  predicate RowsNewestFirst(rows: seq<ProductRow>)
  {
    forall i, j :: 0 <= i < j < |rows| ==> rows[i].batch.submissionDate >= rows[j].batch.submissionDate
  }

  /** A batch no older than the head of an ordered run can go in front of it. */
  lemma PrependOrdered(x: Batch, s: seq<Batch>)
    requires NewestFirst(s)
    requires s == [] || x.submissionDate >= s[0].submissionDate
    ensures NewestFirst([x] + s)
  {
    var r := [x] + s;
    forall i, j | 0 <= i < j < |r|
      ensures r[i].submissionDate >= r[j].submissionDate
    {
      if i == 0 {
        assert r[j] == s[j - 1];
        assert s[0].submissionDate >= s[j - 1].submissionDate;
      } else {
        assert r[i] == s[i - 1] && r[j] == s[j - 1];
      }
    }
  }

  function InsertByDate(b: Batch, s: seq<Batch>): (r: seq<Batch>)
    requires NewestFirst(s)
    ensures NewestFirst(r)
    ensures multiset(r) == multiset(s) + multiset{b}
    ensures r[0] == b || (s != [] && r[0] == s[0])
  {
    if s == [] then [b]
    else if b.submissionDate >= s[0].submissionDate then
      PrependOrdered(b, s);
      [b] + s
    else
      var rest := InsertByDate(b, s[1..]);
      assert s == [s[0]] + s[1..];
      PrependOrdered(s[0], rest);
      [s[0]] + rest
  }

  /** The batches reordered newest first; ties keep no particular order, as in SQL. */
  function SortNewestFirst(s: seq<Batch>): (r: seq<Batch>)
    ensures NewestFirst(r)
    ensures multiset(r) == multiset(s)
  {
    if s == [] then []
    else
      assert s == [s[0]] + s[1..];
      InsertByDate(s[0], SortNewestFirst(s[1..]))
  }

  // ---------------------------------------------------------------- the joins

  /** `JOIN users u ON pb.exporter_id = u.id`: the users a batch joins to. */
  function Owners(b: Batch, users: seq<User>): seq<User>
  {
    Filter(users, (u: User) => u.id == b.exporterId)
  }

  /** `JOIN verifiable_credentials vc ON vc.batch_id = pb.id WHERE vc.revoked = FALSE`. */
  function LiveCredentials(b: Batch, creds: seq<Credential>): seq<Credential>
  {
    Filter(creds, (c: Credential) => c.batchId == b.id && !c.revoked)
  }

  /** The row carries the full name of a user who owns its batch. */
  ghost predicate NamedByOwner(r: ProductRow, users: seq<User>)
  {
    exists u :: u in users && u.id == r.batch.exporterId && u.fullName == r.exporterName
  }

  /** The row carries the QR URL of a non-revoked credential of its batch. */
  ghost predicate Certified(r: ProductRow, creds: seq<Credential>)
  {
    exists c :: c in creds && c.batchId == r.batch.id && !c.revoked && r.qrCodeUrl == Some(c.qrCodeUrl)
  }

  /** What a row of each query looks like, apart from the batch filter. */
  ghost predicate Admits(q: Query, r: ProductRow, users: seq<User>, creds: seq<Credential>)
  {
    && NamedByOwner(r, users)
    && (if q == CertifiedBatches then Certified(r, creds) else r.qrCodeUrl.None?)
  }

  /** One row per owner of `b`, without a credential column. */
  function StaffRows(b: Batch, owners: seq<User>): (rows: seq<ProductRow>)
    ensures |rows| == |owners| && forall i :: 0 <= i < |rows| ==> rows[i].batch == b
    ensures forall r :: r in rows <==>
      r.batch == b && r.qrCodeUrl.None? && exists u :: u in owners && u.fullName == r.exporterName
  {
    if owners == [] then []
    else
      var rest := StaffRows(b, owners[1..]);
      assert forall u :: u in owners <==> u == owners[0] || u in owners[1..];
      [ProductRow(b, owners[0].fullName, None)] + rest
  }

  /** One row per live credential of `b`, all under the owner name `name`. */
  function QrRows(b: Batch, name: string, creds: seq<Credential>): (rows: seq<ProductRow>)
    ensures |rows| == |creds| && forall i :: 0 <= i < |rows| ==> rows[i].batch == b
    ensures forall r :: r in rows <==>
      r.batch == b && r.exporterName == name && exists c :: c in creds && r.qrCodeUrl == Some(c.qrCodeUrl)
  {
    if creds == [] then []
    else
      var rest := QrRows(b, name, creds[1..]);
      assert forall c :: c in creds <==> c == creds[0] || c in creds[1..];
      [ProductRow(b, name, Some(creds[0].qrCodeUrl))] + rest
  }

  /** The inner join of `b` with its owners and its live credentials: one row per pair. */
  function CertifiedRows(b: Batch, owners: seq<User>, creds: seq<Credential>): (rows: seq<ProductRow>)
    ensures |rows| == |owners| * |creds| && forall i :: 0 <= i < |rows| ==> rows[i].batch == b
    ensures forall r :: r in rows <==>
      && r.batch == b
      && (exists u :: u in owners && u.fullName == r.exporterName)
      && (exists c :: c in creds && r.qrCodeUrl == Some(c.qrCodeUrl))
  {
    if owners == [] then []
    else
      var first := QrRows(b, owners[0].fullName, creds);
      var rest := CertifiedRows(b, owners[1..], creds);
      assert forall u :: u in owners <==> u == owners[0] || u in owners[1..];
      assert |owners| * |creds| == |creds| + (|owners| - 1) * |creds|;
      first + rest
  }

  /** The rows one batch contributes to a query's result. */
  function BatchRows(q: Query, b: Batch, users: seq<User>, creds: seq<Credential>): (rows: seq<ProductRow>)
    ensures forall r :: r in rows <==> r.batch == b && Admits(q, r, users, creds)
    ensures forall i :: 0 <= i < |rows| ==> rows[i].batch == b
  {
    if q == CertifiedBatches then CertifiedRows(b, Owners(b, users), LiveCredentials(b, creds))
    else StaffRows(b, Owners(b, users))
  }

  /** The rows of a query over the batches `bs`, batch by batch in the order of `bs`. */
  function Listing(q: Query, bs: seq<Batch>, users: seq<User>, creds: seq<Credential>): (rows: seq<ProductRow>)
    ensures forall r :: r in rows <==> r.batch in bs && Admits(q, r, users, creds)
  {
    if bs == [] then []
    else BatchRows(q, bs[0], users, creds) + Listing(q, bs[1..], users, creds)
  }

  /** The batches a query starts from: `WHERE pb.exporter_id = $1` for an exporter, all batches otherwise. */
  function Candidates(q: Query, bs: seq<Batch>): seq<Batch>
  {
    match q
    case OwnBatches(id) => Filter(bs, (b: Batch) => b.exporterId == id)
    case _ => bs
  }

  // ---------------------------------------------------------------- the handler

  /**
   * `getProducts`: a role outside the three gets 403 before any query runs; otherwise the
   * role's query answers 200 with rows newest first, each naming its batch's owner.
   */
  function GetProducts(db: Db, caller: Caller, fault: bool): (r: Reply<seq<ProductRow>>)
    ensures !IsBackendRole(caller.role) ==> r == Failure(Forbidden, UnauthorizedRole)
    ensures IsBackendRole(caller.role) && fault ==> r == Failure(ServerError, InternalError)
    ensures IsBackendRole(caller.role) && !fault ==> r.Success? && r.status == OkStatus
    ensures r.Success? ==> RowsNewestFirst(r.value)
    ensures r.Success? ==> forall row :: row in r.value ==> row.batch in db.batches && NamedByOwner(row, db.users)
  {
    match QueryFor(caller)
    case None => Failure(Forbidden, UnauthorizedRole)
    case Some(q) =>
      if fault then Failure(ServerError, InternalError)
      else
        var bs := SortNewestFirst(Candidates(q, db.batches));
        ListingOrdered(q, bs, db.users, db.credentials);
        assert forall b :: b in bs ==> b in multiset(Candidates(q, db.batches));
        Success(OkStatus, Listing(q, bs, db.users, db.credentials))
  }

  /** The rows `getProducts` answers with for a caller whose role has a query. */
  function Rows(db: Db, caller: Caller): seq<ProductRow>
    requires IsBackendRole(caller.role)
  {
    GetProducts(db, caller, false).value
  }

  /** A batch is in the sorted candidate list exactly when the query's filter keeps it. */
  lemma InSorted(q: Query, db: Db, b: Batch)
    ensures b in SortNewestFirst(Candidates(q, db.batches)) <==>
      b in db.batches && (q.OwnBatches? ==> b.exporterId == q.exporterId)
  {
    var s := SortNewestFirst(Candidates(q, db.batches));
    assert b in s <==> b in multiset(s);
  }

  /** Two ordered runs, the first no older than the second, concatenate to an ordered run. */
  lemma AppendOrdered(a: seq<ProductRow>, b: seq<ProductRow>, d: nat)
    requires RowsNewestFirst(a) && RowsNewestFirst(b)
    requires forall i :: 0 <= i < |a| ==> a[i].batch.submissionDate >= d
    requires NoNewerThan(b, d)
    ensures RowsNewestFirst(a + b)
  {
    var rows := a + b;
    forall i, j | 0 <= i < j < |rows|
      ensures rows[i].batch.submissionDate >= rows[j].batch.submissionDate
    {
      if j < |a| {
        assert rows[i] == a[i] && rows[j] == a[j];
      } else if i < |a| {
        assert rows[i] == a[i] && rows[j] == b[j - |a|];
      } else {
        assert rows[i] == b[i - |a|] && rows[j] == b[j - |a|];
      }
    }
  }

  /** Every row of `rows` shows a batch submitted no later than `d`. */
  predicate NoNewerThan(rows: seq<ProductRow>, d: nat)
  {
    forall j :: 0 <= j < |rows| ==> rows[j].batch.submissionDate <= d
  }

  lemma NoNewerAppend(a: seq<ProductRow>, b: seq<ProductRow>, d: nat)
    requires NoNewerThan(a, d) && NoNewerThan(b, d)
    ensures NoNewerThan(a + b, d)
  {
    forall j | 0 <= j < |a + b|
      ensures (a + b)[j].batch.submissionDate <= d
    {
      if j < |a| {
        assert (a + b)[j] == a[j];
      } else {
        assert (a + b)[j] == b[j - |a|];
      }
    }
  }

  /** Batches no newer than `d` give rows no newer than `d`. */
  lemma {:induction false} ListingBounded(q: Query, bs: seq<Batch>, users: seq<User>, creds: seq<Credential>, d: nat)
    requires forall k :: 0 <= k < |bs| ==> bs[k].submissionDate <= d
    ensures NoNewerThan(Listing(q, bs, users, creds), d)
    decreases |bs|
  {
    if bs != [] {
      var first := BatchRows(q, bs[0], users, creds);
      var rest := Listing(q, bs[1..], users, creds);
      assert forall k :: 0 <= k < |bs[1..]| ==> bs[1..][k] == bs[k + 1];
      ListingBounded(q, bs[1..], users, creds, d);
      assert bs[0].submissionDate <= d;
      NoNewerAppend(first, rest, d);
    }
  }

  /** Rows follow the order of their batches, so sorted batches give sorted rows. */
  lemma {:induction false} ListingOrdered(q: Query, bs: seq<Batch>, users: seq<User>, creds: seq<Credential>)
    requires NewestFirst(bs)
    ensures RowsNewestFirst(Listing(q, bs, users, creds))
    decreases |bs|
  {
    if bs != [] {
      var d := bs[0].submissionDate;
      var first := BatchRows(q, bs[0], users, creds);
      var rest := Listing(q, bs[1..], users, creds);
      assert forall k :: 0 <= k < |bs[1..]| ==> bs[1..][k] == bs[k + 1];
      ListingOrdered(q, bs[1..], users, creds);
      ListingBounded(q, bs[1..], users, creds, d);
      AppendOrdered(first, rest, d);
    }
  }

  // ---------------------------------------------------------------- per-role visibility

  /** An exporter only ever sees batches it owns. */
  lemma ExporterSeesOnlyOwn(db: Db, caller: Caller, row: ProductRow)
    requires caller.role == Exporter
    requires row in Rows(db, caller)
    ensures row.batch.exporterId == caller.userId
    ensures row.batch in db.batches && row.qrCodeUrl.None? && NamedByOwner(row, db.users)
  {
    InSorted(OwnBatches(caller.userId), db, row.batch);
  }

  /** An exporter sees every batch it owns whose owner row exists, under the owner's full name. */
  lemma ExporterSeesAllOwn(db: Db, caller: Caller, b: Batch, u: User)
    requires caller.role == Exporter
    requires b in db.batches && b.exporterId == caller.userId
    requires u in db.users && u.id == b.exporterId
    ensures ProductRow(b, u.fullName, None) in Rows(db, caller)
  {
    InSorted(OwnBatches(caller.userId), db, b);
    assert NamedByOwner(ProductRow(b, u.fullName, None), db.users);
  }

  /** A QA agency sees every batch that joins to a user, whoever owns it. */
  lemma QaSeesAll(db: Db, caller: Caller, b: Batch, u: User)
    requires caller.role == QaAgency
    requires b in db.batches
    requires u in db.users && u.id == b.exporterId
    ensures ProductRow(b, u.fullName, None) in Rows(db, caller)
  {
    InSorted(AllBatches, db, b);
    assert NamedByOwner(ProductRow(b, u.fullName, None), db.users);
  }

  /** An importer's rows each pair a batch with one of its non-revoked credentials. */
  lemma ImporterSeesOnlyCertified(db: Db, caller: Caller, row: ProductRow)
    requires caller.role == Importer
    requires row in Rows(db, caller)
    ensures row.batch in db.batches && NamedByOwner(row, db.users) && Certified(row, db.credentials)
  {
    InSorted(CertifiedBatches, db, row.batch);
  }

  /** A batch without a non-revoked credential never reaches an importer. */
  lemma UncertifiedHidden(db: Db, caller: Caller, b: Batch)
    requires caller.role == Importer
    requires forall c :: c in db.credentials && c.batchId == b.id ==> c.revoked
    ensures forall row :: row in Rows(db, caller) ==> row.batch != b
  {
    forall row | row in Rows(db, caller)
      ensures row.batch != b
    {
      ImporterSeesOnlyCertified(db, caller, row);
    }
  }

  /** Every (batch, owner, live credential) triple reaches an importer. */
  lemma ImporterSeesEveryCredential(db: Db, caller: Caller, b: Batch, u: User, c: Credential)
    requires caller.role == Importer
    requires b in db.batches
    requires u in db.users && u.id == b.exporterId
    requires c in db.credentials && c.batchId == b.id && !c.revoked
    ensures ProductRow(b, u.fullName, Some(c.qrCodeUrl)) in Rows(db, caller)
  {
    InSorted(CertifiedBatches, db, b);
    var row := ProductRow(b, u.fullName, Some(c.qrCodeUrl));
    assert NamedByOwner(row, db.users) && Certified(row, db.credentials);
  }

  // ---------------------------------------------------------------- multiplicity of the inner join

  /** The rows of `rows` that show batch `b`. */
  function RowsOf(rows: seq<ProductRow>, b: Batch): seq<ProductRow>
  {
    Filter(rows, (r: ProductRow) => r.batch == b)
  }

  lemma RowsOfAppend(a: seq<ProductRow>, c: seq<ProductRow>, b: Batch)
    ensures RowsOf(a + c, b) == RowsOf(a, b) + RowsOf(c, b)
  {
    FilterAppend(a, c, (r: ProductRow) => r.batch == b);
  }

  /** Selecting a batch's own rows keeps all of them; selecting another batch's keeps none. */
  lemma RowsOfBatchRows(q: Query, b': Batch, users: seq<User>, creds: seq<Credential>, b: Batch)
    ensures b' == b ==> RowsOf(BatchRows(q, b', users, creds), b) == BatchRows(q, b', users, creds)
    ensures b' != b ==> RowsOf(BatchRows(q, b', users, creds), b) == []
  {
    var rows := BatchRows(q, b', users, creds);
    if b' == b {
      FilterKeepsAll(rows, (r: ProductRow) => r.batch == b);
    } else {
      FilterKeepsNone(rows, (r: ProductRow) => r.batch == b);
    }
  }

  /** A batch contributes its per-batch rows once for every time it occurs among the batches. */
  lemma {:induction false} ListingCount(q: Query, bs: seq<Batch>, users: seq<User>, creds: seq<Credential>, b: Batch)
    ensures |RowsOf(Listing(q, bs, users, creds), b)| == multiset(bs)[b] * |BatchRows(q, b, users, creds)|
    decreases |bs|
  {
    if bs == [] {
    } else {
      var k := |BatchRows(q, b, users, creds)|;
      var m := multiset(bs[1..])[b];
      var n := multiset(bs)[b];
      var total := |RowsOf(Listing(q, bs, users, creds), b)|;
      var rest := |RowsOf(Listing(q, bs[1..], users, creds), b)|;
      ListingCountStep(q, bs, users, creds, b);
      ListingCount(q, bs[1..], users, creds, b);
      ArithStep(total, rest, n, m, k, bs[0] == b);
    }
  }

  lemma ArithStep(total: nat, rest: nat, n: nat, m: nat, k: nat, same: bool)
    requires rest == m * k
    requires total == (if same then 1 else 0) * k + rest
    requires n == (if same then 1 else 0) + m
    ensures total == n * k
  {
    if same {
      assert n * k == (m + 1) * k == m * k + k;
    }
  }

  /** Peeling the first batch off: its rows count when it is `b`, and `b`'s multiplicity drops accordingly. */
  lemma ListingCountStep(q: Query, bs: seq<Batch>, users: seq<User>, creds: seq<Credential>, b: Batch)
    requires bs != []
    ensures var here := if bs[0] == b then 1 else 0;
      && |RowsOf(Listing(q, bs, users, creds), b)|
         == here * |BatchRows(q, b, users, creds)| + |RowsOf(Listing(q, bs[1..], users, creds), b)|
      && multiset(bs)[b] == here + multiset(bs[1..])[b]
  {
    var first := BatchRows(q, bs[0], users, creds);
    var rest := Listing(q, bs[1..], users, creds);
    assert Listing(q, bs, users, creds) == first + rest;
    RowsOfAppend(first, rest, b);
    RowsOfBatchRows(q, bs[0], users, creds, b);
    MultisetStep(bs, b);
  }

  lemma MultisetStep(bs: seq<Batch>, b: Batch)
    requires bs != []
    ensures multiset(bs)[b] == (if bs[0] == b then 1 else 0) + multiset(bs[1..])[b]
  {
    assert bs == [bs[0]] + bs[1..];
  }

  /** With distinct ids, a batch occurs exactly once. */
  lemma {:induction false} OnceWhenIdsDistinct(bs: seq<Batch>, b: Batch)
    requires forall i, j :: 0 <= i < j < |bs| ==> bs[i].id != bs[j].id
    requires b in bs
    ensures multiset(bs)[b] == 1
    decreases |bs|
  {
    assert bs == [bs[0]] + bs[1..];
    if bs[0] != b {
      OnceWhenIdsDistinct(bs[1..], b);
    }
  }

  /** A batch whose owner id no user has joins to nobody. */
  lemma {:induction false} NoOwner(b: Batch, users: seq<User>)
    requires forall u :: u in users ==> u.id != b.exporterId
    ensures Owners(b, users) == []
    decreases |users|
  {
    if users != [] {
      assert users[0] in users;
      NoOwner(b, users[1..]);
    }
  }

  /** With distinct user ids, a batch whose owner exists joins to exactly one user. */
  lemma {:induction false} SingleOwner(b: Batch, users: seq<User>)
    requires forall i, j :: 0 <= i < j < |users| ==> users[i].id != users[j].id
    requires exists u :: u in users && u.id == b.exporterId
    ensures |Owners(b, users)| == 1
    decreases |users|
  {
    if users[0].id == b.exporterId {
      var rest := Owners(b, users[1..]);
      forall u | u in users[1..]
        ensures u.id != b.exporterId
      {
        var k :| 0 <= k < |users[1..]| && users[1..][k] == u;
        assert users[k + 1] == u;
      }
      NoOwner(b, users[1..]);
      assert Owners(b, users) == [users[0]] + rest;
    } else {
      assert users == [users[0]] + users[1..];
      SingleOwner(b, users[1..]);
    }
  }

  /**
   * Because of the inner join, an importer sees a batch once per non-revoked credential
   * of that batch (and not at all when it has none).
   */
  lemma ImporterRowPerCredential(db: Db, caller: Caller, b: Batch)
    requires caller.role == Importer
    requires ValidIds(db)
    requires b in db.batches
    requires exists u :: u in db.users && u.id == b.exporterId
    ensures |RowsOf(Rows(db, caller), b)| == |LiveCredentials(b, db.credentials)|
  {
    var bs := SortNewestFirst(db.batches);
    ListingCount(CertifiedBatches, bs, db.users, db.credentials, b);
    OnceWhenIdsDistinct(db.batches, b);
    SingleOwner(b, db.users);
  }

  // ---------------------------------------------------------------- submission then listing

  /**
   * A batch an exporter submits shows up in that exporter's listing, and never in the
   * listing of an exporter with another id.
   */
  lemma SubmittedBatchVisibleToOwnerOnly(db: Db, alice: Caller, bob: Caller, body: BatchController.BatchBody, now: nat, u: User)
    requires alice.role == Exporter && bob.role == Exporter && alice.userId != bob.userId
    requires u in db.users && u.id == alice.userId
    ensures var (db', reply) := BatchController.AddProductBatch(db, alice, body, now, false);
      && ProductRow(reply.value.batch, u.fullName, None) in Rows(db', alice)
      && forall row :: row in Rows(db', bob) ==> row.batch != reply.value.batch
  {
    var (db', reply) := BatchController.AddProductBatch(db, alice, body, now, false);
    assert reply.value.batch in db'.batches;
    ExporterSeesAllOwn(db', alice, reply.value.batch, u);
    forall row | row in Rows(db', bob)
      ensures row.batch != reply.value.batch
    {
      ExporterSeesOnlyOwn(db', bob, row);
    }
  }
}
