/** The `/api/batches` handler: `addProductBatch`. */
module BatchController {
  import opened Maybe
  import opened Store
  import opened Http

  /**
   * The request body. `exporterId` stands for an owner a client might put in the body;
   * the handler never reads it.
   */
  datatype BatchBody = BatchBody(
    productType: string,
    quantity: string,
    originLocation: string,
    destination: string,
    exporterId: Option<nat>)

  datatype BatchOk = BatchOk(message: string, batch: Batch)

  const BatchSubmitted: string := "Product batch submitted"

  /**
   * `addProductBatch`: inserts one batch owned by the authenticated caller, copying the four
   * body fields, and answers 201 with the inserted row. There is no role check.
   */
  function AddProductBatch(db: Db, caller: Caller, body: BatchBody, now: nat, fault: bool): (r: (Db, Reply<BatchOk>))
    ensures fault ==> r == (db, Failure(ServerError, InternalError))
    ensures !fault ==>
      && r.1.Success? && r.1.status == Created
      && r.0.batches == db.batches + [r.1.value.batch]
      && r.1.value.batch.exporterId == caller.userId
      && r.1.value.batch.productType == body.productType
      && r.1.value.batch.quantity == body.quantity
      && r.1.value.batch.originLocation == body.originLocation
      && r.1.value.batch.destination == body.destination
    ensures r.0.users == db.users && r.0.credentials == db.credentials
    ensures ValidIds(db) ==> ValidIds(r.0)
  {
    if fault then (db, Failure(ServerError, InternalError))
    else
      var row := Batch(db.nextBatchId, caller.userId, body.productType, body.quantity,
                       body.originLocation, body.destination, now);
      (db.(batches := db.batches + [row], nextBatchId := db.nextBatchId + 1),
       Success(Created, BatchOk(BatchSubmitted, row)))
  }

  /** The outcome depends on the caller only through its id: neither its role nor an owner in the body matters. */
  lemma OwnerComesFromToken(db: Db, a: Caller, b: Caller, x: BatchBody, y: BatchBody, now: nat, fault: bool)
    requires a.userId == b.userId
    requires x.(exporterId := None) == y.(exporterId := None)
    ensures AddProductBatch(db, a, x, now, fault) == AddProductBatch(db, b, y, now, fault)
  {
  }
}
