/** What an Express handler sends back: a status code with either a payload or `{ error }`. */
module Http {

  datatype Reply<+T> = Success(status: nat, value: T) | Failure(status: nat, error: string)

  const OkStatus: nat := 200
  const Created: nat := 201
  const Unauthorized: nat := 401
  const Forbidden: nat := 403
  const NotFound: nat := 404
  const Conflict: nat := 409
  const ServerError: nat := 500

  /** The body of every 500 reply: nothing about the underlying failure leaks out. */
  const InternalError: string := "Internal server error"

  /** The user on whose behalf a request runs, as the token middleware sets `req.user`. */
  datatype Caller = Caller(userId: nat, role: string)
}
