/** The transport boundary (src/lib/server/effect/adapters.ts): the one place where an
    `AppError` becomes an HTTP status and a message. */
module Adapters {
  import opened Wrappers
  import opened Errors

  /** What SvelteKit's `error(status, message)` throws. */
  datatype KitError = KitError(status: nat, message: string)

  /** `mapErrorToKit`: total over the five kinds; the status is the documented one, the
      message is the error's own where it has one, and a store failure never shows its cause. */
  function MapErrorToKit(e: AppError): (r: KitError)
    ensures r.status == DocumentedStatus(e)
    ensures e.Unauthorized? ==> r.message == e.message.GetOr("Unauthorized")
    ensures e.NotFound? ==> r.message == e.resource + " not found"
    ensures e.Validation? ==> r.message == e.reason
    ensures e.Forbidden? ==> r.message == e.message.GetOr("Forbidden")
    ensures e.Database? ==> r.message == "Internal server error"
  {
    match e
    case Unauthorized(message) => KitError(401, message.GetOr("Unauthorized"))
    case NotFound(resource, _) => KitError(404, resource + " not found")
    case Validation(reason, _) => KitError(400, reason)
    case Forbidden(message) => KitError(403, message.GetOr("Forbidden"))
    case Database(_) => KitError(500, "Internal server error")
  }

  /** The catch-all of `runEffect`: a success passes through, a failure is mapped once. */
  function RunEffect<A>(outcome: Result<A, AppError>): (r: Result<A, KitError>)
    ensures r.Success? <==> outcome.Success?
    ensures outcome.Success? ==> r.value == outcome.value
    ensures outcome.Failure? ==> r.error == MapErrorToKit(outcome.error)
  {
    match outcome
    case Success(v) => Success(v)
    case Failure(e) => Failure(MapErrorToKit(e))
  }

  /** A NotFound response reveals the kind of resource but not which id was asked for. */
  lemma NotFoundHidesId(resource: string, id1: string, id2: string)
    ensures MapErrorToKit(NotFound(resource, id1)) == MapErrorToKit(NotFound(resource, id2))
  {
  }

  /** A store failure looks the same to the client whatever its cause. */
  lemma DatabaseCauseNeverLeaks<A>(c1: Cause, c2: Cause)
    ensures RunEffect<A>(Failure(Database(c1))) == RunEffect<A>(Failure(Database(c2)))
    ensures RunEffect<A>(Failure(Database(c1))) == Failure(KitError(500, "Internal server error"))
  {
  }
}
