/** The store accessor (src/lib/server/effect/services/Database.ts). The Drizzle query
    itself is foreign: its outcome is an input. */
module Database {
  import opened Wrappers
  import opened Errors

  /** How a store operation settled: its promise resolved or rejected. */
  datatype QueryOutcome<+A> = Resolved(value: A) | Rejected(cause: Cause)

  /** The store as one request sees it: reachable, or failing every query with a cause. */
  datatype Availability = Up | Down(cause: Cause)

  /** The outcome of a query that would compute `value` against the in-memory tables. */
  function Query<A>(db: Availability, value: A): (r: QueryOutcome<A>)
    ensures db.Up? ==> r == Resolved(value)
    ensures db.Down? ==> r == Rejected(db.cause)
  {
    match db
    case Up => Resolved(value)
    case Down(cause) => Rejected(cause)
  }

  /** `runQuery`: a resolved value passes through unchanged; any rejection becomes a
      DatabaseError that keeps the rejection as its cause, and no other kind is produced. */
  function RunQuery<A>(op: QueryOutcome<A>): (r: Result<A, AppError>)
    ensures op.Resolved? <==> r.Success?
    ensures op.Resolved? ==> r.value == op.value
    ensures op.Rejected? ==> r.error == Database(op.cause)
    ensures r.Failure? ==> r.error.Database?
  {
    match op
    case Resolved(v) => Success(v)
    case Rejected(cause) => Failure(Database(cause))
  }
}
