/** The closed error taxonomy of the service layer (src/lib/server/effect/errors.ts). */
module Errors {
  import opened Wrappers

  /** What a rejected store operation carried; the source keeps it as `unknown`. */
  datatype Cause = Cause(description: string)

  /** `AppError`: exactly five tagged kinds, each with the fields its class declares
      (Validation's required `message` is called `reason` here, since Dafny gives a field
      name one type across all constructors). */
  datatype AppError =
    | Unauthorized(message: Option<string>)
    | NotFound(resource: string, id: string)
    | Validation(reason: string, field: Option<string>)
    | Forbidden(message: Option<string>)
    | Database(cause: Cause)

  /** The HTTP status each kind's doc comment promises it maps to. */
  function DocumentedStatus(e: AppError): (status: nat)
    ensures 400 <= status <= 500
    ensures status == 500 <==> e.Database?
    ensures status < 500 <==> !e.Database?
  {
    match e
    case Unauthorized(_) => 401
    case NotFound(_, _) => 404
    case Validation(_, _) => 400
    case Forbidden(_) => 403
    case Database(_) => 500
  }

  /** Two errors of different kinds never share a documented status. */
  lemma StatusDeterminesKind(a: AppError, b: AppError)
    requires DocumentedStatus(a) == DocumentedStatus(b)
    ensures a.Unauthorized? == b.Unauthorized?
    ensures a.NotFound? == b.NotFound?
    ensures a.Validation? == b.Validation?
    ensures a.Forbidden? == b.Forbidden?
    ensures a.Database? == b.Database?
  {
  }
}
