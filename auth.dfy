/** Session resolution (src/lib/server/effect/services/Auth.ts). The better-auth call is
    foreign: whether it threw, and what it returned, is an input. */
module Auth {
  import opened Wrappers
  import opened Errors

  datatype User = User(id: string, name: string, email: string)

  /** A better-auth session: the session record's own id and the signed-in user. */
  datatype Session = Session(id: string, user: User)

  /** How `auth.api.getSession` settled: it threw, or it returned a session or null. */
  datatype SessionLookup = Threw | Returned(session: Option<Session>)

  const FAILED_TO_VERIFY := "Failed to verify session"
  const NOT_AUTHENTICATED := "Not authenticated"

  /** `_getSession`: a thrown lookup and a null session both become Unauthorized, each with
      its own message; a session passes through unchanged. */
  function GetSession(lookup: SessionLookup): (r: Result<Session, AppError>)
    ensures lookup.Threw? ==> r == Failure(Unauthorized(Some(FAILED_TO_VERIFY)))
    ensures lookup == Returned(None) ==> r == Failure(Unauthorized(Some(NOT_AUTHENTICATED)))
    ensures r.Success? <==> lookup.Returned? && lookup.session.Some?
    ensures r.Success? ==> r.value == lookup.session.value
    ensures r.Failure? ==> r.error.Unauthorized?
  {
    match lookup
    case Threw => Failure(Unauthorized(Some(FAILED_TO_VERIFY)))
    case Returned(None) => Failure(Unauthorized(Some(NOT_AUTHENTICATED)))
    case Returned(Some(session)) => Success(session)
  }

  /** `getUser`: fails exactly when GetSession fails, with the same error, and otherwise
      yields the session's user. */
  function GetUser(lookup: SessionLookup): (r: Result<User, AppError>)
    ensures r.Success? <==> GetSession(lookup).Success?
    ensures r.Success? ==> r.value == GetSession(lookup).value.user
    ensures r.Failure? ==> r.error == GetSession(lookup).error && r.error.Unauthorized?
  {
    var session :- GetSession(lookup);
    Success(session.user)
  }
}
