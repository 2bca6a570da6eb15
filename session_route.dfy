/** The optional resolver of the landing page (src/routes/data.remote.ts). */
module SessionRoute {
  import opened Wrappers
  import opened Adapters
  import opened Auth

  /** `tryGetSession`: `Effect.option` then `Option.getOrNull` turn every failure of
      GetSession into "no session" before `runEffect` sees it, so the query never fails. */
  function TryGetSession(lookup: SessionLookup): (r: Result<Option<Session>, KitError>)
    ensures r.Success?
    ensures GetSession(lookup).Success? ==> r.value == Some(GetSession(lookup).value)
    ensures GetSession(lookup).Failure? ==> r.value == None
  {
    RunEffect(Success(GetSession(lookup).ToOption()))
  }

  /** Both ways GetSession can fail — the lookup threw, or found no session — read as
      "no session", and neither reaches the 401 mapping. */
  lemma TryGetSessionSwallowsUnauthorized(lookup: SessionLookup)
    ensures lookup.Threw? ==> TryGetSession(lookup) == Success(None)
    ensures lookup == Returned(None) ==> TryGetSession(lookup) == Success(None)
    ensures TryGetSession(lookup).value.Some? <==> lookup.Returned? && lookup.session.Some?
  {
  }
}
