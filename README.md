# Request-scoped service layer of a resumable-chat server, in Dafny

This project models the service layer of a SvelteKit chat application in which a user
holds conversations with a language model. The layer has five parts:

- **Error taxonomy** (`Errors`). AppError has exactly five kinds: Unauthorized, NotFound,
  Validation, Forbidden and Database. Each kind has a documented HTTP status.
- **Transport boundary** (`Adapters`). `mapErrorToKit` turns an AppError into a status and
  a message. The catch-all of `runEffect` sends every failure through it once.
- **Session resolution** (`Auth`, `SessionRoute`). The strict resolver `getSession` fails
  with Unauthorized. The optional resolver `tryGetSession` turns any failure into "no
  session".
- **Store accessor** (`Database`). `runQuery` passes a resolved query through and wraps
  any rejection as a DatabaseError.
- **Conversation and message services** (`ConversationService`, `MessageService`). Every
  read and write of a conversation goes through the ownership guard `verifyOwnership`. The
  guard looks a row up by id and owner in one query. A miss is NotFound, never Forbidden.
  The writes are create, delete, update-model and setting the active-stream pointer.

Two pure helpers sit beside them: the model catalog (`Models`) and the two text
extractions from message parts (`TextParts`, `ServerTextParts`).

Foreign calls become inputs:

- The better-auth session lookup is a `SessionLookup`: it threw, returned null, or
  returned a session.
- The database is an `Availability`: `Up`, or `Down(cause)` where a query rejects with
  that cause. The ownership guard and the queries that read the caller's rows share one
  `Availability` (`db`). The query that follows a passed guard has its own: `listing` for
  the message listing, `write` for an UPDATE or DELETE. So "guard passes, then the next
  query fails" is modelled, and a failed write leaves the tables unchanged.
- Fresh ids and the clock are parameters.

The conversation and message tables are in-memory rows. Reads are functions of a
`Tables` value. The writes are methods of the class `ConversationStore`, which holds the
two tables. Its invariant is that primary keys are unique and every message belongs to a
stored conversation. Each write states the whole new state. It also states that rows
owned by other users are untouched, and what a following read returns.

`Seqs` and `Store` hold the shared query shapes: WHERE as a filter, ORDER BY as a stable
insertion sort, and the message listing both services run.

Three behaviours of the code that a reader might not expect:

- The services do not check the model id. Only the HTTP route for model updates calls
  `isValidModel`, so `UpdateModel` and `Create` accept any model string.
- The preview fetches of `getAll` run with unbounded concurrency in the code. Here they
  run one after another, assembled by index as the code assembles them.
- `setActiveStreamId` does not touch `updatedAt`.

## Model

| member | source | states |
|---|---|---|
| Errors.DocumentedStatus | src/lib/server/effect/errors.ts:8-48 | Each kind has its documented status: Unauthorized 401, NotFound 404, Validation 400, Forbidden 403, Database 500. Only Database is a server error. |
| Errors.StatusDeterminesKind | src/lib/server/effect/errors.ts:8-59 | Two errors with the same documented status are of the same kind. |
| Adapters.MapErrorToKit | src/lib/server/effect/adapters.ts:18-29 | The mapping is total over the five kinds and gives each its documented status. Unauthorized and Forbidden keep their message or default to "Unauthorized" / "Forbidden". NotFound says "<resource> not found". Validation keeps its message. Database always says "Internal server error". |
| Adapters.RunEffect | src/lib/server/effect/adapters.ts:40-54 | A success passes through unchanged. A failure becomes exactly MapErrorToKit of its error. |
| Adapters.NotFoundHidesId | src/lib/server/effect/adapters.ts:23 | The 404 response does not depend on the id that was asked for. |
| Adapters.DatabaseCauseNeverLeaks | src/lib/server/effect/adapters.ts:26 | Two store failures with different causes give the same 500 response. |
| Database.RunQuery | src/lib/server/effect/services/Database.ts:33-40 | A resolved value passes through unchanged. A rejection becomes a DatabaseError that holds the rejection as its cause. No other error kind is produced. |
| Auth.GetSession | src/lib/server/effect/services/Auth.ts:30-43 | A thrown lookup gives Unauthorized("Failed to verify session"). A null session gives Unauthorized("Not authenticated"). A session is returned unchanged. Every failure is Unauthorized. |
| Auth.GetUser | src/lib/server/effect/services/Auth.ts:53 | Fails exactly when GetSession fails, with the same Unauthorized error. On success it yields session.user. |
| SessionRoute.TryGetSession | src/routes/data.remote.ts:7-13 | Never fails. It yields the session when GetSession succeeds and null when GetSession fails. |
| SessionRoute.TryGetSessionSwallowsUnauthorized | src/routes/data.remote.ts:12 | A thrown lookup and a missing session both yield null, so the 401 mapping is never reached. A session is present exactly when the lookup returned one. |
| Models.GetModelsByProvider | src/lib/ai/models.ts:49-57 | The loop's Map has the providers as keys, in order of first appearance. Each provider's group is exactly the catalog's models of that provider, in catalog order. |
| Models.GroupMembership | src/lib/ai/models.ts:49-57 | A model is in the group of provider p exactly when it is in the catalog and its provider is p. |
| Models.GroupOfConcat | src/lib/ai/models.ts:51-55 | Grouping distributes over concatenation, so groups keep the catalog's relative order. |
| Models.ProviderOrderKeys | src/lib/ai/models.ts:49-57 | The keys are distinct and are exactly the providers that occur. |
| Models.GroupSizesCover | src/lib/ai/models.ts:49-57 | Over distinct keys covering every provider, the group sizes add up to the number of models. |
| Models.GroupSizesSumToCatalog | src/lib/ai/models.ts:49-57 | The sizes of the groups sum to MODELS.length. |
| Models.GetModelById | src/lib/ai/models.ts:60-62 | A model found is in the catalog and has the id. Nothing is found exactly when no catalog model has the id. |
| Models.IsValidModel | src/lib/ai/models.ts:65-67 | An id is valid exactly when getModelById finds a model for it. |
| Models.FindById | src/lib/ai/models.ts:60-62 | `find` returns None exactly when no model has the id. Otherwise it returns a model with the id, and no earlier model has that id. |
| Models.ValidIffFound | src/lib/ai/models.ts:65-67 | isValidModel(id) holds exactly when getModelById(id) is defined, and the model found has that id. |
| Models.DefaultModelIsValid | src/lib/ai/models.ts:46 | DEFAULT_MODEL is "google/gemini-3-flash-preview", the id of MODELS[0]. It is valid. |
| TextParts.ExtractTextFromParts | src/lib/ai/utils.ts:8-18 | A list with no text part that carries a string text gives "". |
| TextParts.ExtractAppend | src/lib/ai/utils.ts:8-18 | Extraction distributes over concatenation of part lists. |
| TextParts.ExtractBase | src/lib/ai/utils.ts:11-17 | The empty list gives "". A text part with a string text gives that text. Any other single part gives "". |
| TextParts.NonTextPartsContributeNothing | src/lib/ai/utils.ts:12-15 | Inserting a part of another type, or one with a missing text, anywhere does not change the result. |
| ServerTextParts.ServerExtractText | src/lib/server/ai/utils.ts:6-11 | A list with no part of type "text" gives "". |
| ServerTextParts.ServerExtractAppend | src/lib/server/ai/utils.ts:6-11 | The server variant distributes over concatenation of part lists. |
| ServerTextParts.ServerExtractBase | src/lib/server/ai/utils.ts:7-10 | The empty list gives "". A part of type "text" gives its text. A part of any other type gives "". |
| ServerTextParts.VariantsAgree | src/lib/server/ai/utils.ts:6-11 | The two variants agree on every input. A "text" part whose text is missing is skipped by one and adds "" in the other, since `join` writes `undefined` as "". |
| Store.ListMessagesSpec | src/lib/server/effect/services/Message.ts:59-72 | The listing has one entry per stored message of the conversation, in ascending createdAt order. Each entry carries one such message's id, role, content and timestamp, and every such message appears. |
| ConversationService.VerifyOwnership | src/lib/server/effect/services/Conversation.ts:116-141 | A session failure is returned as is, and a store failure as Database. Otherwise it succeeds exactly when a row has this id and the caller as owner, and returns that row. A miss is NotFound("Conversation", id). It never gives Forbidden or Validation. |
| ConversationService.GuardedRowIsTheRow | src/lib/server/effect/services/Conversation.ts:121-140 | With unique ids, the row the guard returns is the only row with that id. |
| ConversationService.GuardIgnoresOthersRows | src/lib/server/effect/services/Conversation.ts:121-132 | The guard's outcome is the same after removing every row the caller does not own, so other users' rows are unobservable. |
| ConversationService.GuardAtTheBoundary | src/lib/server/effect/services/Conversation.ts:134-138 | Through runEffect, the guard gives 401 with the session's message when nobody is signed in, and 500 when the store fails. A missing conversation and another user's conversation both give the same 404 "Conversation not found". |
| ConversationService.ToConversation | src/lib/server/effect/services/Conversation.ts:146-152 | Copies id, system prompt, model and both timestamps. It drops the owner and the stream pointer and has no preview. |
| ConversationService.FirstUserMessageSpec | src/lib/server/effect/services/Conversation.ts:176-193 | The preview is absent exactly when the conversation has no "user" message. Otherwise it is the content of a user message created no later than any other. |
| ConversationService.MostRecentFirst | src/lib/server/effect/services/Conversation.ts:165-171 | The rows are reordered, with none lost or added, by updatedAt descending. |
| ConversationService.Previews | src/lib/server/effect/services/Conversation.ts:174-199 | With the store up, there is one entry per row, by index, each the row with its preview. With the store down, a non-empty listing fails with Database. |
| ConversationService.GetAll | src/lib/server/effect/services/Conversation.ts:161-202 | A session failure or a store failure is returned. Otherwise the result is the caller's rows, most recent first, each with its preview. |
| ConversationService.GetAllCountAndOrder | src/lib/server/effect/services/Conversation.ts:165-201 | There are as many entries as rows the caller owns, ordered by updatedAt descending. |
| ConversationService.GetAllListsOnlyOwnConversations | src/lib/server/effect/services/Conversation.ts:165-201 | Every entry is a row the caller owns, with that row's preview. |
| ConversationService.GetAllListsEveryOwnConversation | src/lib/server/effect/services/Conversation.ts:165-201 | Every row the caller owns is listed, with its preview. |
| ConversationService.GetAllIgnoresOthersRows | src/lib/server/effect/services/Conversation.ts:165-171 | The listing is the same after removing every row the caller does not own. |
| ConversationService.GetById | src/lib/server/effect/services/Conversation.ts:204-205 | Fails exactly as the guard fails. On success it gives ToConversation of a row with this id that the caller owns. |
| ConversationService.GetRaw | src/lib/server/effect/services/Conversation.ts:207 | Succeeds exactly when the guard succeeds, and then gives the guarded row itself: this id, owned by the caller, owner and stream pointer included. It fails with the guard's error, so only with Unauthorized, NotFound or Database. |
| ConversationService.GetWithMessages | src/lib/server/effect/services/Conversation.ts:209-230 | A failed guard gives the guard's error. After a passed guard, a failed listing query gives Database. It succeeds exactly when both pass, and then gives the guarded conversation and the message listing of that id. |
| ConversationService.GetActiveStreamId | src/lib/server/effect/services/Conversation.ts:280-284 | Fails exactly as the guard fails. On success it gives the guarded row's stream pointer, None when cleared. |
| ConversationService.ConversationStore.Create | src/lib/server/effect/services/Conversation.ts:232-248 | A session or store failure leaves the tables unchanged. Otherwise it appends one row with the fresh id, owned by the caller, with the system prompt and the given model or DEFAULT_MODEL. It returns the id, and getById then finds the row. Other users' rows are untouched. |
| ConversationService.ConversationStore.Delete | src/lib/server/effect/services/Conversation.ts:250-256 | A failed guard returns its error and removes nothing. A failed DELETE after a passed guard gives Database and removes nothing. Otherwise it removes the row and its messages, by the cascade documented at Conversation.ts:74, and getById then gives NotFound. Other users' rows are untouched. |
| ConversationService.ConversationStore.SetActiveStreamId | src/lib/server/effect/services/Conversation.ts:258-267 | A failed guard changes nothing. A failed UPDATE after a passed guard gives Database and changes nothing. Otherwise only activeStreamId of that row changes; updatedAt does not. getActiveStreamId then returns the new value, None when cleared. |
| ConversationService.ConversationStore.UpdateModel | src/lib/server/effect/services/Conversation.ts:269-278 | A failed guard changes nothing. A failed UPDATE after a passed guard gives Database and changes nothing. Otherwise only model and updatedAt of that row change, and getById then shows both. Other users' rows are untouched. |
| MessageService.GetForConversation | src/lib/server/effect/services/Message.ts:53-73 | A failed getById gives the guard's error. After it passes, a failed listing query gives Database. It succeeds exactly when both pass, and then gives the message listing of the conversation. |
| MessageService.NonOwnerReadsNoMessages | src/lib/server/effect/services/Message.ts:56-57 | A signed-in caller who does not own the id gets NotFound. The outcome does not depend on the message table. |
| MessageService.OwnerListsConversationMessages | src/lib/server/effect/services/Message.ts:59-72 | For the owner, the result has one entry per stored message of the conversation, ordered by createdAt ascending. Each entry preserves id, role and content, and every stored message appears. |

## Left out

- The Effect runtime and its layer wiring are not modelled: `layers.ts`, `index.ts`, `services/index.ts`, `RequestContext.ts`, and the `effectQuery` / `effectCommand` wrappers. Services take the session lookup and store availability as parameters.
- The resumable stream protocol is not modelled: start, resume, and the Redis-backed channel. Its endpoint and the Redis client are not part of this model. Only the pointer operations `setActiveStreamId` and `getActiveStreamId` are modelled.
- SQL building and the Drizzle schema are not modelled. The tables are in-memory sequences. The message cascade on delete follows the doc comment on `delete`. Column defaults follow the values that `create` leaves unset: a null pointer and the insertion time for both timestamps.
- Store failures are modelled per group of queries. `getAll` reads the caller's rows and then fetches the previews with one `Availability`. A failure of only some of its preview fetches is not modelled.
- Rows with equal timestamps are listed in table order. SQL leaves their order unspecified, so here the model is more precise than the code's promise. These contracts give the exact sorted sequence and so fix that order: `GetAll`, `GetAllIgnoresOthersRows`, `GetWithMessages` and `MessageService.GetForConversation`. These do not depend on it: `GetAllCountAndOrder`, `GetAllListsOnlyOwnConversations`, `GetAllListsEveryOwnConversation`, `MostRecentFirst`, `Store.ListMessagesSpec`, `FirstUserMessageSpec` and `OwnerListsConversationMessages`.
- Timestamps are integers from a clock parameter, and `toISOString` is not modelled.
- The fresh id of `create` is a parameter, required to be unused. It stands for `crypto.randomUUID()`.
- The text of SYSTEM_PROMPT is not modelled, because `src/lib/ai/config.ts` is not part of this model. It is a constructor parameter of the store.
- The unbounded concurrency of the preview fetches in `getAll` is not modelled. The fetches run in sequence, and the results are assembled by index in both.
- Only some of better-auth's session fields are modelled. A session holds its id and a user (id, name, email); other fields are not used by the services.
- A Database error's `cause` is a value of a small datatype rather than `unknown`.
- Models.GetModelsByProvider: groups over the constant catalog. The JavaScript Map is modelled as its key order plus its entries.
