/** The conversation service (src/lib/server/effect/services/Conversation.ts): every read
    and write goes through the ownership guard. Reads are functions of the tables; the
    writes are methods of ConversationStore, which holds the tables. */
module ConversationService {
  import opened Wrappers
  import opened Errors
  import opened Auth
  import opened Database
  import opened Models
  import opened Seqs
  import opened Store
  import Adapters

  /** `Conversation` as the service returns it; `firstMessage` is present only in listings. */
  datatype Conversation = Conversation(
    id: string,
    systemPrompt: string,
    model: string,
    createdAt: int,
    updatedAt: int,
    firstMessage: Option<string>)

  datatype ConversationWithMessages = ConversationWithMessages(
    conversation: Conversation,
    messages: seq<MessageData>)

  const CONVERSATION_RESOURCE := "Conversation"

  predicate SignedIn(auth: SessionLookup) {
    GetSession(auth).Success?
  }

  /** The id of the signed-in user, `session.user.id`. */
  function UserOf(auth: SessionLookup): string
    requires SignedIn(auth)
  {
    GetSession(auth).value.user.id
  }

  /** `toConversation`: the row's public fields, without owner, stream pointer or preview. */
  function ToConversation(row: ConversationRow): (c: Conversation)
    ensures c.id == row.id && c.systemPrompt == row.systemPrompt && c.model == row.model
    ensures c.createdAt == row.createdAt && c.updatedAt == row.updatedAt
    ensures c.firstMessage.None?
  {
    Conversation(row.id, row.systemPrompt, row.model, row.createdAt, row.updatedAt, None)
  }

  // ---------------------------------------------------------------------------
  // The ownership guard
  // ---------------------------------------------------------------------------

  /** `WHERE conversation.id = id AND conversation.userId = u LIMIT 1`. */
  function SelectOwned(rows: seq<ConversationRow>, id: string, u: string): (r: seq<ConversationRow>)
    ensures |r| <= 1
    ensures r != [] ==> r[0] in rows && r[0].id == id && r[0].userId == u
    ensures r == [] <==> forall c :: c in rows ==> !(c.id == id && c.userId == u)
  {
    if rows == [] then []
    else if rows[0].id == id && rows[0].userId == u then [rows[0]]
    else SelectOwned(rows[1..], id, u)
  }

  /** `verifyOwnership`: resolve the session, then look the row up by id and owner in one
      query. Success only for a row with that id owned by the caller; otherwise the error
      is the session's, the store's, or NotFound — never Forbidden. */
  function VerifyOwnership(auth: SessionLookup, db: Availability, t: Tables, id: string)
    : (r: Result<ConversationRow, AppError>)
    ensures !SignedIn(auth) ==> r == Failure(GetSession(auth).error)
    ensures SignedIn(auth) && db.Down? ==> r == Failure(Database(db.cause))
    ensures SignedIn(auth) && db.Up? ==>
      (r.Success? <==> exists c :: c in t.conversations && c.id == id && c.userId == UserOf(auth))
    ensures SignedIn(auth) && db.Up? && r.Failure? ==> r.error == NotFound(CONVERSATION_RESOURCE, id)
    ensures r.Success? ==>
      SignedIn(auth) && db.Up? && r.value in t.conversations && r.value.id == id && r.value.userId == UserOf(auth)
    ensures r.Failure? ==> r.error.Unauthorized? || r.error.NotFound? || r.error.Database?
  {
    var session :- GetSession(auth);
    var rows :- RunQuery(Query(db, SelectOwned(t.conversations, id, session.user.id)));
    if rows == [] then Failure(NotFound(CONVERSATION_RESOURCE, id)) else Success(rows[0])
  }

  /** With unique ids, the guarded row is the one row of the table with that id. */
  lemma GuardedRowIsTheRow(auth: SessionLookup, db: Availability, t: Tables, id: string, c: ConversationRow)
    requires WellFormed(t)
    requires VerifyOwnership(auth, db, t, id).Success?
    requires c in t.conversations && c.id == id
    ensures c == VerifyOwnership(auth, db, t, id).value
  {
    var row := VerifyOwnership(auth, db, t, id).value;
    var i :| 0 <= i < |t.conversations| && t.conversations[i] == c;
    var j :| 0 <= j < |t.conversations| && t.conversations[j] == row;
    assert i < j ==> ConversationId(t.conversations[i]) != ConversationId(t.conversations[j]);
    assert j < i ==> ConversationId(t.conversations[j]) != ConversationId(t.conversations[i]);
  }

  /** At the transport boundary a guarded read answers 401 with the session's message when
      nobody is signed in, 500 when the store fails, and the same 404 "Conversation not
      found" for a conversation that is missing as for one that belongs to someone else. */
  lemma GuardAtTheBoundary(auth: SessionLookup, db: Availability, t: Tables, id: string)
    ensures !SignedIn(auth) ==>
      Adapters.RunEffect(VerifyOwnership(auth, db, t, id)) == Failure(Adapters.KitError(401, GetSession(auth).error.message.value))
    ensures SignedIn(auth) && db.Down? ==>
      Adapters.RunEffect(VerifyOwnership(auth, db, t, id)) == Failure(Adapters.KitError(500, "Internal server error"))
    ensures SignedIn(auth) && db.Up? && (forall c :: c in t.conversations && c.id == id ==> c.userId != UserOf(auth)) ==>
      Adapters.RunEffect(VerifyOwnership(auth, db, t, id)) == Failure(Adapters.KitError(404, "Conversation not found"))
  {
    assert CONVERSATION_RESOURCE + " not found" == "Conversation not found";
  }

  /** The rows owned by `u`, in table order. */
  function OwnedRows(rows: seq<ConversationRow>, u: string): seq<ConversationRow> {
    Filter(rows, (c: ConversationRow) => c.userId == u)
  }

  lemma {:induction false} SelectOwnedSeesOnlyOwnRows(rows: seq<ConversationRow>, id: string, u: string)
    ensures SelectOwned(rows, id, u) == SelectOwned(OwnedRows(rows, u), id, u)
  {
    if rows != [] {
      SelectOwnedSeesOnlyOwnRows(rows[1..], id, u);
    }
  }

  /** Other users' conversations are invisible to the guard: its outcome is the same when
      every row the caller does not own is removed from the table. */
  lemma GuardIgnoresOthersRows(auth: SessionLookup, db: Availability, t: Tables, id: string)
    requires SignedIn(auth)
    ensures VerifyOwnership(auth, db, t, id)
         == VerifyOwnership(auth, db, Tables(OwnedRows(t.conversations, UserOf(auth)), t.messages), id)
  {
    SelectOwnedSeesOnlyOwnRows(t.conversations, id, UserOf(auth));
  }

  // ---------------------------------------------------------------------------
  // Reads
  // ---------------------------------------------------------------------------

  /** The preview query's filter: the user-authored messages of `cid`. */
  function UserMessagesOf(messages: seq<MessageRow>, cid: string): seq<MessageRow> {
    Filter(messages, (m: MessageRow) => m.conversationId == cid && m.role == "user")
  }

  /** The preview query: user messages of `cid` by `createdAt` ascending, `LIMIT 1`, and
      then `msgs[0]?.content`. */
  function FirstUserMessage(messages: seq<MessageRow>, cid: string): Option<string> {
    var rows := SortBy(UserMessagesOf(messages, cid), CreatedKey);
    if rows == [] then None else Some(rows[0].content)
  }

  /** The preview is absent exactly when the conversation has no user message; otherwise
      it is the content of a user message created no later than any other. */
  lemma FirstUserMessageSpec(messages: seq<MessageRow>, cid: string)
    ensures FirstUserMessage(messages, cid).None? <==>
      forall m :: m in messages ==> !(m.conversationId == cid && m.role == "user")
    ensures FirstUserMessage(messages, cid).Some? ==>
      exists m :: m in messages && m.conversationId == cid && m.role == "user"
        && m.content == FirstUserMessage(messages, cid).value
        && forall m' :: m' in messages && m'.conversationId == cid && m'.role == "user" ==> m.createdAt <= m'.createdAt
  {
    var f := UserMessagesOf(messages, cid);
    var rows := SortBy(f, CreatedKey);
    PermutationMembers(rows, f);
    if rows == [] {
      forall m | m in messages ensures !(m.conversationId == cid && m.role == "user") {
        var i :| 0 <= i < |messages| && messages[i] == m;
      }
    } else {
      var j :| 0 <= j < |f| && f[j] == rows[0];
      forall m' | m' in messages && m'.conversationId == cid && m'.role == "user"
        ensures rows[0].createdAt <= m'.createdAt
      {
        var i :| 0 <= i < |messages| && messages[i] == m';
        var k :| 0 <= k < |f| && f[k] == m';
        HeadIsLeast(rows, CreatedKey, m');
      }
    }
  }

  function RecencyKey(c: ConversationRow): int { -c.updatedAt }

  /** `ORDER BY conversation.updatedAt DESC`; ties keep table order. */
  function MostRecentFirst(rows: seq<ConversationRow>): (r: seq<ConversationRow>)
    ensures multiset(r) == multiset(rows)
    ensures forall i, j :: 0 <= i < j < |r| ==> r[i].updatedAt >= r[j].updatedAt
  {
    var r := SortBy(rows, RecencyKey);
    assert forall i, j :: 0 <= i < j < |r| ==> RecencyKey(r[i]) <= RecencyKey(r[j]);
    r
  }

  /** One listing entry: the row's public fields and its preview. */
  function WithFirstMessage(row: ConversationRow, first: Option<string>): Conversation {
    Conversation(row.id, row.systemPrompt, row.model, row.createdAt, row.updatedAt, first)
  }

  /** The preview fetches of `getAll`, one query per row (run one after another here),
      assembled by index; the first failing query fails the whole listing. */
  function Previews(db: Availability, messages: seq<MessageRow>, rows: seq<ConversationRow>)
    : (r: Result<seq<Conversation>, AppError>)
    ensures db.Up? ==> (r.Success? && |r.value| == |rows|
      && forall k :: 0 <= k < |rows| ==> r.value[k] == WithFirstMessage(rows[k], FirstUserMessage(messages, rows[k].id)))
    ensures db.Down? && rows != [] ==> r == Failure(Database(db.cause))
  {
    if rows == [] then Success([])
    else
      var first :- RunQuery(Query(db, FirstUserMessage(messages, rows[0].id)));
      match Previews(db, messages, rows[1..])
      case Failure(e) => Failure(e)
      case Success(rest) => Success([WithFirstMessage(rows[0], first)] + rest)
  }

  /** `getAll`: the caller's conversations, most recently updated first, one entry per row
      in that order, each with its preview. */
  function GetAll(auth: SessionLookup, db: Availability, t: Tables): (r: Result<seq<Conversation>, AppError>)
    ensures !SignedIn(auth) ==> r == Failure(GetSession(auth).error)
    ensures SignedIn(auth) && db.Down? ==> r == Failure(Database(db.cause))
    ensures SignedIn(auth) && db.Up? ==> r.Success?
    ensures r.Success? ==> (SignedIn(auth) &&
      var rows := MostRecentFirst(OwnedRows(t.conversations, UserOf(auth)));
      |r.value| == |rows| &&
      forall k :: 0 <= k < |rows| ==> r.value[k] == WithFirstMessage(rows[k], FirstUserMessage(t.messages, rows[k].id)))
  {
    var session :- GetSession(auth);
    var rows :- RunQuery(Query(db, MostRecentFirst(OwnedRows(t.conversations, session.user.id))));
    Previews(db, t.messages, rows)
  }

  /** The listing has one entry per row the caller owns, newest update first. */
  lemma GetAllCountAndOrder(auth: SessionLookup, db: Availability, t: Tables)
    requires SignedIn(auth) && db.Up?
    ensures var r := GetAll(auth, db, t).value;
      && |r| == |OwnedRows(t.conversations, UserOf(auth))|
      && forall i, j :: 0 <= i < j < |r| ==> r[i].updatedAt >= r[j].updatedAt
  {
    var owned := OwnedRows(t.conversations, UserOf(auth));
    PermutationMembers(MostRecentFirst(owned), owned);
  }

  /** Every entry of the listing is a row the caller owns, with that row's preview. */
  lemma GetAllListsOnlyOwnConversations(auth: SessionLookup, db: Availability, t: Tables)
    requires SignedIn(auth) && db.Up?
    ensures var r := GetAll(auth, db, t).value;
      forall k :: 0 <= k < |r| ==>
        exists c :: c in t.conversations && c.userId == UserOf(auth)
          && r[k] == WithFirstMessage(c, FirstUserMessage(t.messages, c.id))
  {
    var r := GetAll(auth, db, t).value;
    var owned := OwnedRows(t.conversations, UserOf(auth));
    var rows := MostRecentFirst(owned);
    PermutationMembers(rows, owned);
    forall k | 0 <= k < |r|
      ensures exists c :: c in t.conversations && c.userId == UserOf(auth) && r[k] == WithFirstMessage(c, FirstUserMessage(t.messages, c.id))
    {
      var j :| 0 <= j < |owned| && owned[j] == rows[k];
    }
  }

  /** Every row the caller owns is listed, with its preview. */
  lemma GetAllListsEveryOwnConversation(auth: SessionLookup, db: Availability, t: Tables)
    requires SignedIn(auth) && db.Up?
    ensures forall c :: c in t.conversations && c.userId == UserOf(auth) ==>
      WithFirstMessage(c, FirstUserMessage(t.messages, c.id)) in GetAll(auth, db, t).value
  {
    var r := GetAll(auth, db, t).value;
    var owned := OwnedRows(t.conversations, UserOf(auth));
    var rows := MostRecentFirst(owned);
    PermutationMembers(rows, owned);
    forall c | c in t.conversations && c.userId == UserOf(auth)
      ensures WithFirstMessage(c, FirstUserMessage(t.messages, c.id)) in r
    {
      var i :| 0 <= i < |t.conversations| && t.conversations[i] == c;
      var j :| 0 <= j < |owned| && owned[j] == c;
      var k :| 0 <= k < |rows| && rows[k] == c;
      assert r[k] == WithFirstMessage(c, FirstUserMessage(t.messages, c.id));
    }
  }

  lemma {:induction false} OwnedRowsIdempotent(rows: seq<ConversationRow>, u: string)
    ensures OwnedRows(OwnedRows(rows, u), u) == OwnedRows(rows, u)
  {
    if rows != [] {
      OwnedRowsIdempotent(rows[1..], u);
    }
  }

  /** Other users' conversations do not affect the listing. */
  lemma GetAllIgnoresOthersRows(auth: SessionLookup, db: Availability, t: Tables)
    requires SignedIn(auth)
    ensures GetAll(auth, db, t) == GetAll(auth, db, Tables(OwnedRows(t.conversations, UserOf(auth)), t.messages))
  {
    OwnedRowsIdempotent(t.conversations, UserOf(auth));
  }

  /** `getById`: the guarded row as a Conversation. */
  function GetById(auth: SessionLookup, db: Availability, t: Tables, id: string): (r: Result<Conversation, AppError>)
    ensures r.Success? <==> VerifyOwnership(auth, db, t, id).Success?
    ensures r.Failure? ==> r.error == VerifyOwnership(auth, db, t, id).error
    ensures r.Success? ==> (SignedIn(auth) &&
      exists c :: c in t.conversations && c.id == id && c.userId == UserOf(auth) && r.value == ToConversation(c))
  {
    var row :- VerifyOwnership(auth, db, t, id);
    Success(ToConversation(row))
  }

  /** `getRaw`: the guarded row itself, owner and stream pointer included. */
  function GetRaw(auth: SessionLookup, db: Availability, t: Tables, id: string): (r: Result<ConversationRow, AppError>)
    ensures r.Success? <==> VerifyOwnership(auth, db, t, id).Success?
    ensures r.Failure? ==> r.error == VerifyOwnership(auth, db, t, id).error
    ensures r.Success? ==> r.value == VerifyOwnership(auth, db, t, id).value
    ensures r.Success? ==> SignedIn(auth) && r.value in t.conversations && r.value.id == id && r.value.userId == UserOf(auth)
    ensures r.Failure? ==> r.error.Unauthorized? || r.error.NotFound? || r.error.Database?
  {
    VerifyOwnership(auth, db, t, id)
  }

  /** `getWithMessages`: the guarded conversation and its message listing. `listing` is
      the store as the second query (the message listing) finds it. */
  function GetWithMessages(auth: SessionLookup, db: Availability, listing: Availability, t: Tables, id: string)
    : (r: Result<ConversationWithMessages, AppError>)
    ensures r.Success? <==> VerifyOwnership(auth, db, t, id).Success? && listing.Up?
    ensures VerifyOwnership(auth, db, t, id).Failure? ==> r == Failure(VerifyOwnership(auth, db, t, id).error)
    ensures VerifyOwnership(auth, db, t, id).Success? && listing.Down? ==> r == Failure(Database(listing.cause))
    ensures r.Success? ==>
      && r.value.conversation == ToConversation(VerifyOwnership(auth, db, t, id).value)
      && r.value.messages == ListMessages(t.messages, id)
  {
    var row :- VerifyOwnership(auth, db, t, id);
    match RunQuery(Query(listing, OrderedMessages(t.messages, id)))
    case Failure(e) => Failure(e)
    case Success(msgs) => Success(ConversationWithMessages(ToConversation(row), ToMessageDataAll(msgs)))
  }

  /** `getActiveStreamId`: the guarded row's stream pointer, None when no stream is active. */
  function GetActiveStreamId(auth: SessionLookup, db: Availability, t: Tables, id: string)
    : (r: Result<Option<string>, AppError>)
    ensures r.Success? <==> VerifyOwnership(auth, db, t, id).Success?
    ensures r.Failure? ==> r.error == VerifyOwnership(auth, db, t, id).error
    ensures r.Success? ==> r.value == VerifyOwnership(auth, db, t, id).value.activeStreamId
  {
    var row :- VerifyOwnership(auth, db, t, id);
    Success(row.activeStreamId)
  }

  // ---------------------------------------------------------------------------
  // Writes on rows
  // ---------------------------------------------------------------------------

  /** The `.set({...})` of an update statement. */
  datatype Patch = SetActiveStream(streamId: Option<string>) | SetModel(model: string, updatedAt: int)

  function Apply(c: ConversationRow, p: Patch): (c': ConversationRow)
    ensures c'.id == c.id && c'.userId == c.userId && c'.systemPrompt == c.systemPrompt && c'.createdAt == c.createdAt
  {
    match p
    case SetActiveStream(streamId) => c.(activeStreamId := streamId)
    case SetModel(model, updatedAt) => c.(model := model, updatedAt := updatedAt)
  }

  /** `UPDATE conversation SET p WHERE id = id`. */
  function UpdateWhere(rows: seq<ConversationRow>, id: string, p: Patch): (r: seq<ConversationRow>)
    ensures |r| == |rows|
    ensures forall i :: 0 <= i < |rows| ==> r[i] == if rows[i].id == id then Apply(rows[i], p) else rows[i]
  {
    seq(|rows|, i requires 0 <= i < |rows| => if rows[i].id == id then Apply(rows[i], p) else rows[i])
  }

  /** `DELETE FROM conversation WHERE id = id`. */
  function DeleteWhere(rows: seq<ConversationRow>, id: string): seq<ConversationRow> {
    Filter(rows, (c: ConversationRow) => c.id != id)
  }

  /** The cascade on `message.conversationId`. */
  function CascadeDelete(messages: seq<MessageRow>, id: string): seq<MessageRow> {
    Filter(messages, (m: MessageRow) => m.conversationId != id)
  }

  /** The row `create` inserts; the stream pointer and both timestamps take the column
      defaults (null and the current time). */
  function NewConversationRow(id: string, userId: string, systemPrompt: string, model: string, now: int): ConversationRow {
    ConversationRow(id, userId, systemPrompt, model, None, now, now)
  }

  lemma UpdateKeepsWellFormed(t: Tables, id: string, p: Patch)
    requires WellFormed(t)
    ensures WellFormed(Tables(UpdateWhere(t.conversations, id, p), t.messages))
  {
    var rows := UpdateWhere(t.conversations, id, p);
    assert ConversationIds(rows) == ConversationIds(t.conversations) by {
      forall x | x in ConversationIds(t.conversations) ensures x in ConversationIds(rows) {
        var c :| c in t.conversations && c.id == x;
        var i :| 0 <= i < |t.conversations| && t.conversations[i] == c;
        assert rows[i].id == x;
      }
    }
  }

  lemma {:induction false} UpdateKeepsOthersRows(rows: seq<ConversationRow>, id: string, p: Patch, v: string)
    requires forall c :: c in rows && c.id == id ==> c.userId != v
    ensures OwnedRows(UpdateWhere(rows, id, p), v) == OwnedRows(rows, v)
  {
    if rows != [] {
      UpdateKeepsOthersRows(rows[1..], id, p, v);
      assert UpdateWhere(rows, id, p)[1..] == UpdateWhere(rows[1..], id, p);
    }
  }

  lemma DeleteKeepsWellFormed(t: Tables, id: string)
    requires WellFormed(t)
    ensures WellFormed(Tables(DeleteWhere(t.conversations, id), CascadeDelete(t.messages, id)))
  {
    var rows := DeleteWhere(t.conversations, id);
    var msgs := CascadeDelete(t.messages, id);
    FilterDistinct(t.conversations, (c: ConversationRow) => c.id != id, ConversationId);
    FilterDistinct(t.messages, (m: MessageRow) => m.conversationId != id, MessageId);
    forall m | m in msgs ensures m.conversationId in ConversationIds(rows) {
      var k :| 0 <= k < |msgs| && msgs[k] == m;
      var c :| c in t.conversations && c.id == m.conversationId;
      var i :| 0 <= i < |t.conversations| && t.conversations[i] == c;
    }
  }

  lemma {:induction false} DeleteKeepsOthersRows(rows: seq<ConversationRow>, id: string, v: string)
    requires forall c :: c in rows && c.id == id ==> c.userId != v
    ensures OwnedRows(DeleteWhere(rows, id), v) == OwnedRows(rows, v)
  {
    if rows != [] {
      DeleteKeepsOthersRows(rows[1..], id, v);
    }
  }

  lemma InsertKeepsWellFormed(t: Tables, row: ConversationRow)
    requires WellFormed(t)
    requires row.id !in ConversationIds(t.conversations)
    ensures WellFormed(Tables(t.conversations + [row], t.messages))
  {
    var rows := t.conversations + [row];
    forall i, j | 0 <= i < j < |rows| ensures ConversationId(rows[i]) != ConversationId(rows[j]) {
      if j == |rows| - 1 {
        assert rows[i] in t.conversations;
      }
    }
  }

  lemma InsertKeepsOthersRows(rows: seq<ConversationRow>, row: ConversationRow, v: string)
    requires row.userId != v
    ensures OwnedRows(rows + [row], v) == OwnedRows(rows, v)
  {
    FilterAppend(rows, [row], (c: ConversationRow) => c.userId == v);
  }

  /** The row a guard found under `id` is owned by the caller, so no other user owns a row
      with that id. */
  lemma GuardedIdBelongsToCaller(auth: SessionLookup, db: Availability, t: Tables, id: string, v: string)
    requires WellFormed(t)
    requires VerifyOwnership(auth, db, t, id).Success?
    requires v != UserOf(auth)
    ensures forall c :: c in t.conversations && c.id == id ==> c.userId != v
  {
    forall c | c in t.conversations && c.id == id ensures c.userId != v {
      GuardedRowIsTheRow(auth, db, t, id, c);
    }
  }

  // ---------------------------------------------------------------------------
  // The store and its writes
  // ---------------------------------------------------------------------------

  /** The conversation and message tables of one database, written only through the
      ownership-guarded operations below. */
  class ConversationStore {
    /** SYSTEM_PROMPT, the prompt every new conversation starts with. */
    const systemPrompt: string
    var conversations: seq<ConversationRow>
    var messages: seq<MessageRow>

    function State(): Tables
      reads this
    {
      Tables(conversations, messages)
    }

    ghost predicate Valid()
      reads this
    {
      WellFormed(State())
    }

    constructor (systemPrompt: string, initial: Tables)
      requires WellFormed(initial)
      ensures Valid()
      ensures this.systemPrompt == systemPrompt && State() == initial
    {
      this.systemPrompt := systemPrompt;
      conversations := initial.conversations;
      messages := initial.messages;
    }

    /** `create`: insert a row owned by the caller with the system prompt and the given
        model or DEFAULT_MODEL, and return its id. `freshId` and `now` stand for
        `crypto.randomUUID()` and the insertion time. */
    method Create(auth: SessionLookup, db: Availability, model: Option<string>, freshId: string, now: int)
      returns (r: Result<string, AppError>)
      requires Valid()
      requires freshId !in ConversationIds(conversations)
      modifies this
      ensures Valid()
      ensures messages == old(messages)
      ensures !SignedIn(auth) ==> r == Failure(GetSession(auth).error) && conversations == old(conversations)
      ensures SignedIn(auth) && db.Down? ==> r == Failure(Database(db.cause)) && conversations == old(conversations)
      ensures SignedIn(auth) && db.Up? ==>
        && r == Success(freshId)
        && conversations == old(conversations)
             + [NewConversationRow(freshId, UserOf(auth), systemPrompt, model.GetOr(DEFAULT_MODEL), now)]
      ensures r.Success? ==>
        GetById(auth, db, State(), freshId)
          == Success(Conversation(freshId, systemPrompt, model.GetOr(DEFAULT_MODEL), now, now, None))
      ensures r.Success? ==> forall v :: v != UserOf(auth) ==> OwnedRows(conversations, v) == OwnedRows(old(conversations), v)
    {
      var session :- GetSession(auth);
      var row := NewConversationRow(freshId, session.user.id, systemPrompt, model.GetOr(DEFAULT_MODEL), now);
      var inserted :- RunQuery(Query(db, ()));
      InsertKeepsWellFormed(State(), row);
      forall v | v != UserOf(auth) ensures OwnedRows(conversations + [row], v) == OwnedRows(conversations, v) {
        InsertKeepsOthersRows(conversations, row, v);
      }
      conversations := conversations + [row];
      GuardedRowIsTheRow(auth, db, State(), freshId, row);
      r := Success(freshId);
    }

    /** `delete`: after the guard, remove the row; its messages go with it. `write` is the
        store as the DELETE statement finds it. */
    method Delete(auth: SessionLookup, db: Availability, write: Availability, id: string) returns (r: Result<(), AppError>)
      requires Valid()
      modifies this
      ensures Valid()
      ensures var guard := VerifyOwnership(auth, db, old(State()), id);
        && (guard.Failure? ==> r == Failure(guard.error) && State() == old(State()))
        && (guard.Success? && write.Down? ==> r == Failure(Database(write.cause)) && State() == old(State()))
        && (guard.Success? && write.Up? ==>
              && r == Success(())
              && conversations == DeleteWhere(old(conversations), id)
              && messages == CascadeDelete(old(messages), id))
      ensures r.Success? ==> GetById(auth, db, State(), id) == Failure(NotFound(CONVERSATION_RESOURCE, id))
      ensures r.Success? ==> forall m :: m in messages ==> m.conversationId != id
      ensures r.Success? ==> forall v :: v != UserOf(auth) ==> OwnedRows(conversations, v) == OwnedRows(old(conversations), v)
    {
      var row :- VerifyOwnership(auth, db, State(), id);
      match RunQuery(Query(write, ())) {
        case Failure(e) => r := Failure(e); return;
        case Success(_) =>
      }
      DeleteKeepsWellFormed(State(), id);
      forall v | v != UserOf(auth) ensures OwnedRows(DeleteWhere(conversations, id), v) == OwnedRows(conversations, v) {
        GuardedIdBelongsToCaller(auth, db, State(), id, v);
        DeleteKeepsOthersRows(conversations, id, v);
      }
      conversations := DeleteWhere(conversations, id);
      messages := CascadeDelete(messages, id);
      r := Success(());
    }

    /** `setActiveStreamId`: after the guard, set the stream pointer of the row and change
        nothing else, `updatedAt` included. `write` is the store as the UPDATE finds it. */
    method SetActiveStreamId(auth: SessionLookup, db: Availability, write: Availability, id: string, streamId: Option<string>)
      returns (r: Result<(), AppError>)
      requires Valid()
      modifies this
      ensures Valid()
      ensures messages == old(messages)
      ensures var guard := VerifyOwnership(auth, db, old(State()), id);
        && (guard.Failure? ==> r == Failure(guard.error) && conversations == old(conversations))
        && (guard.Success? && write.Down? ==> r == Failure(Database(write.cause)) && conversations == old(conversations))
        && (guard.Success? && write.Up? ==> r == Success(()) && conversations == UpdateWhere(old(conversations), id, SetActiveStream(streamId)))
      ensures |conversations| == |old(conversations)|
      ensures forall i :: 0 <= i < |conversations| ==>
        conversations[i] == old(conversations)[i].(activeStreamId := conversations[i].activeStreamId)
      ensures r.Success? ==> GetActiveStreamId(auth, db, State(), id) == Success(streamId)
      ensures r.Success? ==> forall v :: v != UserOf(auth) ==> OwnedRows(conversations, v) == OwnedRows(old(conversations), v)
    {
      var row :- VerifyOwnership(auth, db, State(), id);
      match RunQuery(Query(write, ())) {
        case Failure(e) => r := Failure(e); return;
        case Success(_) =>
      }
      var patch := SetActiveStream(streamId);
      UpdateKeepsWellFormed(State(), id, patch);
      forall v | v != UserOf(auth) ensures OwnedRows(UpdateWhere(conversations, id, patch), v) == OwnedRows(conversations, v) {
        GuardedIdBelongsToCaller(auth, db, State(), id, v);
        UpdateKeepsOthersRows(conversations, id, patch, v);
      }
      conversations := UpdateWhere(conversations, id, patch);
      var updated := row.(activeStreamId := streamId);
      assert updated in conversations && updated.id == id && updated.userId == UserOf(auth);
      GuardedRowIsTheRow(auth, db, State(), id, updated);
      r := Success(());
    }

    /** `updateModel`: after the guard, set the row's model and stamp `updatedAt`; no
        model-id check is made here. `write` is the store as the UPDATE finds it. */
    method UpdateModel(auth: SessionLookup, db: Availability, write: Availability, id: string, model: string, now: int)
      returns (r: Result<(), AppError>)
      requires Valid()
      modifies this
      ensures Valid()
      ensures messages == old(messages)
      ensures var guard := VerifyOwnership(auth, db, old(State()), id);
        && (guard.Failure? ==> r == Failure(guard.error) && conversations == old(conversations))
        && (guard.Success? && write.Down? ==> r == Failure(Database(write.cause)) && conversations == old(conversations))
        && (guard.Success? && write.Up? ==> r == Success(()) && conversations == UpdateWhere(old(conversations), id, SetModel(model, now)))
      ensures |conversations| == |old(conversations)|
      ensures forall i :: 0 <= i < |conversations| ==>
        conversations[i] == old(conversations)[i].(model := conversations[i].model, updatedAt := conversations[i].updatedAt)
      ensures r.Success? ==>
        GetById(auth, db, State(), id).Success? &&
        GetById(auth, db, State(), id).value.model == model && GetById(auth, db, State(), id).value.updatedAt == now
      ensures r.Success? ==> forall v :: v != UserOf(auth) ==> OwnedRows(conversations, v) == OwnedRows(old(conversations), v)
    {
      var row :- VerifyOwnership(auth, db, State(), id);
      match RunQuery(Query(write, ())) {
        case Failure(e) => r := Failure(e); return;
        case Success(_) =>
      }
      var patch := SetModel(model, now);
      UpdateKeepsWellFormed(State(), id, patch);
      forall v | v != UserOf(auth) ensures OwnedRows(UpdateWhere(conversations, id, patch), v) == OwnedRows(conversations, v) {
        GuardedIdBelongsToCaller(auth, db, State(), id, v);
        UpdateKeepsOthersRows(conversations, id, patch, v);
      }
      conversations := UpdateWhere(conversations, id, patch);
      var updated := row.(model := model, updatedAt := now);
      assert updated in conversations && updated.id == id && updated.userId == UserOf(auth);
      GuardedRowIsTheRow(auth, db, State(), id, updated);
      r := Success(());
    }
  }
}
