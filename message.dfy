/** The message service (src/lib/server/effect/services/Message.ts). */
module MessageService {
  import opened Wrappers
  import opened Errors
  import opened Auth
  import opened Database
  import opened Store
  import opened ConversationService

  /** `getForConversation`: the ownership-checked `getById` first, whose failure is the
      result; then the conversation's messages in creation order. `listing` is the store
      as that second query finds it. */
  function GetForConversation(auth: SessionLookup, db: Availability, listing: Availability, t: Tables, cid: string)
    : (r: Result<seq<MessageData>, AppError>)
    ensures r.Success? <==> GetById(auth, db, t, cid).Success? && listing.Up?
    ensures GetById(auth, db, t, cid).Failure? ==> r == Failure(VerifyOwnership(auth, db, t, cid).error)
    ensures GetById(auth, db, t, cid).Success? && listing.Down? ==> r == Failure(Database(listing.cause))
    ensures r.Success? ==> r.value == ListMessages(t.messages, cid)
  {
    var _ :- GetById(auth, db, t, cid);
    match RunQuery(Query(listing, OrderedMessages(t.messages, cid)))
    case Failure(e) => Failure(e)
    case Success(msgs) => Success(ToMessageDataAll(msgs))
  }

  /** A caller who does not own `cid` (or a missing `cid`) gets NotFound, and the outcome
      does not depend on the message table at all: no message is read before the check. */
  lemma NonOwnerReadsNoMessages(auth: SessionLookup, db: Availability, listing: Availability, t: Tables, cid: string,
                                other: seq<MessageRow>)
    requires SignedIn(auth) && db.Up?
    requires forall c :: c in t.conversations && c.id == cid ==> c.userId != UserOf(auth)
    ensures GetForConversation(auth, db, listing, t, cid) == Failure(NotFound(CONVERSATION_RESOURCE, cid))
    ensures GetForConversation(auth, db, listing, Tables(t.conversations, other), cid) == GetForConversation(auth, db, listing, t, cid)
  {
  }

  /** For an owner the listing holds exactly the conversation's messages: one entry per
      stored message of `cid`, in ascending creation order, each carrying that message's
      id, role, content and timestamp. */
  lemma OwnerListsConversationMessages(auth: SessionLookup, db: Availability, listing: Availability, t: Tables, cid: string)
    requires SignedIn(auth) && db.Up? && listing.Up?
    requires exists c :: c in t.conversations && c.id == cid && c.userId == UserOf(auth)
    ensures GetForConversation(auth, db, listing, t, cid).Success?
    ensures var r := GetForConversation(auth, db, listing, t, cid).value;
      && |r| == |MessagesOf(t.messages, cid)|
      && (forall i, j :: 0 <= i < j < |r| ==> r[i].createdAt <= r[j].createdAt)
      && (forall k :: 0 <= k < |r| ==> exists m :: m in t.messages && m.conversationId == cid && r[k] == ToMessageData(m))
      && (forall m :: m in t.messages && m.conversationId == cid ==> ToMessageData(m) in r)
  {
    ListMessagesSpec(t.messages, cid);
  }
}
