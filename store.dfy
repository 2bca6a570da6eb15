/** The two relational tables the services read and write, as in-memory rows, and the
    message listing that both services run. The Drizzle schema is not part of this model;
    the columns below are the ones the services use. */
module Store {
  import opened Wrappers
  import opened Seqs

  /** A `conversation` row; timestamps are clock readings. */
  datatype ConversationRow = ConversationRow(
    id: string,
    userId: string,
    systemPrompt: string,
    model: string,
    activeStreamId: Option<string>,
    createdAt: int,
    updatedAt: int)

  /** A `message` row. */
  datatype MessageRow = MessageRow(
    id: string,
    conversationId: string,
    role: string,
    content: string,
    createdAt: int)

  datatype Tables = Tables(conversations: seq<ConversationRow>, messages: seq<MessageRow>)

  function ConversationId(c: ConversationRow): string { c.id }
  function MessageId(m: MessageRow): string { m.id }

  function ConversationIds(rows: seq<ConversationRow>): set<string> {
    set c | c in rows :: c.id
  }

  /** Primary keys are unique and every message belongs to a stored conversation. */
  predicate WellFormed(t: Tables) {
    && DistinctBy(t.conversations, ConversationId)
    && DistinctBy(t.messages, MessageId)
    && forall m :: m in t.messages ==> m.conversationId in ConversationIds(t.conversations)
  }

  /** `MessageData`: what a listing returns for one message. */
  datatype MessageData = MessageData(id: string, role: string, content: string, createdAt: int)

  function ToMessageData(m: MessageRow): MessageData {
    MessageData(m.id, m.role, m.content, m.createdAt)
  }

  /** `WHERE message.conversationId = cid`. */
  function MessagesOf(messages: seq<MessageRow>, cid: string): seq<MessageRow> {
    Filter(messages, (m: MessageRow) => m.conversationId == cid)
  }

  function CreatedKey(m: MessageRow): int { m.createdAt }

  /** `ORDER BY message.createdAt ASC` over the messages of `cid`. Ties keep table order,
      which SQL leaves unspecified. */
  function OrderedMessages(messages: seq<MessageRow>, cid: string): (rows: seq<MessageRow>)
    ensures multiset(rows) == multiset(MessagesOf(messages, cid))
    ensures SortedBy(rows, CreatedKey)
  {
    SortBy(MessagesOf(messages, cid), CreatedKey)
  }

  function ToMessageDataAll(rows: seq<MessageRow>): (r: seq<MessageData>)
    ensures |r| == |rows|
    ensures forall k :: 0 <= k < |rows| ==> r[k] == ToMessageData(rows[k])
  {
    seq(|rows|, k requires 0 <= k < |rows| => ToMessageData(rows[k]))
  }

  /** The message listing both services run: the conversation's messages in creation
      order, each as MessageData. */
  function ListMessages(messages: seq<MessageRow>, cid: string): seq<MessageData> {
    ToMessageDataAll(OrderedMessages(messages, cid))
  }

  /** The listing has one entry per stored message of `cid`, in ascending creation order,
      each entry the id, role, content and timestamp of one such message, and every such
      message appears. */
  lemma ListMessagesSpec(messages: seq<MessageRow>, cid: string)
    ensures |ListMessages(messages, cid)| == |MessagesOf(messages, cid)|
    ensures forall i, j :: 0 <= i < j < |ListMessages(messages, cid)| ==>
      ListMessages(messages, cid)[i].createdAt <= ListMessages(messages, cid)[j].createdAt
    ensures forall k :: 0 <= k < |ListMessages(messages, cid)| ==>
      exists m :: m in messages && m.conversationId == cid && ListMessages(messages, cid)[k] == ToMessageData(m)
    ensures forall m :: m in messages && m.conversationId == cid ==> ToMessageData(m) in ListMessages(messages, cid)
  {
    var rows := OrderedMessages(messages, cid);
    var f := MessagesOf(messages, cid);
    PermutationMembers(rows, f);
    var r := ListMessages(messages, cid);
    forall k | 0 <= k < |r|
      ensures exists m :: m in messages && m.conversationId == cid && r[k] == ToMessageData(m)
    {
      var j :| 0 <= j < |f| && f[j] == rows[k];
    }
    forall m | m in messages && m.conversationId == cid ensures ToMessageData(m) in r {
      var i :| 0 <= i < |messages| && messages[i] == m;
      var j :| 0 <= j < |f| && f[j] == m;
      var k :| 0 <= k < |rows| && rows[k] == m;
      assert r[k] == ToMessageData(m);
    }
  }
}
