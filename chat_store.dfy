/** The development-mode store of the chat server: two module-level arrays,
    `conversations` and `messages`, that the endpoints append to, filter and
    read. Identifiers (`uuidv4()`) and creation times (`new Date()`) are
    parameters; creation times are milliseconds since the epoch. */
module ChatStore {
  import opened Sequences
  import opened Replies

  /** The single owning identity every handler uses. */
  const MockUserId := "demo-user-123"

  datatype Conversation = Conversation(id: string, title: string, userId: string, createdAt: int)

  datatype Role = User | Assistant

  datatype Message = Message(id: string, content: string, role: Role, conversationId: string,
                             userId: string, createdAt: int)

  function OwnedByMockUser(c: Conversation): bool {
    c.userId == MockUserId
  }

  /** Sort key that puts later conversations first. */
  function NewestFirst(c: Conversation): int {
    -c.createdAt
  }

  /** Sort key that puts earlier messages first. */
  function OldestFirst(m: Message): int {
    m.createdAt
  }

  /** The messages `getMessages` returns for a conversation. */
  function InThread(conversationId: string): Message -> bool {
    (m: Message) => m.conversationId == conversationId && m.userId == MockUserId
  }

  function OutsideConversation(conversationId: string): Message -> bool {
    (m: Message) => m.conversationId != conversationId
  }

  function OtherConversation(conversationId: string): Conversation -> bool {
    (c: Conversation) => c.id != conversationId
  }

  lemma FilterCountsAll<T(!new)>(s: seq<T>, p: T -> bool)
    ensures forall x :: multiset(Filter(s, p))[x] == if p(x) then multiset(s)[x] else 0
    ensures forall x :: x in Filter(s, p) <==> x in s && p(x)
  {
    forall x ensures multiset(Filter(s, p))[x] == (if p(x) then multiset(s)[x] else 0)
                  && (x in Filter(s, p) <==> x in s && p(x)) {
      FilterCounts(s, p, x);
    }
  }

  /** `getConversations`: the stored conversations of the demo user, newest first. */
  function ListConversations(conversations: seq<Conversation>): (r: seq<Conversation>)
    ensures forall c :: c in r <==> c in conversations && c.userId == MockUserId
    ensures forall c :: multiset(r)[c] == if c.userId == MockUserId then multiset(conversations)[c] else 0
    ensures forall i, j :: 0 <= i < j < |r| ==> r[i].createdAt >= r[j].createdAt
  {
    FilterCountsAll(conversations, OwnedByMockUser);
    SortByCorrect(Filter(conversations, OwnedByMockUser), NewestFirst);
    SortBy(Filter(conversations, OwnedByMockUser), NewestFirst)
  }

  /** `getMessages`: the stored messages of one conversation and the demo user,
      oldest first. */
  function ListMessages(messages: seq<Message>, conversationId: string): (r: seq<Message>)
    ensures forall m :: m in r <==> m in messages && m.conversationId == conversationId && m.userId == MockUserId
    ensures forall m :: multiset(r)[m] ==
              if m.conversationId == conversationId && m.userId == MockUserId then multiset(messages)[m] else 0
    ensures forall i, j :: 0 <= i < j < |r| ==> r[i].createdAt <= r[j].createdAt
  {
    FilterCountsAll(messages, InThread(conversationId));
    SortByCorrect(Filter(messages, InThread(conversationId)), OldestFirst);
    SortBy(Filter(messages, InThread(conversationId)), OldestFirst)
  }

  /** Every message belongs to a stored conversation. */
  ghost predicate ThreadsExist(conversations: seq<Conversation>, messages: seq<Message>) {
    forall m :: m in messages ==> exists c :: c in conversations && c.id == m.conversationId
  }

  function SeedConversations(now: int): seq<Conversation> {
    [ Conversation("550e8400-e29b-41d4-a716-446655440000", "Welcome Chat", MockUserId, now),
      Conversation("550e8400-e29b-41d4-a716-446655440001", "AI Assistant Help", MockUserId, now - 24 * 60 * 60 * 1000) ]
  }

  function SeedMessages(now: int): seq<Message> {
    [ Message("550e8400-e29b-41d4-a716-446655440002",
              "Hello! Welcome to your AI assistant. How can I help you today?",
              Assistant, "550e8400-e29b-41d4-a716-446655440000", MockUserId, now) ]
  }

  class DevStore {
    var conversations: seq<Conversation>
    var messages: seq<Message>

    /** The store as loaded, seeded with two conversations and one message. */
    constructor (now: int)
      ensures conversations == SeedConversations(now) && messages == SeedMessages(now)
      ensures ThreadsExist(conversations, messages)
    {
      conversations := SeedConversations(now);
      messages := SeedMessages(now);
      new;
      assert conversations[0].id == messages[0].conversationId;
    }

    method GetConversations() returns (r: seq<Conversation>)
      ensures r == ListConversations(conversations)
    {
      r := ListConversations(conversations);
    }

    method GetMessages(conversationId: string) returns (r: seq<Message>)
      ensures r == ListMessages(messages, conversationId)
    {
      r := ListMessages(messages, conversationId);
    }

    /** `createConversation`: appends one conversation of the demo user and returns it. */
    method CreateConversation(title: string, id: string, now: int) returns (c: Conversation)
      modifies this
      ensures c == Conversation(id, title, MockUserId, now)
      ensures conversations == old(conversations) + [c]
      ensures messages == old(messages)
    {
      c := Conversation(id, title, MockUserId, now);
      conversations := conversations + [c];
    }

    /** `sendMessage`: appends the user's message, then the assistant's mock reply,
        and returns both. The conversation is not looked up. */
    method SendMessage(content: string, conversationId: string, modelType: ModelType,
                       userMessageId: string, assistantMessageId: string,
                       userAt: int, assistantAt: int, pick: nat)
      returns (userMessage: Message, assistantMessage: Message)
      requires pick < 3
      modifies this
      ensures userMessage == Message(userMessageId, content, User, conversationId, MockUserId, userAt)
      ensures assistantMessage == Message(assistantMessageId, MockReply(content, modelType, pick), Assistant,
                                          conversationId, MockUserId, assistantAt)
      ensures messages == old(messages) + [userMessage, assistantMessage]
      ensures conversations == old(conversations)
    {
      userMessage := Message(userMessageId, content, User, conversationId, MockUserId, userAt);
      messages := messages + [userMessage];
      var aiResponse := MockReply(content, modelType, pick);
      assistantMessage := Message(assistantMessageId, aiResponse, Assistant, conversationId, MockUserId, assistantAt);
      ghost var before := messages;
      messages := messages + [assistantMessage];
      assert messages == before + [assistantMessage];
      assert before + [assistantMessage] == old(messages) + [userMessage, assistantMessage];
    }

    /** `deleteConversation`: drops the conversation's messages, then the
        conversation, whoever owns them; always reports success. */
    method DeleteConversation(conversationId: string) returns (success: bool)
      modifies this
      ensures success
      ensures messages == Filter(old(messages), OutsideConversation(conversationId))
      ensures conversations == Filter(old(conversations), OtherConversation(conversationId))
    {
      messages := Filter(messages, OutsideConversation(conversationId));
      conversations := Filter(conversations, OtherConversation(conversationId));
      success := true;
    }
  }

  /** After a deletion the conversation's thread is empty and the conversation is
      no longer listed. */
  lemma DeleteRemovesConversation(conversations: seq<Conversation>, messages: seq<Message>, conversationId: string)
    ensures ListMessages(Filter(messages, OutsideConversation(conversationId)), conversationId) == []
    ensures forall c :: c in ListConversations(Filter(conversations, OtherConversation(conversationId))) ==>
              c.id != conversationId
  {
    FilterCountsAll(messages, OutsideConversation(conversationId));
    FilterCountsAll(conversations, OtherConversation(conversationId));
  }

  /** A deletion leaves every other conversation's thread exactly as it was. */
  lemma DeleteKeepsOtherThreads(messages: seq<Message>, conversationId: string, other: string)
    requires other != conversationId
    ensures ListMessages(Filter(messages, OutsideConversation(conversationId)), other) == ListMessages(messages, other)
  {
    FilterFilter(messages, OutsideConversation(conversationId), InThread(other));
  }

  /** A deletion keeps every other conversation listed. */
  lemma DeleteKeepsOtherConversations(conversations: seq<Conversation>, conversationId: string, c: Conversation)
    requires c.id != conversationId
    ensures c in ListConversations(Filter(conversations, OtherConversation(conversationId)))
        <==> c in ListConversations(conversations)
  {
    FilterCountsAll(conversations, OtherConversation(conversationId));
  }

  /** Deleting keeps every remaining message attached to a remaining conversation. */
  lemma DeletePreservesThreads(conversations: seq<Conversation>, messages: seq<Message>, conversationId: string)
    requires ThreadsExist(conversations, messages)
    ensures ThreadsExist(Filter(conversations, OtherConversation(conversationId)),
                         Filter(messages, OutsideConversation(conversationId)))
  {
    FilterCountsAll(conversations, OtherConversation(conversationId));
    FilterCountsAll(messages, OutsideConversation(conversationId));
    forall m | m in Filter(messages, OutsideConversation(conversationId))
      ensures exists c :: c in Filter(conversations, OtherConversation(conversationId)) && c.id == m.conversationId
    {
      var c :| c in conversations && c.id == m.conversationId;
      assert c in Filter(conversations, OtherConversation(conversationId));
    }
  }

  /** A turn whose two messages are at least as recent as the thread's messages
      shows up at the end of the thread, user message first. */
  lemma SendAppendsTurn(messages: seq<Message>, conversationId: string, u: Message, a: Message)
    requires InThread(conversationId)(u) && InThread(conversationId)(a)
    requires u.createdAt <= a.createdAt
    requires forall m :: m in ListMessages(messages, conversationId) ==> m.createdAt <= u.createdAt
    ensures ListMessages(messages + [u, a], conversationId) == ListMessages(messages, conversationId) + [u, a]
  {
    var thread := Filter(messages, InThread(conversationId));
    assert ListMessages(messages, conversationId) == SortBy(thread, OldestFirst);
    SortByCorrect(thread, OldestFirst);
    forall y | y in thread ensures OldestFirst(y) <= OldestFirst(u) {
      assert y in multiset(SortBy(thread, OldestFirst));
    }
    SortFilterAppendPair(messages, InThread(conversationId), OldestFirst, u, a);
  }

  /** Sending to one conversation leaves every other thread as it was. */
  lemma SendKeepsOtherThreads(messages: seq<Message>, conversationId: string, other: string, u: Message, a: Message)
    requires u.conversationId == conversationId && a.conversationId == conversationId
    requires other != conversationId
    ensures ListMessages(messages + [u, a], other) == ListMessages(messages, other)
  {
    var p := InThread(other);
    FilterAppend(messages, [u, a], p);
    assert [u, a][1..] == [a];
    assert Filter([u, a], p) == [];
    assert Filter(messages + [u, a], p) == Filter(messages, p);
  }

  /** Sending to a stored conversation keeps every message attached. */
  lemma SendPreservesThreads(conversations: seq<Conversation>, messages: seq<Message>, u: Message, a: Message)
    requires ThreadsExist(conversations, messages)
    requires exists c :: c in conversations && c.id == u.conversationId
    requires a.conversationId == u.conversationId
    ensures ThreadsExist(conversations, messages + [u, a])
  {
  }

  /** A conversation created after every stored one is listed first. */
  lemma CreateListsFirst(conversations: seq<Conversation>, c: Conversation)
    requires c.userId == MockUserId
    requires forall d :: d in conversations ==> d.createdAt < c.createdAt
    ensures ListConversations(conversations + [c]) == [c] + ListConversations(conversations)
  {
    FilterAppend(conversations, [c], OwnedByMockUser);
    assert Filter([c], OwnedByMockUser) == [c];
    FilterCountsAll(conversations, OwnedByMockUser);
    SortByAppendSmallest(Filter(conversations, OwnedByMockUser), c, NewestFirst);
  }
}
