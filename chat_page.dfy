/** The chat page of `src/app/chat/page.tsx`: a transcript, the user's
    conversations and the selected one, kept in step with the chat API and
    with `conversation_id` in `localStorage`. Each fetch is an input: it
    threw (network failure or a body that is not JSON), answered with a
    non-2xx status, or answered with a parsed body. */
module ChatPage {

  import opened Wrappers
  import opened Text
  import Users
  import Browser

  const UserRole := "user"
  const AssistantRole := "assistant"
  const ErrorPlaceholderText := "Sorry, I encountered an error processing your request. Please try again."

  /** A transcript entry; `timestamp` is not modelled. */
  datatype Message = Message(id: string, role: string, content: string)

  /** A conversation; `last_activity` is its parsed time. */
  datatype Conversation = Conversation(id: int, lastActivity: int)

  /** A stored message as the history endpoint returns it. */
  datatype HistoryEntry = HistoryEntry(id: int, timestamp: string, senderType: string, content: string)

  /** A tool call of a chat reply; `arguments` and `result` are their JSON
      text. */
  datatype ToolCall = ToolCall(name: string, arguments: string, result: string)

  /** The body of a chat reply; `toolCalls` is empty when absent. */
  datatype ChatReply = ChatReply(conversationId: Option<int>, response: string, toolCalls: seq<ToolCall>)

  /** How a `fetch` went, as far as the page looks at it. */
  datatype Fetched<+T> = Threw | NotOk(status: int) | Body(value: T)

  /** A request the page sends: path and `Authorization` header, and for a
      chat message its JSON fields. */
  datatype ChatCall =
    | ListConversations(endpoint: string, authorization: string)
    | GetHistory(endpoint: string, authorization: string)
    | SendMessage(endpoint: string, authorization: string, message: string, conversationId: Option<int>)

  /** A conversation id is truthy: present and not 0. */
  predicate TruthyId(id: Option<int>)
  {
    id.Some? && id.value != 0
  }

  /** `selectedConversationId || undefined` */
  function SentConversationId(id: Option<int>): (r: Option<int>)
    ensures r.Some? <==> TruthyId(id)
    ensures r.Some? ==> r == id
  {
    if TruthyId(id) then id else None
  }

  /** `Bearer ${localStorage.getItem('authToken')}`: a missing token is
      written as `null`. */
  function Bearer(token: Option<string>): string
  {
    "Bearer " + (if token.Some? then token.value else "null")
  }

  /** `user?.user_id` inside a template: `undefined` without a user. */
  function UserIdText(user: Option<Users.User>): string
  {
    if user.Some? then user.value.userId else "undefined"
  }

  function ConversationsEndpoint(userId: string): string
  {
    "/api/" + userId + "/conversations"
  }

  function HistoryEndpoint(userId: string, convId: int): string
  {
    ConversationsEndpoint(userId) + "/" + IntToString(convId) + "/messages"
  }

  function ChatEndpoint(user: Option<Users.User>): string
  {
    "/api/" + UserIdText(user) + "/chat"
  }

  /** The index `reduce((prev, cur) => prev.last_activity > cur.last_activity
      ? prev : cur)` ends on: a latest conversation, and the last of them
      when several share the latest time. */
  function MostRecentIndex(cs: seq<Conversation>): (k: nat)
    requires |cs| > 0
    ensures k < |cs|
    ensures forall j :: 0 <= j < |cs| ==> cs[j].lastActivity <= cs[k].lastActivity
    ensures forall j :: k < j < |cs| ==> cs[j].lastActivity < cs[k].lastActivity
  {
    if |cs| == 1 then 0
    else
      var k := MostRecentIndex(cs[..|cs| - 1]);
      if cs[k].lastActivity > cs[|cs| - 1].lastActivity then k else |cs| - 1
  }

  /** The conversation the page selects from a non-empty list. */
  function MostRecent(cs: seq<Conversation>): (c: Conversation)
    requires |cs| > 0
    ensures c in cs
    ensures forall d :: d in cs ==> d.lastActivity <= c.lastActivity
  {
    cs[MostRecentIndex(cs)]
  }

  /** The three facts `MostRecentIndex` promises pin it down: no other index
      is a latest conversation followed only by strictly earlier ones. */
  lemma MostRecentIndexUnique(cs: seq<Conversation>, k: nat)
    requires k < |cs|
    requires forall j :: 0 <= j < |cs| ==> cs[j].lastActivity <= cs[k].lastActivity
    requires forall j :: k < j < |cs| ==> cs[j].lastActivity < cs[k].lastActivity
    ensures k == MostRecentIndex(cs)
  {
  }

  /** One history entry as a transcript message. */
  function HistoryMessage(h: HistoryEntry): Message
  {
    Message(IntToString(h.id) + "-" + h.timestamp, h.senderType, h.content)
  }

  /** `data.map(...)` of `loadConversationHistory`. */
  function MapHistory(hs: seq<HistoryEntry>): (ms: seq<Message>)
    ensures |ms| == |hs|
    ensures forall i :: 0 <= i < |hs| ==>
      && ms[i].id == IntToString(hs[i].id) + "-" + hs[i].timestamp
      && ms[i].role == hs[i].senderType
      && ms[i].content == hs[i].content
  {
    if hs == [] then [] else [HistoryMessage(hs[0])] + MapHistory(hs[1..])
  }

  /** The mapping keeps order: it distributes over concatenation. */
  lemma {:induction false} MapHistoryAppend(a: seq<HistoryEntry>, b: seq<HistoryEntry>)
    ensures MapHistory(a + b) == MapHistory(a) + MapHistory(b)
    decreases |a|
  {
    if a == [] {
      assert a + b == b;
    } else {
      assert (a + b)[1..] == a[1..] + b;
      MapHistoryAppend(a[1..], b);
    }
  }

  /** The message a tool call adds to the transcript. */
  function ToolMessage(call: ToolCall, now: int): (m: Message)
    ensures m.role == AssistantRole
  {
    Message("tool-" + call.name + "-" + IntToString(now), AssistantRole,
            "Tool call: " + call.name + " with arguments " + call.arguments + " resulted in " + call.result)
  }

  /** The messages the `forEach` over the tool calls adds, in order. */
  function ToolMessages(calls: seq<ToolCall>, now: int): (ms: seq<Message>)
    ensures |ms| == |calls|
    ensures forall i :: 0 <= i < |calls| ==> ms[i] == ToolMessage(calls[i], now)
  {
    seq(|calls|, i requires 0 <= i < |calls| => ToolMessage(calls[i], now))
  }

  class Page {
    var messages: seq<Message>
    var inputValue: string
    var isLoading: bool
    var conversations: seq<Conversation>
    var selectedConversationId: Option<int>
    const storage: Browser.LocalStorage

    constructor (storage: Browser.LocalStorage)
      ensures messages == [] && inputValue == "" && !isLoading && conversations == []
      ensures selectedConversationId == None && this.storage == storage
    {
      messages := [];
      inputValue := "";
      isLoading := false;
      conversations := [];
      selectedConversationId := None;
      this.storage := storage;
    }

    /** Whether `loadConversations` sends its request: a user id and a
        stored token. */
    predicate ListRequested(user: Option<Users.User>)
      reads storage
    {
      Users.HasUserId(user) && Users.Truthy(storage.GetItem(Browser.AuthTokenKey))
    }

    /** Whether `loadConversations`, run with the selection `seen` in its
        closure, auto-selects a conversation from `result`. */
    predicate AutoSelects(seen: Option<int>, user: Option<Users.User>, result: Fetched<seq<Conversation>>)
      reads this, storage
    {
      ListRequested(user) && result.Body? && !TruthyId(seen) && |result.value| > 0
    }

    /** The conversation list after `loadConversations` with `result`. */
    function ListAfter(user: Option<Users.User>, result: Fetched<seq<Conversation>>): seq<Conversation>
      reads this, storage
    {
      if ListRequested(user) && result.Body? then result.value else conversations
    }

    /** `loadConversations`: needs a user id and a stored token; a parsed
        list replaces the conversations, and when the selection it sees is
        falsy the most recent conversation is selected and remembered. A
        failure changes nothing. */
    method LoadConversations(seen: Option<int>, user: Option<Users.User>, result: Fetched<seq<Conversation>>)
      returns (sent: Option<ChatCall>)
      modifies this, storage
      ensures messages == old(messages) && inputValue == old(inputValue) && isLoading == old(isLoading)
      ensures sent.Some? <==> old(ListRequested(user))
      ensures sent.Some? ==>
        sent.value == ListConversations(ConversationsEndpoint(user.value.userId), Bearer(old(storage.GetItem(Browser.AuthTokenKey))))
      ensures conversations == old(ListAfter(user, result))
      ensures old(AutoSelects(seen, user, result)) ==>
        && selectedConversationId == Some(MostRecent(result.value).id)
        && storage.items == old(storage.items)[Browser.ConversationIdKey := IntToString(MostRecent(result.value).id)]
      ensures !old(AutoSelects(seen, user, result)) ==>
        selectedConversationId == old(selectedConversationId) && storage.items == old(storage.items)
    {
      sent := None;
      if !Users.HasUserId(user) || !Users.Truthy(storage.GetItem(Browser.AuthTokenKey)) {
        return;
      }
      sent := Some(ListConversations(ConversationsEndpoint(user.value.userId), Bearer(storage.GetItem(Browser.AuthTokenKey))));
      if result.Body? {
        var data := result.value;
        conversations := data;
        if !TruthyId(seen) && |data| > 0 {
          var mostRecent := MostRecent(data);
          selectedConversationId := Some(mostRecent.id);
          storage.SetItem(Browser.ConversationIdKey, IntToString(mostRecent.id));
        }
      }
    }

    /** `loadConversationHistory`: a parsed history replaces the transcript,
        a non-2xx answer keeps it, and a failure empties it. */
    method LoadConversationHistory(convId: int, user: Option<Users.User>, result: Fetched<seq<HistoryEntry>>)
      returns (sent: Option<ChatCall>)
      modifies this
      ensures inputValue == old(inputValue) && isLoading == old(isLoading)
      ensures conversations == old(conversations) && selectedConversationId == old(selectedConversationId)
      ensures sent.Some? <==> Users.HasUserId(user) && Users.Truthy(storage.GetItem(Browser.AuthTokenKey))
      ensures sent.Some? ==>
        sent.value == GetHistory(HistoryEndpoint(user.value.userId, convId), Bearer(storage.GetItem(Browser.AuthTokenKey)))
      ensures sent.None? || result.NotOk? ==> messages == old(messages)
      ensures sent.Some? && result.Body? ==> messages == MapHistory(result.value)
      ensures sent.Some? && result.Threw? ==> messages == []
    {
      sent := None;
      if !Users.HasUserId(user) || !Users.Truthy(storage.GetItem(Browser.AuthTokenKey)) {
        return;
      }
      sent := Some(GetHistory(HistoryEndpoint(user.value.userId, convId), Bearer(storage.GetItem(Browser.AuthTokenKey))));
      match result {
        case Body(history) =>
          messages := MapHistory(history);
        case NotOk(_) =>
        case Threw =>
          messages := [];
      }
    }

    /** The effect on the selection: the history of a truthy selection is
        loaded when there is a user id. */
    method SelectionChanged(user: Option<Users.User>, result: Fetched<seq<HistoryEntry>>)
      returns (sent: Option<ChatCall>)
      modifies this
      ensures conversations == old(conversations) && selectedConversationId == old(selectedConversationId)
      ensures inputValue == old(inputValue) && isLoading == old(isLoading)
      ensures !(TruthyId(selectedConversationId) && Users.HasUserId(user)) ==> sent == None && messages == old(messages)
      ensures TruthyId(selectedConversationId) && ListRequested(user) ==>
        && sent == Some(GetHistory(HistoryEndpoint(user.value.userId, selectedConversationId.value),
                                   Bearer(storage.GetItem(Browser.AuthTokenKey))))
        && messages == (match result
                        case Body(history) => MapHistory(history)
                        case NotOk(_) => old(messages)
                        case Threw => [])
      ensures !ListRequested(user) ==> sent == None && messages == old(messages)
    {
      sent := None;
      if TruthyId(selectedConversationId) && Users.HasUserId(user) {
        sent := LoadConversationHistory(selectedConversationId.value, user, result);
      }
    }

    /** The mount effect: when signed in, the conversation list is requested
        with the selection of the first render (none), then a truthy stored
        `conversation_id` is parsed into the selection; when the list
        arrives non-empty, its most recent conversation replaces that
        selection. */
    method Mount(isAuthenticated: bool, user: Option<Users.User>, result: Fetched<seq<Conversation>>)
      returns (sent: Option<ChatCall>)
      modifies this, storage
      ensures messages == old(messages) && inputValue == old(inputValue) && isLoading == old(isLoading)
      ensures !isAuthenticated ==> sent == None && unchanged(this) && unchanged(storage)
      ensures isAuthenticated ==>
        && (sent.Some? <==> old(ListRequested(user)))
        && (sent.Some? ==> sent.value == ListConversations(ConversationsEndpoint(user.value.userId),
                                                           Bearer(old(storage.GetItem(Browser.AuthTokenKey)))))
        && conversations == old(ListAfter(user, result))
      ensures isAuthenticated && old(AutoSelects(selectedConversationId, user, result)) ==>
        && selectedConversationId == Some(MostRecent(result.value).id)
        && storage.items == old(storage.items)[Browser.ConversationIdKey := IntToString(MostRecent(result.value).id)]
      ensures isAuthenticated && !old(AutoSelects(selectedConversationId, user, result)) ==>
        && storage.items == old(storage.items)
        && selectedConversationId ==
             (if Users.Truthy(old(storage.GetItem(Browser.ConversationIdKey)))
              then ParseInt(old(storage.GetItem(Browser.ConversationIdKey)).value)
              else old(selectedConversationId))
    {
      sent := None;
      if !isAuthenticated {
        return;
      }
      var seen := selectedConversationId;
      var stored := storage.GetItem(Browser.ConversationIdKey);
      if Users.Truthy(stored) {
        selectedConversationId := ParseInt(stored.value);
      }
      sent := LoadConversations(seen, user, result);
    }

    /** `createNewConversation`: an empty transcript and no selection,
        remembered or not. */
    method CreateNewConversation()
      modifies this, storage
      ensures messages == [] && selectedConversationId == None
      ensures storage.items == old(storage.items) - {Browser.ConversationIdKey}
      ensures conversations == old(conversations) && inputValue == old(inputValue) && isLoading == old(isLoading)
    {
      messages := [];
      selectedConversationId := None;
      storage.RemoveItem(Browser.ConversationIdKey);
    }

    /** The `forEach` over a reply's tool calls. */
    method AppendToolMessages(calls: seq<ToolCall>, now: int)
      modifies this
      ensures messages == old(messages) + ToolMessages(calls, now)
      ensures inputValue == old(inputValue) && isLoading == old(isLoading)
      ensures conversations == old(conversations) && selectedConversationId == old(selectedConversationId)
    {
      var i := 0;
      while i < |calls|
        invariant 0 <= i <= |calls|
        invariant messages == old(messages) + ToolMessages(calls[..i], now)
        invariant inputValue == old(inputValue) && isLoading == old(isLoading)
        invariant conversations == old(conversations) && selectedConversationId == old(selectedConversationId)
      {
        assert ToolMessages(calls[..i + 1], now) == ToolMessages(calls[..i], now) + [ToolMessage(calls[i], now)];
        messages := messages + [ToolMessage(calls[i], now)];
        i := i + 1;
      }
      assert calls[..i] == calls;
    }

    /** The part of `handleSubmit` after a reply body arrives: a truthy
        conversation id is selected and remembered and the list reloaded
        with the selection `seen` the handler started with; then the answer
        and one message per tool call are appended. When the handler
        started inside a conversation, the reply's id stays selected; when
        it started without one and the reload brings a non-empty list, that
        list's most recent conversation replaces the reply's id. */
    method ReceiveReply(data: ChatReply, seen: Option<int>, user: Option<Users.User>,
                        reload: Fetched<seq<Conversation>>, now: int)
      modifies this, storage
      ensures messages == old(messages) + [Message(IntToString(now + 1), AssistantRole, data.response)]
                          + ToolMessages(data.toolCalls, now)
      ensures inputValue == old(inputValue) && isLoading == old(isLoading)
      ensures !TruthyId(data.conversationId) ==>
        selectedConversationId == old(selectedConversationId)
        && conversations == old(conversations) && storage.items == old(storage.items)
      ensures TruthyId(data.conversationId) ==> conversations == old(ListAfter(user, reload))
      ensures TruthyId(data.conversationId) && old(AutoSelects(seen, user, reload)) ==>
        && selectedConversationId == Some(MostRecent(reload.value).id)
        && storage.items == old(storage.items)[Browser.ConversationIdKey := IntToString(MostRecent(reload.value).id)]
      ensures TruthyId(data.conversationId) && !old(AutoSelects(seen, user, reload)) ==>
        && selectedConversationId == data.conversationId
        && storage.items == old(storage.items)[Browser.ConversationIdKey := IntToString(data.conversationId.value)]
    {
      if TruthyId(data.conversationId) {
        selectedConversationId := data.conversationId;
        storage.SetItem(Browser.ConversationIdKey, IntToString(data.conversationId.value));
        assert storage.GetItem(Browser.AuthTokenKey) == old(storage.GetItem(Browser.AuthTokenKey));
        var _ := LoadConversations(seen, user, reload);
      }
      messages := messages + [Message(IntToString(now + 1), AssistantRole, data.response)];
      AppendToolMessages(data.toolCalls, now);
    }

    /** `handleSubmit`. Nothing happens for a blank input or while a send is
        in flight. Otherwise the input (untrimmed) is appended and cleared
        and sent with the selection, if truthy. A failed send appends one
        apology. A reply appends the assistant's answer and then one message
        per tool call. A truthy conversation id in the reply is selected and
        remembered, and the conversation list is reloaded with the selection
        this handler started with, so a first message of a new chat ends on
        the most recent conversation of a non-empty reloaded list. The
        transcript only grows, and the page
        is not loading afterwards. `now` is the clock reading. */
    method HandleSubmit(user: Option<Users.User>, reply: Fetched<ChatReply>, reload: Fetched<seq<Conversation>>, now: int)
      returns (sent: Option<ChatCall>)
      modifies this, storage
      ensures Trim(old(inputValue)) == "" || old(isLoading) ==> sent == None && unchanged(this) && unchanged(storage)
      ensures |old(messages)| <= |messages| && messages[..|old(messages)|] == old(messages)
      ensures !(Trim(old(inputValue)) == "" || old(isLoading)) ==>
        && sent == Some(SendMessage(ChatEndpoint(user), Bearer(old(storage.GetItem(Browser.AuthTokenKey))),
                                    old(inputValue), SentConversationId(old(selectedConversationId))))
        && inputValue == "" && !isLoading
        && (!reply.Body? ==>
              && messages == old(messages) + [Message(IntToString(now), UserRole, old(inputValue)),
                                              Message(IntToString(now + 2), AssistantRole, ErrorPlaceholderText)]
              && selectedConversationId == old(selectedConversationId)
              && conversations == old(conversations) && storage.items == old(storage.items))
        && (reply.Body? ==>
              messages == old(messages) + [Message(IntToString(now), UserRole, old(inputValue)),
                                           Message(IntToString(now + 1), AssistantRole, reply.value.response)]
                          + ToolMessages(reply.value.toolCalls, now))
        && (reply.Body? && !TruthyId(reply.value.conversationId) ==>
              selectedConversationId == old(selectedConversationId)
              && conversations == old(conversations) && storage.items == old(storage.items))
        && (reply.Body? && TruthyId(reply.value.conversationId) ==> conversations == old(ListAfter(user, reload)))
        && (reply.Body? && TruthyId(reply.value.conversationId) && old(AutoSelects(selectedConversationId, user, reload)) ==>
              selectedConversationId == Some(MostRecent(reload.value).id)
              && storage.items == old(storage.items)[Browser.ConversationIdKey := IntToString(MostRecent(reload.value).id)])
        && (reply.Body? && TruthyId(reply.value.conversationId) && !old(AutoSelects(selectedConversationId, user, reload)) ==>
              selectedConversationId == reply.value.conversationId
              && storage.items == old(storage.items)[Browser.ConversationIdKey := IntToString(reply.value.conversationId.value)])
    {
      sent := None;
      if Trim(inputValue) == "" || isLoading {
        return;
      }
      var seen := selectedConversationId;
      var userMessage := Message(IntToString(now), UserRole, inputValue);
      messages := messages + [userMessage];
      inputValue := "";
      isLoading := true;
      sent := Some(SendMessage(ChatEndpoint(user), Bearer(storage.GetItem(Browser.AuthTokenKey)),
                               userMessage.content, SentConversationId(seen)));
      match reply {
        case Body(data) =>
          ReceiveReply(data, seen, user, reload, now);
        case NotOk(_) =>
          messages := messages + [Message(IntToString(now + 2), AssistantRole, ErrorPlaceholderText)];
        case Threw =>
          messages := messages + [Message(IntToString(now + 2), AssistantRole, ErrorPlaceholderText)];
      }
      isLoading := false;
    }
  }
}
