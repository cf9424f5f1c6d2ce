/** Chat sessions and their messages (`apps/server/src/dialogue/dialogue.service.ts`)
    over an in-memory store. The session and message tables are sequences
    in insertion order, which is also `createdAt` order; ids come from a
    counter, the clock reading `now` and the provider's reply are
    parameters. */
module Dialogue {
  import opened Wrappers
  import opened Strings
  import opened AiTypes
  import opened Sorting
  import ToolPreparation

  const NOT_FOUND: string := "会话不存在"
  const SYSTEM_PREFIX: string := "System: "
  const WEB_SEARCH_DESCRIPTION: string := "You have access to web search capabilities to find current information."
  const KNOWLEDGE_BASE_DESCRIPTION: string := "You have access to a knowledge base with domain-specific information."

  datatype Session = Session(id: nat, userId: nat, title: string, focus: string, createdAt: int, updatedAt: int)

  datatype ChatMessage = ChatMessage(id: nat, sessionId: nat, userId: nat, role: Role, content: string, createdAt: int)

  datatype SessionWithMessages = SessionWithMessages(session: Session, messages: seq<ChatMessage>)

  /** `NotFoundException`, or the error the provider threw. */
  datatype Failure = NotFound(message: string) | ProviderFailed(message: string)

  // ------------------------------------------------------------- lookups

  /** The position of the session with this id owned by this user. */
  function SessionIndex(sessions: seq<Session>, id: nat, userId: nat): (r: Option<nat>)
    ensures r.Some? ==> r.value < |sessions| && sessions[r.value].id == id && sessions[r.value].userId == userId
    ensures r.None? ==> forall k :: 0 <= k < |sessions| ==> sessions[k].id != id || sessions[k].userId != userId
  {
    if sessions == [] then None
    else if sessions[0].id == id && sessions[0].userId == userId then Some(0)
    else match SessionIndex(sessions[1..], id, userId)
      case Some(k) => Some(k + 1)
      case None => None
  }

  /** The messages of one session, in stored order. */
  function SessionMessages(messages: seq<ChatMessage>, sessionId: nat): (r: seq<ChatMessage>)
    ensures |r| <= |messages|
  {
    if messages == [] then []
    else
      var init := messages[..|messages| - 1];
      var last := messages[|messages| - 1];
      if last.sessionId == sessionId then SessionMessages(init, sessionId) + [last] else SessionMessages(init, sessionId)
  }

  /** A session's messages are exactly the stored messages that carry its id. */
  lemma {:induction false} SessionMessagesExact(messages: seq<ChatMessage>, sessionId: nat)
    ensures forall m :: m in SessionMessages(messages, sessionId) <==> m in messages && m.sessionId == sessionId
  {
    if messages != [] {
      var init := messages[..|messages| - 1];
      assert messages == init + [messages[|messages| - 1]];
      SessionMessagesExact(init, sessionId);
    }
  }

  /** Keeping a session's messages is an order-preserving filter: it
      distributes over concatenation, so the messages come out in stored
      (`createdAt`) order, each as often as it is stored. */
  lemma {:induction false} SessionMessagesAppend(a: seq<ChatMessage>, b: seq<ChatMessage>, sessionId: nat)
    ensures SessionMessages(a + b, sessionId) == SessionMessages(a, sessionId) + SessionMessages(b, sessionId)
    decreases |b|
  {
    if b == [] {
      assert a + b == a;
    } else {
      var init := b[..|b| - 1];
      assert (a + b)[..|a + b| - 1] == a + init;
      assert (a + b)[|a + b| - 1] == b[|b| - 1];
      SessionMessagesAppend(a, init, sessionId);
    }
  }

  /** A single message is kept exactly when it carries the session's id. */
  lemma SessionMessagesSingle(m: ChatMessage, sessionId: nat)
    ensures SessionMessages([m], sessionId) == if m.sessionId == sessionId then [m] else []
  {
    assert [m][..0] == [];
  }

  /** The stored messages of every other session, in stored order: what the
      database's cascading delete leaves when session `sessionId` goes. */
  function OtherMessages(messages: seq<ChatMessage>, sessionId: nat): (r: seq<ChatMessage>)
    ensures forall k :: 0 <= k < |r| ==> r[k] in messages && r[k].sessionId != sessionId
    ensures forall m :: m in messages && m.sessionId != sessionId ==> m in r
  {
    if messages == [] then []
    else if messages[0].sessionId == sessionId then OtherMessages(messages[1..], sessionId)
    else [messages[0]] + OtherMessages(messages[1..], sessionId)
  }

  /** The user's sessions, in stored order. */
  function Owned(sessions: seq<Session>, userId: nat): (r: seq<Session>)
    ensures forall s :: s in r <==> s in sessions && s.userId == userId
  {
    if sessions == [] then []
    else
      var rest := Owned(sessions[1..], userId);
      assert sessions == [sessions[0]] + sessions[1..];
      if sessions[0].userId == userId then [sessions[0]] + rest else rest
  }

  function UpdatedAt(s: Session): real {
    s.updatedAt as real
  }

  // ---------------------------------------------------------- the request

  /** The tools the system text describes. */
  predicate Described(tool: string) {
    tool == ToolPreparation.WEB_SEARCH_TOOL || tool == ToolPreparation.KNOWLEDGE_BASE_TOOL
  }

  /** The description of one requested tool; unknown tools have none. */
  function ToolDescription(tool: string): (r: string)
    ensures r != "" <==> Described(tool)
  {
    if tool == ToolPreparation.WEB_SEARCH_TOOL then WEB_SEARCH_DESCRIPTION
    else if tool == ToolPreparation.KNOWLEDGE_BASE_TOOL then KNOWLEDGE_BASE_DESCRIPTION
    else ""
  }

  /** `tools.map(describe).filter(Boolean)`: one description per known
      tool, in request order. */
  function ToolDescriptions(tools: seq<string>): (r: seq<string>)
    ensures |r| <= |tools|
    ensures forall k :: 0 <= k < |r| ==> r[k] == WEB_SEARCH_DESCRIPTION || r[k] == KNOWLEDGE_BASE_DESCRIPTION
    ensures r == [] <==> forall t :: t in tools ==> !Described(t)
  {
    if tools == [] then []
    else
      var d := ToolDescription(tools[0]);
      var rest := ToolDescriptions(tools[1..]);
      assert (forall t :: t in tools ==> !Described(t)) <==> !Described(tools[0]) && forall t :: t in tools[1..] ==> !Described(t) by {
        assert tools == [tools[0]] + tools[1..];
      }
      (if d != "" then [d] else []) + rest
  }

  /** The system text: "System: " and the descriptions joined by a space,
      or nothing when no known tool is requested. */
  function SystemText(tools: Option<seq<string>>): (r: string)
    ensures r != "" <==> tools.Some? && ToolDescriptions(tools.value) != []
    ensures r != "" ==> SYSTEM_PREFIX <= r
  {
    if tools.Some? && |tools.value| > 0 then
      var descriptions := Join(ToolDescriptions(tools.value), " ");
      assert ToolDescriptions(tools.value) != [] ==> descriptions != "";
      if descriptions != "" then SYSTEM_PREFIX + descriptions else ""
    else ""
  }

  /** The stored messages as the provider sees them: role and content. */
  function History(messages: seq<ChatMessage>): (r: seq<Message>)
    ensures |r| == |messages|
    ensures forall k :: 0 <= k < |r| ==> r[k] == Message(messages[k].role, messages[k].content)
  {
    if messages == [] then []
    else History(messages[..|messages| - 1]) + [Message(messages[|messages| - 1].role, messages[|messages| - 1].content)]
  }

  /** The completion request: the system text, when there is one, then the
      history. Only messages and model are sent. */
  function CompletionRequest(history: seq<Message>, systemText: string, model: Option<string>): (r: CompletionOptions)
    ensures r.tools.None? && r.temperature.None? && r.maxTokens.None? && r.model == model
    ensures systemText == "" ==> r.messages == history
    ensures systemText != "" ==> |r.messages| == |history| + 1 && r.messages[0] == Message(System, systemText) && r.messages[1..] == history
  {
    var messages := if systemText != "" then [Message(System, systemText)] + history else history;
    CompletionOptions(messages, model, None, None, None)
  }

  /** The new user message is what the provider sees as the last user
      message, whatever the tools. */
  lemma {:induction false} RequestEndsWithNewMessage(stored: seq<ChatMessage>, userMessage: ChatMessage, tools: Option<seq<string>>, model: Option<string>)
    requires userMessage.role == User
    ensures var history := History(SessionMessages(stored + [userMessage], userMessage.sessionId));
      LastUser(CompletionRequest(history, SystemText(tools), model).messages) == Some(Message(User, userMessage.content))
  {
    var all := stored + [userMessage];
    assert all[..|all| - 1] == stored;
    var own := SessionMessages(all, userMessage.sessionId);
    assert own == SessionMessages(stored, userMessage.sessionId) + [userMessage];
    var history := History(own);
    assert own[..|own| - 1] == SessionMessages(stored, userMessage.sessionId);
    assert history == History(SessionMessages(stored, userMessage.sessionId)) + [Message(User, userMessage.content)];
    assert history[..|history| - 1] == History(SessionMessages(stored, userMessage.sessionId));
    var text := SystemText(tools);
    if text != "" {
      UserMessagesInsert(Message(System, text), history);
      assert [Message(System, text)] + history == CompletionRequest(history, text, model).messages;
    }
  }

  /** The local `systemMessage`, reassigned when a known tool is requested. */
  method BuildSystemMessage(tools: Option<seq<string>>) returns (systemMessage: string)
    ensures systemMessage == SystemText(tools)
  {
    systemMessage := "";
    if tools.Some? && |tools.value| > 0 {
      var toolDescriptions := Join(ToolDescriptions(tools.value), " ");
      if toolDescriptions != "" {
        systemMessage := SYSTEM_PREFIX + toolDescriptions;
      }
    }
  }

  // -------------------------------------------------------------- service

  /** The message `sendMessage` stores for the user in session `s`. */
  function UserMessage(s: Session, id: nat, content: string, now: int): ChatMessage {
    ChatMessage(id, s.id, s.userId, User, content, now)
  }

  /** The request sent once `userMessage` is stored: the session's history,
      the new message last, after the system text for the tools. */
  function ExchangeRequest(stored: seq<ChatMessage>, userMessage: ChatMessage, tools: Option<seq<string>>,
                           model: Option<string>): CompletionOptions
  {
    CompletionRequest(History(SessionMessages(stored + [userMessage], userMessage.sessionId)), SystemText(tools), model)
  }

  class DialogueService {
    var sessions: seq<Session>
    var messages: seq<ChatMessage>
    var nextId: nat

    /** Ids are unique and below the counter. */
    ghost predicate Valid()
      reads this
    {
      && (forall k :: 0 <= k < |sessions| ==> sessions[k].id < nextId)
      && (forall k :: 0 <= k < |messages| ==> messages[k].id < nextId)
      && (forall i, j :: 0 <= i < j < |sessions| ==> sessions[i].id != sessions[j].id)
    }

    constructor()
      ensures Valid() && sessions == [] && messages == [] && nextId == 0
    {
      sessions := [];
      messages := [];
      nextId := 0;
    }

    /** `createSession`. */
    method CreateSession(userId: nat, title: string, focus: string, now: int) returns (r: Session)
      requires Valid()
      modifies this
      ensures Valid()
      ensures r == Session(old(nextId), userId, title, focus, now, now)
      ensures sessions == old(sessions) + [r] && messages == old(messages) && nextId == old(nextId) + 1
    {
      r := Session(nextId, userId, title, focus, now, now);
      sessions := sessions + [r];
      nextId := nextId + 1;
    }

    /** `listSessions`: the user's sessions, most recently updated first. */
    function ListSessions(userId: nat): (r: seq<Session>)
      reads this
      ensures forall s :: s in r <==> s in sessions && s.userId == userId
      ensures multiset(r) == multiset(Owned(sessions, userId))
      ensures SortedDesc(r, UpdatedAt)
    {
      var r := SortDesc(Owned(sessions, userId), UpdatedAt);
      assert forall s :: s in r <==> s in multiset(r);
      r
    }

    /** `getSession`: the session with its messages, oldest first. */
    function GetSession(userId: nat, sessionId: nat): (r: Result<SessionWithMessages, Failure>)
      reads this
      ensures r.Err? <==> SessionIndex(sessions, sessionId, userId).None?
      ensures r.Err? ==> r.error == NotFound(NOT_FOUND)
      ensures r.Ok? ==> r.value.session in sessions && r.value.session.userId == userId && r.value.session.id == sessionId
      ensures r.Ok? ==> forall m :: m in r.value.messages <==> m in messages && m.sessionId == sessionId
      ensures r.Ok? ==> r.value.messages == SessionMessages(messages, sessionId)
    {
      match SessionIndex(sessions, sessionId, userId)
      case None => Err(NotFound(NOT_FOUND))
      case Some(i) =>
        SessionMessagesExact(messages, sessionId);
        Ok(SessionWithMessages(sessions[i], SessionMessages(messages, sessionId)))
    }

    /** `sendMessage`: the session must exist and belong to the user. */
    method SendMessage(userId: nat, sessionId: nat, content: string, tools: Option<seq<string>>, model: Option<string>,
                       now: int, reply: Result<CompletionResult, string>)
      returns (request: Option<CompletionOptions>, r: Result<ChatMessage, Failure>)
      requires Valid()
      modifies this
      ensures Valid()
      ensures SessionIndex(old(sessions), sessionId, userId).None? ==>
        r == Err(NotFound(NOT_FOUND)) && request.None?
        && sessions == old(sessions) && messages == old(messages) && nextId == old(nextId)
      ensures SessionIndex(old(sessions), sessionId, userId).Some? ==>
        var i := SessionIndex(old(sessions), sessionId, userId).value;
        var userMessage := ChatMessage(old(nextId), sessionId, userId, User, content, now);
        var history := History(SessionMessages(old(messages) + [userMessage], sessionId));
        && request == Some(CompletionRequest(history, SystemText(tools), model))
        && (reply.Err? ==>
              && r == Err(ProviderFailed(reply.error))
              && messages == old(messages) + [userMessage] && sessions == old(sessions) && nextId == old(nextId) + 1)
        && (reply.Ok? ==>
              var assistant := ChatMessage(old(nextId) + 1, sessionId, userId, Assistant, reply.value.content, now);
              && r == Ok(assistant)
              && messages == old(messages) + [userMessage, assistant]
              && sessions == old(sessions)[i := old(sessions)[i].(updatedAt := now)]
              && nextId == old(nextId) + 2)
    {
      var found := SessionIndex(sessions, sessionId, userId);
      if found.None? {
        return None, Err(NotFound(NOT_FOUND));
      }
      var req;
      req, r := Exchange(found.value, content, tools, model, now, reply);
      request := Some(req);
    }

    /** The rest of `sendMessage` once the session at `i` is found: the user
        message is stored first, then the provider is asked with the
        session's history; on success the assistant's reply is stored and
        the session's `updatedAt` is refreshed. A provider failure leaves
        the user message stored. */
    method Exchange(i: nat, content: string, tools: Option<seq<string>>, model: Option<string>,
                    now: int, reply: Result<CompletionResult, string>)
      returns (request: CompletionOptions, r: Result<ChatMessage, Failure>)
      requires Valid() && i < |sessions|
      modifies this
      ensures Valid()
      ensures request == ExchangeRequest(old(messages), UserMessage(old(sessions)[i], old(nextId), content, now), tools, model)
      ensures reply.Err? ==>
        && r == Err(ProviderFailed(reply.error))
        && messages == old(messages) + [UserMessage(old(sessions)[i], old(nextId), content, now)]
        && sessions == old(sessions) && nextId == old(nextId) + 1
      ensures reply.Ok? ==>
        var assistant := ChatMessage(old(nextId) + 1, old(sessions)[i].id, old(sessions)[i].userId, Assistant, reply.value.content, now);
        && r == Ok(assistant)
        && messages == old(messages) + [UserMessage(old(sessions)[i], old(nextId), content, now), assistant]
        && sessions == old(sessions)[i := old(sessions)[i].(updatedAt := now)]
        && nextId == old(nextId) + 2
    {
      var sessionId := sessions[i].id;
      var userId := sessions[i].userId;
      ghost var stored := messages;
      var userMessage := AddMessage(sessionId, userId, User, content, now);
      var history := History(SessionMessages(messages, sessionId));
      var systemMessage := BuildSystemMessage(tools);
      request := CompletionRequest(history, systemMessage, model);
      assert request == ExchangeRequest(stored, userMessage, tools, model);
      if reply.Err? {
        return request, Err(ProviderFailed(reply.error));
      }
      var assistant := AddMessage(sessionId, userId, Assistant, reply.value.content, now);
      assert messages == stored + [userMessage, assistant];
      Touch(i, now);
      r := Ok(assistant);
    }

    /** `chatMessage.create`: a new message with the next id. */
    method AddMessage(sessionId: nat, userId: nat, role: Role, content: string, now: int) returns (m: ChatMessage)
      requires Valid()
      modifies this
      ensures Valid()
      ensures m == ChatMessage(old(nextId), sessionId, userId, role, content, now)
      ensures messages == old(messages) + [m] && sessions == old(sessions) && nextId == old(nextId) + 1
    {
      m := ChatMessage(nextId, sessionId, userId, role, content, now);
      messages := messages + [m];
      nextId := nextId + 1;
    }

    /** `session.update`: a new `updatedAt` for the session at `i`. */
    method Touch(i: nat, now: int)
      requires Valid() && i < |sessions|
      modifies this
      ensures Valid()
      ensures sessions == old(sessions)[i := old(sessions)[i].(updatedAt := now)]
      ensures messages == old(messages) && nextId == old(nextId)
    {
      sessions := sessions[i := sessions[i].(updatedAt := now)];
    }

    /** `deleteSession`: the owned session is removed, and with it, by the
        schema's cascading delete, its messages. */
    method DeleteSession(userId: nat, sessionId: nat) returns (r: Result<(), Failure>)
      requires Valid()
      modifies this
      ensures Valid()
      ensures SessionIndex(old(sessions), sessionId, userId).None? ==>
        r == Err(NotFound(NOT_FOUND)) && sessions == old(sessions) && messages == old(messages) && nextId == old(nextId)
      ensures SessionIndex(old(sessions), sessionId, userId).Some? ==>
        var i := SessionIndex(old(sessions), sessionId, userId).value;
        r == Ok(()) && sessions == old(sessions)[..i] + old(sessions)[i + 1..]
        && messages == OtherMessages(old(messages), sessionId) && nextId == old(nextId)
    {
      var found := SessionIndex(sessions, sessionId, userId);
      if found.None? {
        return Err(NotFound(NOT_FOUND));
      }
      var i := found.value;
      sessions := sessions[..i] + sessions[i + 1..];
      messages := OtherMessages(messages, sessionId);
      r := Ok(());
    }
  }

  /** After a deletion no session with that id remains. */
  lemma DeletedSessionGone(sessions: seq<Session>, i: nat)
    requires i < |sessions|
    requires forall a, b :: 0 <= a < b < |sessions| ==> sessions[a].id != sessions[b].id
    ensures forall s :: s in sessions[..i] + sessions[i + 1..] ==> s.id != sessions[i].id
  {
    forall s | s in sessions[..i] + sessions[i + 1..] ensures s.id != sessions[i].id {
      var k :| 0 <= k < |sessions[..i] + sessions[i + 1..]| && (sessions[..i] + sessions[i + 1..])[k] == s;
      if k < i {
        assert s == sessions[k];
      } else {
        assert s == sessions[k + 1];
      }
    }
  }
}
