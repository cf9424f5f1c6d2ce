/** The message, option and result shapes shared by the AI providers
    (`apps/server/src/ai/providers/ai-provider.interface.ts`). Optional
    fields are `Option`s; `temperature` is a real number. */
module AiTypes {
  import opened Wrappers

  datatype Role = System | User | Assistant

  datatype Message = Message(role: Role, content: string)

  datatype CompletionOptions = CompletionOptions(
    messages: seq<Message>,
    model: Option<string>,
    temperature: Option<real>,
    maxTokens: Option<int>,
    tools: Option<seq<string>>)

  datatype CompletionResult = CompletionResult(content: string, tokens: Option<int>)

  /** A model listing entry; `objectType` is the API's `object` field. */
  datatype ModelInfo = ModelInfo(id: string, objectType: string, created: Option<int>, ownedBy: Option<string>)

  /** `messages.filter((m) => m.role === "user")`: the user messages, in
      order. */
  function UserMessages(messages: seq<Message>): (r: seq<Message>)
    ensures |r| <= |messages|
    ensures forall k :: 0 <= k < |r| ==> r[k].role == User && r[k] in messages
  {
    if messages == [] then []
    else
      var init := messages[..|messages| - 1];
      var last := messages[|messages| - 1];
      assert forall m :: m in init ==> m in messages;
      if last.role == User then UserMessages(init) + [last] else UserMessages(init)
  }

  /** The filter keeps exactly the user messages. */
  lemma {:induction false} UserMessagesMembers(messages: seq<Message>)
    ensures forall m :: m in UserMessages(messages) <==> m in messages && m.role == User
    decreases |messages|
  {
    if messages != [] {
      var init := messages[..|messages| - 1];
      UserMessagesMembers(init);
      assert messages == init + [messages[|messages| - 1]];
    }
  }

  /** The filter keeps order: the user messages of a concatenation are those
      of each part, one after the other. */
  lemma {:induction false} UserMessagesAppend(a: seq<Message>, b: seq<Message>)
    ensures UserMessages(a + b) == UserMessages(a) + UserMessages(b)
    decreases |b|
  {
    if b == [] {
      assert a + b == a;
    } else {
      var init := b[..|b| - 1];
      assert (a + b)[..|a + b| - 1] == a + init;
      assert (a + b)[|a + b| - 1] == b[|b| - 1];
      UserMessagesAppend(a, init);
    }
  }

  /** `.filter((m) => m.role === "user").at(-1)`: the last user message. */
  function LastUser(messages: seq<Message>): Option<Message> {
    var users := UserMessages(messages);
    if users == [] then None else Some(users[|users| - 1])
  }

  /** Overwriting a non-user message with another keeps the user messages. */
  lemma {:induction false} UserMessagesUpdate(messages: seq<Message>, i: nat, m: Message)
    requires i < |messages| && messages[i].role != User && m.role != User
    ensures UserMessages(messages[i := m]) == UserMessages(messages)
    decreases |messages|
  {
    var updated := messages[i := m];
    var n := |messages| - 1;
    assert updated[..n] == if i < n then messages[..n][i := m] else messages[..n];
    if i < n {
      UserMessagesUpdate(messages[..n], i, m);
    }
  }

  /** Putting a non-user message in front keeps the user messages. */
  lemma {:induction false} UserMessagesInsert(s: Message, messages: seq<Message>)
    requires s.role != User
    ensures UserMessages([s] + messages) == UserMessages(messages)
    decreases |messages|
  {
    if messages != [] {
      var n := |messages| - 1;
      assert ([s] + messages)[..n + 1] == [s] + messages[..n];
      UserMessagesInsert(s, messages[..n]);
    } else {
      assert UserMessages([s]) == UserMessages([s][..0]);
    }
  }
}
