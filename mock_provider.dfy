/** The development provider (`apps/server/src/ai/providers/mock-ai.provider.ts`):
    it prepares the messages like a real provider, quotes the last user
    message back and charges a fixed number of tokens per input message.
    The artificial delay is not modelled; the clock reading for `created`
    is a parameter. */
module MockProvider {
  import opened Wrappers
  import opened AiTypes
  import ToolPreparation
  import KnowledgeBase
  import WebSearch

  const TOKENS_PER_MESSAGE: nat := 50
  const REPLY_PREFIX: string := "这是一个模拟回复。您说："
  const GREETING: string := "您好！我是AI学习助手，很高兴为您服务。"

  /** `generateCompletion`: the reply is built from the prepared messages,
      the token count from the caller's messages. */
  function GenerateCompletion(options: CompletionOptions, corpus: seq<KnowledgeBase.Entry>, deepThinking: string,
                              reply: Result<WebSearch.HttpReply, string>): (r: CompletionResult)
    ensures r.tokens == Some(|options.messages| * TOKENS_PER_MESSAGE)
    ensures r.content != []
  {
    var augmented := ToolPreparation.Prepared(options, corpus, deepThinking, reply);
    CompletionResult(Quote(LastUser(augmented)), Some(|options.messages| * TOKENS_PER_MESSAGE))
  }

  /** The reply text: the user message quoted, or the greeting. */
  function Quote(userMessage: Option<Message>): (r: string)
    ensures r != []
  {
    if userMessage.Some? then REPLY_PREFIX + userMessage.value.content else GREETING
  }

  /** The quote of a conversation's last user message, located by index. */
  lemma QuoteOfLastUser(messages: seq<Message>)
    ensures match ToolPreparation.LastUserIndex(messages)
      case Some(u) => Quote(LastUser(messages)) == REPLY_PREFIX + messages[u].content
      case None => Quote(LastUser(messages)) == GREETING
  {
    ToolPreparation.LastUserAtIndex(messages);
  }

  /** Preparation never touches user messages, so the mock quotes the
      caller's own last user message, or greets when there is none. */
  lemma CompletionQuotesLastUser(options: CompletionOptions, corpus: seq<KnowledgeBase.Entry>, deepThinking: string,
                                 reply: Result<WebSearch.HttpReply, string>)
    ensures var content := GenerateCompletion(options, corpus, deepThinking, reply).content;
      match ToolPreparation.LastUserIndex(options.messages)
      case Some(u) => content == REPLY_PREFIX + options.messages[u].content
      case None => content == GREETING
  {
    ToolPreparation.PreparedKeepsUserMessages(options, corpus, deepThinking, reply);
    QuoteOfLastUser(options.messages);
  }

  /** `listModels`: two fixed models, stamped with the time of the call. */
  function ListModels(now: int): (r: seq<ModelInfo>)
    ensures |r| == 2 && r[0].id == "mock-model-1" && r[1].id == "mock-model-2"
    ensures forall m :: m in r ==> m.objectType == "model" && m.ownedBy == Some("mock") && m.created == Some(now)
  {
    [ ModelInfo("mock-model-1", "model", Some(now), Some("mock")),
      ModelInfo("mock-model-2", "model", Some(now), Some("mock")) ]
  }
}
