/** The direct OpenAI provider (`apps/server/src/ai/providers/openai.provider.ts`):
    defaults for the request, a canned reply when no key is configured, and
    the checks on the HTTP reply. This provider sends the caller's messages
    as they are, without tool preparation. The HTTP exchange is an input:
    `Err` is a rejected `fetch` or an unreadable body. */
module OpenAiProvider {
  import opened Wrappers
  import opened Strings
  import opened Http
  import opened AiTypes
  import ToolPreparation

  const DEFAULT_MODEL: string := "gpt-4o-mini"
  const DEFAULT_TEMPERATURE: real := 0.7
  const DEFAULT_MAX_TOKENS: int := 2000

  const API_ERROR_PREFIX: string := "OpenAI API error: "
  const NO_RESPONSE: string := "No response from OpenAI"

  const MOCK_PREFIX: string := "[模拟回复] 您说："
  const MOCK_SUFFIX: string := "\n\n由于未配置OpenAI API密钥，这是一个模拟响应。请在环境变量中配置OPENAI_API_KEY以使用真实的AI服务。"
  const MOCK_GREETING: string := "您好！我是AI学习助手。请配置OpenAI API密钥以使用完整功能。"
  const MOCK_TOKENS: int := 100

  /** The request body: model, messages, temperature and `max_tokens`. */
  datatype ChatRequest = ChatRequest(model: string, messages: seq<Message>, temperature: real, maxTokens: int)

  /** A choice's message content, which the API may send as `null`. */
  datatype Choice = Choice(content: Option<string>)

  datatype ChatBody = ChatBody(choices: seq<Choice>, totalTokens: int)

  datatype ChatReply = ChatReply(status: int, body: Result<ChatBody, string>)

  /** What a call did: the request it sent, if any, and its outcome (`Err`
      carries the message of the error thrown). */
  datatype Call = Call(request: Option<ChatRequest>, result: Result<CompletionResult, string>)

  /** The body sent for `options`: each default applies only when its field
      is absent, and the messages go out unchanged and in order. */
  function RequestFor(options: CompletionOptions): (r: ChatRequest)
    ensures r.messages == options.messages
    ensures options.model.Some? ==> r.model == options.model.value
    ensures options.model.None? ==> r.model == DEFAULT_MODEL
    ensures options.maxTokens.Some? ==> r.maxTokens == options.maxTokens.value
    ensures options.maxTokens.None? ==> r.maxTokens == DEFAULT_MAX_TOKENS
    ensures options.temperature.Some? ==> r.temperature == options.temperature.value
    ensures options.temperature.None? ==> r.temperature == DEFAULT_TEMPERATURE
  {
    ChatRequest(
      options.model.GetOr(DEFAULT_MODEL),
      options.messages,
      options.temperature.GetOr(DEFAULT_TEMPERATURE),
      options.maxTokens.GetOr(DEFAULT_MAX_TOKENS))
  }

  /** `getMockResponse`. */
  function MockResponse(options: CompletionOptions): (r: CompletionResult)
    ensures r.tokens == Some(MOCK_TOKENS)
  {
    var userMessage := LastUser(options.messages);
    CompletionResult(
      if userMessage.Some? then MOCK_PREFIX + userMessage.value.content + MOCK_SUFFIX else MOCK_GREETING,
      Some(MOCK_TOKENS))
  }

  /** The canned reply quotes the last user message, or greets. */
  lemma MockResponseQuotesLastUser(options: CompletionOptions)
    ensures match ToolPreparation.LastUserIndex(options.messages)
      case Some(u) => MockResponse(options).content == MOCK_PREFIX + options.messages[u].content + MOCK_SUFFIX
      case None => MockResponse(options).content == MOCK_GREETING
  {
    ToolPreparation.LastUserAtIndex(options.messages);
  }

  /** `generateCompletion` given the configured key and the HTTP reply. */
  function GenerateCompletion(apiKey: Option<string>, options: CompletionOptions, reply: Result<ChatReply, string>): (r: Call)
    ensures !Truthy(apiKey) ==> r == Call(None, Ok(MockResponse(options)))
    ensures Truthy(apiKey) ==> r.request == Some(RequestFor(options))
    ensures Truthy(apiKey) && reply.Err? ==> r.result == Err(reply.error)
    ensures Truthy(apiKey) && reply.Ok? && !IsOk(reply.value.status) ==>
      r.result == Err(API_ERROR_PREFIX + IntToString(reply.value.status))
    ensures Truthy(apiKey) && reply.Ok? && IsOk(reply.value.status) && reply.value.body.Ok? && reply.value.body.value.choices == [] ==>
      r.result == Err(NO_RESPONSE)
    ensures Truthy(apiKey) && r.result.Ok? ==>
      && reply.Ok? && IsOk(reply.value.status) && reply.value.body.Ok?
      && var body := reply.value.body.value;
         body.choices != []
         && r.result.value == CompletionResult(body.choices[0].content.GetOr(""), Some(body.totalTokens))
  {
    if !Truthy(apiKey) then Call(None, Ok(MockResponse(options)))
    else
      var request := RequestFor(options);
      match reply
      case Err(e) => Call(Some(request), Err(e))
      case Ok(ChatReply(status, body)) =>
        if !IsOk(status) then Call(Some(request), Err(API_ERROR_PREFIX + IntToString(status)))
        else match body
          case Err(e) => Call(Some(request), Err(e))
          case Ok(data) =>
            if |data.choices| == 0 then Call(Some(request), Err(NO_RESPONSE))
            else Call(Some(request), Ok(CompletionResult(data.choices[0].content.GetOr(""), Some(data.totalTokens))))
  }
}
