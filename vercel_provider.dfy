/** The provider built on the Vercel AI SDK
    (`apps/server/src/ai/providers/vercel-ai.provider.ts`). The constructor
    fixes the SDK client's key and base URL; completions run tool
    preparation and wrap every failure; the model listing never fails.
    The SDK call and the models request are inputs. */
module VercelProvider {
  import opened Wrappers
  import opened Strings
  import opened Http
  import opened AiTypes
  import ToolPreparation
  import KnowledgeBase
  import WebSearch

  const DEFAULT_MODEL: string := "gpt-4o-mini"
  const DEFAULT_TEMPERATURE: real := 0.7
  const DEFAULT_API_BASE: string := "https://api.openai.com"
  const VERSION_SUFFIX: string := "/v1"
  const MODELS_PATH: string := "/v1/models"
  const FAILURE_PREFIX: string := "AI completion failed: "

  /** The `openai` section of the configuration. */
  datatype OpenAiConfig = OpenAiConfig(apiKey: Option<string>, baseUrl: Option<string>)

  /** What `generateText` is called with: the client's key and base URL,
      the model, the prepared messages and the temperature. */
  datatype SdkRequest = SdkRequest(apiKey: string, baseUrl: Option<string>, model: string, messages: seq<Message>, temperature: real)

  /** What `generateText` yields: the text and `usage.totalTokens`. */
  datatype SdkResult = SdkResult(text: string, totalTokens: Option<int>)

  /** A completion call: the request made and its outcome (`Err` carries the
      message of the error thrown). */
  datatype Call = Call(request: SdkRequest, result: Result<CompletionResult, string>)

  /** An entry of the `/v1/models` reply, `owned_by` included. */
  datatype ApiModel = ApiModel(id: string, objectType: string, created: Option<int>, ownedBy: Option<string>)

  datatype ModelsReply = ModelsReply(status: int, body: Result<seq<ApiModel>, string>)

  /** A model listing: the URL requested, if any, and the models returned. */
  datatype Listing = Listing(url: Option<string>, models: seq<ModelInfo>)

  /** The key handed to the SDK: a missing key becomes the empty string. */
  function ClientApiKey(config: OpenAiConfig): (r: string)
    ensures r == [] <==> !Truthy(config.apiKey)
    ensures config.apiKey.Some? ==> r == config.apiKey.value
  {
    config.apiKey.GetOr("")
  }

  /** The SDK base URL: a configured non-empty URL, with "/v1" appended
      unless it already ends with it; otherwise none. */
  function NormalizeBaseUrl(baseUrl: Option<string>): (r: Option<string>)
    ensures r.Some? <==> Truthy(baseUrl)
    ensures r.Some? ==> EndsWith(r.value, VERSION_SUFFIX) && baseUrl.value <= r.value
    ensures Truthy(baseUrl) && EndsWith(baseUrl.value, VERSION_SUFFIX) ==> r == baseUrl
    ensures Truthy(baseUrl) && !EndsWith(baseUrl.value, VERSION_SUFFIX) ==> r == Some(baseUrl.value + VERSION_SUFFIX)
  {
    if baseUrl.Some? && |baseUrl.value| > 0 then
      var url := baseUrl.value;
      var full := if EndsWith(url, VERSION_SUFFIX) then url else url + VERSION_SUFFIX;
      assert EndsWith(full, VERSION_SUFFIX) by {
        if !EndsWith(url, VERSION_SUFFIX) {
          assert full[|full| - |VERSION_SUFFIX|..] == VERSION_SUFFIX;
        }
      }
      Some(full)
    else None
  }

  /** Normalising twice is normalising once. */
  lemma NormalizeBaseUrlIdempotent(baseUrl: Option<string>)
    ensures NormalizeBaseUrl(NormalizeBaseUrl(baseUrl)) == NormalizeBaseUrl(baseUrl)
  {
    var once := NormalizeBaseUrl(baseUrl);
    if once.Some? {
      assert once.value != [];
    }
  }

  class Provider {
    /** The configuration the service reads on every call. */
    const config: OpenAiConfig
    /** The SDK client's settings, fixed at construction. */
    const clientApiKey: string
    const clientBaseUrl: Option<string>

    constructor(config: OpenAiConfig)
      ensures this.config == config
      ensures clientApiKey == ClientApiKey(config)
      ensures clientBaseUrl == NormalizeBaseUrl(config.baseUrl)
    {
      this.config := config;
      var apiKey := config.apiKey;
      var baseUrl := config.baseUrl;
      clientApiKey := apiKey.GetOr("");
      var baseURL: Option<string> := None;
      if baseUrl.Some? && |baseUrl.value| > 0 {
        var fullBaseUrl := if EndsWith(baseUrl.value, VERSION_SUFFIX) then baseUrl.value else baseUrl.value + VERSION_SUFFIX;
        baseURL := Some(fullBaseUrl);
      }
      clientBaseUrl := baseURL;
    }

    /** `generateCompletion`, given the web-search reply for preparation and
        the SDK's outcome. */
    function GenerateCompletion(options: CompletionOptions, corpus: seq<KnowledgeBase.Entry>, deepThinking: string,
                                searchReply: Result<WebSearch.HttpReply, string>, sdkReply: Result<SdkResult, string>): (r: Call)
      ensures r.request.apiKey == clientApiKey && r.request.baseUrl == clientBaseUrl
      ensures r.request.model == (if options.model.Some? then options.model.value else DEFAULT_MODEL)
      ensures options.temperature.Some? ==> r.request.temperature == options.temperature.value
      ensures options.temperature.None? ==> r.request.temperature == DEFAULT_TEMPERATURE
      ensures r.request.messages == ToolPreparation.Prepared(options, corpus, deepThinking, searchReply)
      ensures r.result.Err? <==> sdkReply.Err?
      ensures r.result.Err? ==> FAILURE_PREFIX <= r.result.error && r.result.error[|FAILURE_PREFIX|..] == sdkReply.error
      ensures r.result.Ok? ==> r.result.value == CompletionResult(sdkReply.value.text, sdkReply.value.totalTokens)
    {
      var model := options.model.GetOr(DEFAULT_MODEL);
      var temperature := options.temperature.GetOr(DEFAULT_TEMPERATURE);
      var augmented := ToolPreparation.Prepared(options, corpus, deepThinking, searchReply);
      var request := SdkRequest(clientApiKey, clientBaseUrl, model, augmented, temperature);
      match sdkReply
      case Ok(result) => Call(request, Ok(CompletionResult(result.text, result.totalTokens)))
      case Err(message) => Call(request, Err(FAILURE_PREFIX + message))
    }

    /** `listModels`, given the reply to the models request (`Err` is a
        rejected `fetch` or an unreadable body). It returns a list in every
        case. */
    function ListModels(reply: Result<ModelsReply, string>): (r: Listing)
      ensures !Truthy(config.apiKey) ==> r == Listing(None, [])
      ensures Truthy(config.apiKey) ==> r.url == Some(config.baseUrl.GetOr(DEFAULT_API_BASE) + MODELS_PATH)
      ensures r.models != [] ==> Truthy(config.apiKey) && reply.Ok? && IsOk(reply.value.status) && reply.value.body.Ok?
      ensures Truthy(config.apiKey) && reply.Ok? && IsOk(reply.value.status) && reply.value.body.Ok? ==>
        var data := reply.value.body.value;
        && |r.models| == |data|
        && forall i :: 0 <= i < |data| ==>
             r.models[i] == ModelInfo(data[i].id, data[i].objectType, data[i].created, data[i].ownedBy)
    {
      var baseUrl := config.baseUrl.GetOr(DEFAULT_API_BASE);
      if !Truthy(config.apiKey) then Listing(None, [])
      else
        var url := Some(baseUrl + MODELS_PATH);
        match reply
        case Err(_) => Listing(url, [])
        case Ok(ModelsReply(status, body)) =>
          if !IsOk(status) then Listing(url, [])
          else match body
            case Err(_) => Listing(url, [])
            case Ok(data) => Listing(url, seq(|data|, i requires 0 <= i < |data| =>
              ModelInfo(data[i].id, data[i].objectType, data[i].created, data[i].ownedBy)))
    }
  }
}
