/** The provider factory of `apps/server/src/ai/ai.module.ts`: the Vercel
    provider when an OpenAI key is configured, the mock otherwise. */
module AiModule {
  import opened Wrappers
  import opened Strings
  import VercelProvider

  datatype ProviderKind = Vercel | Mock

  /** The `useFactory` rule; a missing `openai` section reads as a missing
      key through the optional chain. */
  function SelectProvider(openai: Option<VercelProvider.OpenAiConfig>): (r: ProviderKind)
    ensures r == Vercel <==> openai.Some? && Truthy(openai.value.apiKey)
  {
    var apiKey := if openai.Some? then openai.value.apiKey else None;
    if apiKey.Some? && |apiKey.value| > 0 then Vercel else Mock
  }

  /** The Vercel provider is chosen exactly when its SDK client would get
      a non-empty key. */
  lemma VercelGetsAKey(openai: Option<VercelProvider.OpenAiConfig>)
    ensures SelectProvider(openai) == Vercel <==> openai.Some? && VercelProvider.ClientApiKey(openai.value) != []
  {
  }
}
