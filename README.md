# A verified model of the aipartner learning companion

aipartner is a study companion. A NestJS server keeps chat sessions with an
AI tutor, study plans with their tasks, study-time records and progress
snapshots, and it serves a learning summary. A Next.js front end talks to
it through a small fetch helper. This project models the core of both
sides in Dafny and proves what each operation promises.

The model has one module per core source file:

- `ToolPreparation`, `AiTypes`, `MockProvider`, `OpenAiProvider`,
  `VercelProvider` and `AiModule` cover the AI providers. Tool preparation
  finds the last user message. The knowledge-base and web-search enrichers
  turn it into context sections, which are merged into the system message.
  The provider factory picks the real provider when a key is configured.
- `KnowledgeBase` models the five built-in entries, the text sanitiser and
  tokeniser, the relevance score and the stable top-k ranking.
- `WebSearch` models the DuckDuckGo instant-answer reply: primary results,
  the related-topic forest flattened depth first, URL de-duplication
  through one shared seen set, the abstract fallback, and the rendered
  context.
- `Dialogue`, `Planning` and `Progress` are classes over an in-memory store.
  Each has the fields the service updates, and each method states the
  whole new state. Planning's invariant is that every plan's step counters
  agree with its tasks, so `0 <= completedSteps <= targetSteps`. The source
  does not keep this invariant in two places, which are listed under
  "Findings". Plan generation writes the plan and then its tasks without
  a transaction, and a task update miscounts a done task. The service
  methods use the corrected behaviour and keep the invariant. The source's
  own behaviour is modelled beside them, in `StoreGeneratedAsWritten` and
  `CompletedStepsChangeAsWritten`.
- `Learning` builds the summary from the stored rows with the source's
  loops.
- `Users` and `Auth` cover e-mail normalisation, registration and login.
- `ServerEnv`, `WebEnv` and `Environment` model the two configuration
  modules, with the environment as a map.
- `ApiClient` models the front end's request building and response
  handling.
- `Strings`, `Sorting`, `Http` and `Wrappers` hold the JavaScript built-ins
  the services rely on: `trim`, `toLowerCase`, `split`, `join`,
  `includes`, `replace(/\s+/g, " ")`, the stable `Array.prototype.sort`
  and `Response.ok`.

Every effect the services have outside their own state is a parameter:

- the clock is `now`;
- replies from the network and from the AI SDK are inputs;
- password hashing, token signing and `JSON.parse` are function parameters.

Database tables are sequences in insertion order, and ids come from a
counter.

## Model

| member | source | states |
|---|---|---|
| ToolPreparation.LastUserIndex | apps/server/src/ai/providers/tool-preparation.ts:14-25 | the index found holds a user message and no later message is a user message; none is found exactly when no message has the user role |
| ToolPreparation.FindLastUserMessage | apps/server/src/ai/providers/tool-preparation.ts:14-25 | the backwards scan returns a message exactly when a user message exists, and then it is the last one |
| ToolPreparation.LastUserAtIndex | apps/server/src/ai/providers/mock-ai.provider.ts:21-23 | `filter(role === "user").at(-1)` picks the same message as the backwards scan, and nothing when there is no user message |
| ToolPreparation.HasActiveTools | apps/server/src/ai/providers/tool-preparation.ts:27-28 | true exactly when "knowledge-base" or "web-search" is among the tools |
| ToolPreparation.Section | apps/server/src/ai/providers/tool-preparation.ts:30-66 | a section is pushed exactly when the context is present and non-empty, and it is the prefix followed by the context |
| ToolPreparation.KnowledgeContext | dist/server/apps/server/src/ai/tools/knowledge-base.js:101-115 | a blank query gives no context; otherwise there is context exactly when some entry scores above zero, and it opens with the title of the best-ranked entry |
| ToolPreparation.WebContext | apps/server/src/ai/providers/tool-preparation.ts:54-65 | a failed web search is caught and contributes no context |
| ToolPreparation.Sections.constructor | apps/server/src/ai/providers/tool-preparation.ts:73 | the section list starts empty |
| ToolPreparation.Sections.AppendKnowledgeContext | apps/server/src/ai/providers/tool-preparation.ts:30-47 | the section list grows by the knowledge section, if there is one, and nothing else changes |
| ToolPreparation.Sections.AppendWebSearchContext | apps/server/src/ai/providers/tool-preparation.ts:49-66 | the section list grows by the web-search section, if there is one, and nothing else changes |
| ToolPreparation.Assemble | apps/server/src/ai/providers/tool-preparation.ts:68-84 | at most two sections; the knowledge section comes first and the web section last; each carries its own prefix; a tool not requested adds nothing |
| ToolPreparation.BuildContextSections | apps/server/src/ai/providers/tool-preparation.ts:68-84 | the sections pushed by the two append steps are those `Assemble` describes |
| ToolPreparation.ContextInstructionLayout | apps/server/src/ai/providers/tool-preparation.ts:134-142 | the context instruction starts with the fixed preamble and ends with the fixed closing line |
| ToolPreparation.Instructions | apps/server/src/ai/providers/tool-preparation.ts:132-150 | no instruction exactly when there is no section and no "deep-analyze"; the context instruction comes first and the deep-thinking instruction last |
| ToolPreparation.CollectInstructions | apps/server/src/ai/providers/tool-preparation.ts:132-146 | the two conditional pushes build the list `Instructions` describes |
| ToolPreparation.FirstSystemIndex | apps/server/src/ai/providers/tool-preparation.ts:90 | the index found holds a system message and no earlier message is one; none exactly when there is no system message |
| ToolPreparation.MergeInstructions | apps/server/src/ai/providers/tool-preparation.ts:86-106 | the in-place update produces `Merged` |
| ToolPreparation.MergedIntoFirstSystem | apps/server/src/ai/providers/tool-preparation.ts:90-99 | with a system message, only the first one changes, to old content + "\n\n" + the joined instructions, and the length is kept |
| ToolPreparation.MergedInsertsSystem | apps/server/src/ai/providers/tool-preparation.ts:101-105 | without a system message, one system message holding the joined instructions is inserted at index 0 and every other message shifts by one, unchanged |
| ToolPreparation.MergedKeepsUserMessages | apps/server/src/ai/providers/tool-preparation.ts:86-106 | merging never changes the sequence of user messages |
| ToolPreparation.PrepareMessagesWithTooling | apps/server/src/ai/providers/tool-preparation.ts:108-159 | the early returns and the merge produce `Prepared` |
| ToolPreparation.NoToolsUnchanged | apps/server/src/ai/providers/tool-preparation.ts:112-117 | with no tools (absent or empty) the output equals the input messages |
| ToolPreparation.NoUserUnchanged | apps/server/src/ai/providers/tool-preparation.ts:119-122 | with no user message the output equals the input, whatever tools are requested |
| ToolPreparation.UnknownToolsUnchanged | apps/server/src/ai/providers/tool-preparation.ts:124-150 | tools other than the two enrichers and "deep-analyze" leave the messages unchanged |
| ToolPreparation.WebFailureNoSection | apps/server/src/ai/providers/tool-preparation.ts:49-81 | a failed web search leaves only the knowledge section, if any |
| ToolPreparation.PreparedShape | apps/server/src/ai/providers/tool-preparation.ts:93-105 | the output keeps the input's length, or is one system message followed by the input unchanged |
| ToolPreparation.PreparedKeepsUserMessages | apps/server/src/ai/providers/tool-preparation.ts:108-159 | preparation never changes the user messages |
| AiTypes.UserMessages | apps/server/src/ai/providers/mock-ai.provider.ts:21-22 | the filtered list holds only user messages, each taken from the input |
| AiTypes.UserMessagesMembers | apps/server/src/ai/providers/mock-ai.provider.ts:21-22 | a message is in the filtered list exactly when it is in the input and its role is `user` |
| AiTypes.UserMessagesAppend | apps/server/src/ai/providers/mock-ai.provider.ts:21-22 | the filter keeps order: filtering a concatenation gives the filtered parts one after the other |
| AiTypes.UserMessagesUpdate | apps/server/src/ai/providers/tool-preparation.ts:94-97 | overwriting a non-user message by another leaves the user messages unchanged |
| AiTypes.UserMessagesInsert | apps/server/src/ai/providers/tool-preparation.ts:101-104 | inserting a non-user message at the front leaves the user messages unchanged |
| MockProvider.GenerateCompletion | apps/server/src/ai/providers/mock-ai.provider.ts:11-38 | always returns a result; tokens are 50 per original input message, not per prepared message; the content is never empty |
| MockProvider.Quote | apps/server/src/ai/providers/mock-ai.provider.ts:25-27 | the reply text is never empty |
| MockProvider.QuoteOfLastUser | apps/server/src/ai/providers/mock-ai.provider.ts:21-27 | the reply quotes the last user message after the fixed prefix, or is the fixed greeting when there is none |
| MockProvider.CompletionQuotesLastUser | apps/server/src/ai/providers/mock-ai.provider.ts:19-27 | the content quotes the caller's own last user message, since preparation never touches user messages, or greets when there is none |
| MockProvider.ListModels | apps/server/src/ai/providers/mock-ai.provider.ts:40-56 | exactly "mock-model-1" then "mock-model-2", each of type "model", owned by "mock", stamped with the time of the call |
| AiModule.SelectProvider | apps/server/src/ai/ai.module.ts:19-25 | the Vercel provider exactly when an `openai` config exists and its key is defined and non-empty; the mock otherwise |
| AiModule.VercelGetsAKey | apps/server/src/ai/ai.module.ts:20-23 | the Vercel provider is chosen exactly when the key it receives is non-empty |
| OpenAiProvider.RequestFor | apps/server/src/ai/providers/openai.provider.ts:88-101 | the request carries the input messages unchanged and in order; model defaults to "gpt-4o-mini", max tokens to 2000 and temperature to 0.7, each only when absent, and a given model, token limit or temperature is passed through as given |
| OpenAiProvider.MockResponse | apps/server/src/ai/providers/openai.provider.ts:142-153 | the canned reply always reports 100 tokens |
| OpenAiProvider.MockResponseQuotesLastUser | apps/server/src/ai/providers/openai.provider.ts:143-150 | the canned reply quotes the last user message between the fixed prefix and suffix, or is the fixed greeting |
| OpenAiProvider.GenerateCompletion | apps/server/src/ai/providers/openai.provider.ts:76-140 | a falsy key gives the mock result without a request; otherwise the request is `RequestFor`; a failed call is rethrown; a non-OK status fails with a message naming it; no choices fails with "No response from OpenAI"; success takes the first choice's content (null becoming "") and `usage.total_tokens` |
| VercelProvider.ClientApiKey | apps/server/src/ai/providers/vercel-ai.provider.ts:48-54 | a missing key reaches the SDK as ""; a configured key is passed as it is |
| VercelProvider.NormalizeBaseUrl | apps/server/src/ai/providers/vercel-ai.provider.ts:56-64 | a base URL is set exactly when one is configured and non-empty; it then ends with "/v1", extends the configured one, and gains "/v1" exactly when it did not already end with it |
| VercelProvider.NormalizeBaseUrlIdempotent | apps/server/src/ai/providers/vercel-ai.provider.ts:56-64 | normalising twice is normalising once |
| VercelProvider.Provider.constructor | apps/server/src/ai/providers/vercel-ai.provider.ts:30-69 | the client receives the key and the normalised base URL |
| VercelProvider.Provider.GenerateCompletion | apps/server/src/ai/providers/vercel-ai.provider.ts:75-123 | the SDK call uses the client's key and base URL, the prepared messages, model "gpt-4o-mini" and temperature 0.7 when absent and the caller's model and temperature when given; it fails exactly when the SDK fails, with "AI completion failed: " followed by the cause; otherwise it returns the SDK's text and token count |
| VercelProvider.Provider.ListModels | apps/server/src/ai/providers/vercel-ai.provider.ts:125-174 | never fails: no key gives [] without a request; the URL is the un-normalised base URL (default "https://api.openai.com") + "/v1/models"; models appear only after an OK, parsable reply, and then one per entry, in order, with `owned_by` as `ownedBy` |
| WebSearch.StripTags | apps/server/src/ai/tools/web-search.ts:38 | `replace(/<[^>]+>/g, " ")`: no tag is left; a text with no `>` keeps none; the first character survives unless it opens a tag; never longer |
| WebSearch.TagFreeCons | apps/server/src/ai/tools/web-search.ts:38 | a character in front of tag-free text keeps it tag-free unless it opens a tag that a later `>` closes |
| WebSearch.SanitizeSnippet | apps/server/src/ai/tools/web-search.ts:32-41 | a missing or empty text gives ""; otherwise the result is single spaced: no white space at either end and only single ' ' inside |
| WebSearch.Extract | apps/server/src/ai/tools/web-search.ts:43-62 | nothing exactly when the sanitised text is empty; a parsed title is never empty |
| WebSearch.ExtractWithoutDelimiter | apps/server/src/ai/tools/web-search.ts:55-61 | without " - ", the title and the snippet are both the sanitised text |
| WebSearch.ExtractAtFirstDelimiter | apps/server/src/ai/tools/web-search.ts:55-61 | with the first " - " at k, the snippet is everything after it, rejoined on " - ", and the title is the trimmed text before it, or the whole text when that is blank |
| WebSearch.Candidate | apps/server/src/ai/tools/web-search.ts:81-86 | an item yields a result exactly when its text parses and its trimmed URL is non-empty; the result carries that URL and the parsed title |
| WebSearch.PrimaryStreamSnoc | apps/server/src/ai/tools/web-search.ts:114-132 | the usable primary results of a longer prefix are those of the shorter one followed by the next item's |
| WebSearch.DedupCandidate | apps/server/src/ai/tools/web-search.ts:122-131 | a single candidate is kept exactly when its URL has not been seen, and marks that URL |
| WebSearch.KeptIsDedup | apps/server/src/ai/tools/web-search.ts:122-131 | taking one candidate when its URL is new is de-duplication of that candidate against the URLs seen |
| WebSearch.TopicStreamSnoc | apps/server/src/ai/tools/web-search.ts:74-79 | the leaves of a longer prefix of topics are those of the shorter one followed by the next topic's, depth first |
| WebSearch.AccumulateStep | apps/server/src/ai/tools/web-search.ts:114-132 | one pass of either loop keeps the results equal to the de-duplicated stream so far and the seen set equal to its URLs |
| WebSearch.DedupAppend | apps/server/src/ai/tools/web-search.ts:186-187 | de-duplicating a concatenation de-duplicates the second part against every URL of the first, which is why related topics are filtered by primary URLs |
| WebSearch.DedupDistinct | apps/server/src/ai/tools/web-search.ts:122-131 | the kept results have pairwise distinct URLs, none already seen, and exactly the new URLs of the input |
| WebSearch.DedupKeepsFirst | apps/server/src/ai/tools/web-search.ts:122-131 | the first occurrence of a new URL is kept |
| WebSearch.Fallback | apps/server/src/ai/tools/web-search.ts:135-154 | one result exactly when nothing was collected and the abstract parses, titled by `Heading` when present and by the parsed title otherwise |
| WebSearch.Accumulator.constructor | apps/server/src/ai/tools/web-search.ts:183-184 | the results and the seen URLs start empty |
| WebSearch.Accumulator.AddPrimaryResults | apps/server/src/ai/tools/web-search.ts:105-133 | the results grow by the de-duplicated usable primary results and the seen set by their URLs; an absent list changes nothing |
| WebSearch.Accumulator.AddPrimary | apps/server/src/ai/tools/web-search.ts:115-131 | one item is pushed, and its URL marked, exactly when it is usable and its URL is new |
| WebSearch.Accumulator.FlattenTopics | apps/server/src/ai/tools/web-search.ts:64-103 | returns the de-duplicated leaves of the forest, depth first and in order, marking their URLs; an absent forest gives [] |
| WebSearch.Accumulator.Walk | apps/server/src/ai/tools/web-search.ts:74-99 | the walk appends the de-duplicated leaves of the topics in order, and leaves the shared results alone |
| WebSearch.Accumulator.WalkItem | apps/server/src/ai/tools/web-search.ts:76-97 | a category contributes only its flattened children; a leaf contributes itself when usable and new |
| WebSearch.Accumulator.TakeLeaf | apps/server/src/ai/tools/web-search.ts:81-97 | a leaf is appended, and its URL marked, exactly when it is usable and its URL is new |
| WebSearch.Accumulator.AppendFallback | apps/server/src/ai/tools/web-search.ts:135-154 | the results grow by the fallback and the seen URLs do not change |
| WebSearch.SearchResults | apps/server/src/ai/tools/web-search.ts:156-191 | a blank query gives [] without a request; a failed request is rethrown; a non-OK status fails with a message naming it; the results never exceed `limit` |
| WebSearch.FetchWebSearchResults | apps/server/src/ai/tools/web-search.ts:156-191 | the accumulator filled in the source's order yields `SearchResults` |
| WebSearch.Gather | apps/server/src/ai/tools/web-search.ts:183-188 | primary results, then flattened topics, then the fallback, through one shared seen set |
| WebSearch.CollectedIsDedup | apps/server/src/ai/tools/web-search.ts:186-187 | the primary results followed by the topics filtered against them are the de-duplication of the whole stream |
| WebSearch.CollectedDistinct | apps/server/src/ai/tools/web-search.ts:183-188 | the collected results have pairwise distinct URLs |
| WebSearch.SearchResultsDistinct | apps/server/src/ai/tools/web-search.ts:183-190 | every successful search returns pairwise distinct URLs |
| WebSearch.FallbackOnlyAlone | apps/server/src/ai/tools/web-search.ts:135-154 | the fallback appears only when no primary or related result survives, and is then the only result |
| WebSearch.SearchKeepsFirstOccurrence | apps/server/src/ai/tools/web-search.ts:183-190 | the first occurrence of every URL, primary results before topics, is among the collected results |
| WebSearch.RenderResultLayout | apps/server/src/ai/tools/web-search.ts:203-210 | item i opens with "i+1. title" and closes with "摘要：snippet" |
| WebSearch.RenderResults | apps/server/src/ai/tools/web-search.ts:202-211 | one rendered item per result, numbered from the given position |
| WebSearch.RenderContext | apps/server/src/ai/tools/web-search.ts:202-212 | the context opens with "1. " and the first title and closes with the last result's snippet |
| WebSearch.FetchContext | apps/server/src/ai/tools/web-search.ts:193-213 | fails exactly when the search fails; no context exactly when there are no results; otherwise the rendered results |
| WebSearch.HexDigit | apps/server/src/ai/tools/web-search.ts:152 | a hexadecimal digit is never escaped |
| WebSearch.Utf8 | apps/server/src/ai/tools/web-search.ts:152 | a code point encodes to one to four bytes, one exactly for ASCII; the lead byte's range gives the length and every later byte is a continuation byte (0x80 to 0xBF); with `WebSearch.Utf8RoundTrip` the bytes decode back to the code point |
| WebSearch.PercentBytes | apps/server/src/ai/tools/web-search.ts:152 | each byte becomes three characters, `%` and two hexadecimal digits; with `WebSearch.PercentRoundTrip` they decode back to the byte |
| WebSearch.EncodeChar | apps/server/src/ai/tools/web-search.ts:152 | an encoded character uses only `%` and unreserved characters |
| WebSearch.EncodeUriComponent | apps/server/src/ai/tools/web-search.ts:152 | the encoding uses only `%` and unreserved characters, and leaves text of unreserved characters unchanged |
| WebSearch.HexRoundTrip | apps/server/src/ai/tools/web-search.ts:152 | a hexadecimal digit reads back as its value |
| WebSearch.Utf8RoundTrip | apps/server/src/ai/tools/web-search.ts:152 | decoding the UTF-8 bytes of a code point gives the code point back |
| WebSearch.PercentRoundTrip | apps/server/src/ai/tools/web-search.ts:152 | reading the `%XY` groups of a percent-encoding gives the original bytes back |
| KnowledgeBase.Mask | dist/server/apps/server/src/ai/tools/knowledge-base.js:71 | every character outside lower-case ASCII letters, digits, the CJK block and white space becomes a space; kept characters stay in place |
| KnowledgeBase.Sanitize | dist/server/apps/server/src/ai/tools/knowledge-base.js:68-73 | the result is single spaced and holds only spaces and kept characters |
| KnowledgeBase.CollapseSanitizedFixed | dist/server/apps/server/src/ai/tools/knowledge-base.js:72 | collapsing white-space runs leaves text with no two adjacent spaces unchanged |
| KnowledgeBase.MaskLowerFixed | dist/server/apps/server/src/ai/tools/knowledge-base.js:70-71 | lower-casing and masking leave sanitised characters unchanged |
| KnowledgeBase.SanitizedFixed | dist/server/apps/server/src/ai/tools/knowledge-base.js:68-73 | every step of the sanitiser leaves sanitised text unchanged |
| KnowledgeBase.SanitizeIdempotent | dist/server/apps/server/src/ai/tools/knowledge-base.js:68-73 | sanitising twice is sanitising once |
| KnowledgeBase.Tokenize | dist/server/apps/server/src/ai/tools/knowledge-base.js:74-77 | the tokens are non-empty, made of kept characters only, and joined by single spaces give back the sanitised text |
| KnowledgeBase.CountMatches | dist/server/apps/server/src/ai/tools/knowledge-base.js:85-90 | at most one match per query token, and all of them exactly when every query token occurs in the entry |
| KnowledgeBase.Fraction | dist/server/apps/server/src/ai/tools/knowledge-base.js:99 | the matched fraction lies in [0, 1] and is 1 when every token matches |
| KnowledgeBase.FractionBounds | dist/server/apps/server/src/ai/tools/knowledge-base.js:99 | the same bounds on the exact quotient |
| KnowledgeBase.Score | dist/server/apps/server/src/ai/tools/knowledge-base.js:78-100 | a query with no tokens scores 0; every score lies between 0 and 1 + 0.5 + 0.3 |
| KnowledgeBase.ScoreFullMatch | dist/server/apps/server/src/ai/tools/knowledge-base.js:85-99 | a query whose every token occurs in the entry scores at least 1, and exactly 1.8 when both bonuses apply |
| KnowledgeBase.Scored | dist/server/apps/server/src/ai/tools/knowledge-base.js:106-109 | every entry, in corpus order, paired with its own score |
| KnowledgeBase.Positive | dist/server/apps/server/src/ai/tools/knowledge-base.js:110 | keeps exactly the entries scoring above zero |
| KnowledgeBase.PositiveKeepsOrder | dist/server/apps/server/src/ai/tools/knowledge-base.js:110 | the filter keeps the corpus order |
| KnowledgeBase.Ranking | dist/server/apps/server/src/ai/tools/knowledge-base.js:106-112 | at most `limit` entries, each scoring above zero with its own score, best first |
| KnowledgeBase.RankingStable | dist/server/apps/server/src/ai/tools/knowledge-base.js:111 | entries with equal scores keep their corpus order, as the stable `Array.prototype.sort` does |
| KnowledgeBase.RankingIsTopK | dist/server/apps/server/src/ai/tools/knowledge-base.js:110-112 | an entry scoring above zero is left out only when `limit` entries scoring at least as much are kept |
| KnowledgeBase.NoTokensNoRanking | dist/server/apps/server/src/ai/tools/knowledge-base.js:78-82 | a query with no tokens ranks nothing |
| KnowledgeBase.NothingRanked | dist/server/apps/server/src/ai/tools/knowledge-base.js:110-112 | when nothing scores above zero the ranking is empty |
| KnowledgeBase.NothingPositive | dist/server/apps/server/src/ai/tools/knowledge-base.js:110 | the filter then keeps nothing |
| KnowledgeBase.RenderEntry | dist/server/apps/server/src/ai/tools/knowledge-base.js:117-123 | item i opens with "i+1. title" |
| KnowledgeBase.RenderAll | dist/server/apps/server/src/ai/tools/knowledge-base.js:116-124 | one rendered item per ranked entry, numbered from the given position |
| KnowledgeBase.BuildContext | dist/server/apps/server/src/ai/tools/knowledge-base.js:101-126 | nothing for a blank query; otherwise a context exactly when some entry ranks |
| KnowledgeBase.NoTokensNoContext | dist/server/apps/server/src/ai/tools/knowledge-base.js:101-115 | a query that sanitises to nothing gives no context, even when a title or tag bonus would apply |
| KnowledgeBase.FirstNumber | dist/server/apps/server/src/ai/tools/knowledge-base.js:121 | the first item is numbered "1" |
| KnowledgeBase.ContextStartsWithBest | dist/server/apps/server/src/ai/tools/knowledge-base.js:111-121 | a context opens with "1. " and the title of the best-scoring entry |
| Dialogue.SessionIndex | apps/server/src/dialogue/dialogue.service.ts:107-116 | finds the stored session with that id owned by that user, and reports none only when no such session exists |
| Dialogue.SessionMessages | apps/server/src/dialogue/dialogue.service.ts:129-136 | a session's history is drawn from the stored messages, in stored order |
| Dialogue.SessionMessagesExact | apps/server/src/dialogue/dialogue.service.ts:129-136 | the history holds exactly the stored messages carrying the session's id |
| Dialogue.SessionMessagesAppend | apps/server/src/dialogue/dialogue.service.ts:129-136 | the history of a store with messages appended is the old history followed by the appended messages of the session: an order-preserving filter |
| Dialogue.SessionMessagesSingle | apps/server/src/dialogue/dialogue.service.ts:129-136 | one stored message is in a session's history exactly when it carries the session's id |
| Dialogue.OtherMessages | apps/server/src/dialogue/dialogue.service.ts:221-226 | the cascading delete keeps exactly the messages of other sessions |
| Dialogue.Owned | apps/server/src/dialogue/dialogue.service.ts:50-52 | exactly the user's sessions |
| Dialogue.ToolDescription | apps/server/src/dialogue/dialogue.service.ts:142-154 | a tool has a description exactly when it is `web-search` or `knowledge-base` |
| Dialogue.ToolDescriptions | apps/server/src/dialogue/dialogue.service.ts:141-155 | only the two known descriptions survive, and none exactly when no tool is known |
| Dialogue.SystemText | apps/server/src/dialogue/dialogue.service.ts:139-161 | a system text exactly when some requested tool is known, and it then starts with "System: " |
| Dialogue.History | apps/server/src/dialogue/dialogue.service.ts:168-176 | every stored message becomes a message with the same role and content, in order |
| Dialogue.CompletionRequest | apps/server/src/dialogue/dialogue.service.ts:164-178 | the request carries the model and the history, behind the system message exactly when there is a system text, and nothing else |
| Dialogue.RequestEndsWithNewMessage | apps/server/src/dialogue/dialogue.service.ts:119-178 | the last user message the provider sees is the one just stored |
| Dialogue.BuildSystemMessage | apps/server/src/dialogue/dialogue.service.ts:139-161 | the system message the loop builds is `SystemText` |
| Dialogue.DialogueService.constructor | apps/server/src/dialogue/dialogue.service.ts:16-19 | no sessions and no messages |
| Dialogue.DialogueService.CreateSession | apps/server/src/dialogue/dialogue.service.ts:24-43 | appends a session with a fresh id, the given title and focus and both timestamps now, and changes nothing else |
| Dialogue.DialogueService.ListSessions | apps/server/src/dialogue/dialogue.service.ts:45-62 | exactly the user's sessions, as a permutation of them, most recently updated first |
| Dialogue.DialogueService.GetSession | apps/server/src/dialogue/dialogue.service.ts:64-99 | "会话不存在" exactly when the user owns no such session; otherwise that session with exactly its messages, in the order they were stored |
| Dialogue.DialogueService.SendMessage | apps/server/src/dialogue/dialogue.service.ts:101-206 | an unknown session fails and changes nothing; otherwise the user message is stored first, the provider is asked with the history, and on success the reply is stored and the session touched; a provider failure leaves the user message stored |
| Dialogue.DialogueService.Exchange | apps/server/src/dialogue/dialogue.service.ts:118-205 | the steps after the ownership check, with the same outcome |
| Dialogue.DialogueService.AddMessage | apps/server/src/dialogue/dialogue.service.ts:119-126 | appends one message with a fresh id and changes nothing else |
| Dialogue.DialogueService.Touch | apps/server/src/dialogue/dialogue.service.ts:191-198 | only the session's `updatedAt` changes |
| Dialogue.DialogueService.DeleteSession | apps/server/src/dialogue/dialogue.service.ts:208-227 | an unknown session fails and changes nothing; otherwise the session and its messages are removed |
| Dialogue.DeletedSessionGone | apps/server/src/dialogue/dialogue.service.ts:222-226 | since ids are unique, no session with the deleted id remains |
| Planning.ConversationLines | apps/server/src/planning/planning.service.ts:79-80 | one "role: content" line per session message, in order |
| Planning.PlanPrompt | apps/server/src/planning/planning.service.ts:83-105 | the prompt opens with the planning instructions and closes with the JSON layout and the five requirements |
| Planning.PlanRequest | apps/server/src/planning/planning.service.ts:108-111 | a single system message holding the prompt, for model `gpt-4o-mini`, with no tools |
| Planning.LastIndexOfChar | apps/server/src/planning/planning.service.ts:122 | the last position of the character, or none when it does not occur |
| Planning.JsonSpan | apps/server/src/planning/planning.service.ts:122-125 | `/\{[\s\S]*\}/` matches exactly when some `{` precedes some `}`, and the match runs from the first `{` to the last `}` |
| Planning.FallbackPlan | apps/server/src/planning/planning.service.ts:129-143 | titled "<focus>学习计划", with the session's focus and the client's task suggestions, or the three default tasks when there are none |
| Planning.PlanDataFor | apps/server/src/planning/planning.service.ts:120-144 | no JSON span, or a span that does not parse, gives the fallback plan; a span that parses gives the parsed plan; a parsed object without a task list gives no plan at all, because reading its `tasks.length` throws |
| Planning.DateField | apps/server/src/planning/planning.service.ts:43 | a date is stored exactly when the client sent a non-empty one |
| Planning.NewTasks | apps/server/src/planning/planning.service.ts:161-167 | one pending task per draft, in order, under consecutive fresh ids |
| Planning.TaskCount | apps/server/src/planning/planning.service.ts:147-167 | no plan has more tasks than are stored |
| Planning.DoneCount | apps/server/src/planning/planning.service.ts:278-289 | no plan has more done tasks than tasks |
| Planning.PlanTasks | apps/server/src/planning/planning.service.ts:28-31 | exactly the stored tasks that belong to the plan, as many as `TaskCount` says; with `Planning.CountsAppend` they are in creation order |
| Planning.TaskResponses | apps/server/src/planning/planning.service.ts:379-387 | one response per task, in order, with that task's fields |
| Planning.ToPlanResponse | apps/server/src/planning/planning.service.ts:351-391 | every field of the plan (id, title, focus, status, both counters, due date, session, both timestamps) carried over unchanged, and its task list is the response of each of the plan's tasks, in creation order |
| Planning.CountedWithinTarget | apps/server/src/planning/planning.service.ts:302-317 | a plan whose counters agree with its tasks has 0 <= completed <= target |
| Planning.CountsAppend | apps/server/src/planning/planning.service.ts:161-167 | the counts over an appended table add up |
| Planning.CountsOfPending | apps/server/src/planning/planning.service.ts:161-167 | new pending tasks of one plan count towards it and none is done |
| Planning.CountAbsent | apps/server/src/planning/planning.service.ts:40-52 | a plan with no tasks stored counts none |
| Planning.CountsUpdate | apps/server/src/planning/planning.service.ts:292-300 | changing one task of a plan changes its done count by the change in that task's status |
| Planning.WithoutPlan | apps/server/src/planning/planning.service.ts:345-348 | the cascading delete leaves no task of the plan |
| Planning.WithoutPlanMembers | apps/server/src/planning/planning.service.ts:345-348 | a task survives the delete exactly when it was stored and belongs to another plan |
| Planning.WithoutPlanAppend | apps/server/src/planning/planning.service.ts:345-348 | the surviving tasks keep their stored order: deleting from a concatenation deletes from each part |
| Planning.WithoutPlanCounts | apps/server/src/planning/planning.service.ts:345-348 | the deleted plan counts no task and every other plan keeps its counts |
| Planning.WithoutPlanBelow | apps/server/src/planning/planning.service.ts:345-348 | the delete keeps every id below the counter |
| Planning.CompletedStepsChangeAsWritten | apps/server/src/planning/planning.service.ts:278-289 | the step change as written lies in -1..1 |
| Planning.CompletedStepsChange | apps/server/src/planning/planning.service.ts:278-289 | the step change lies in -1..1, is 0 when the request leaves the status alone, and is the source's otherwise |
| Planning.UpdatedTask | apps/server/src/planning/planning.service.ts:292-300 | an updated task keeps its id and plan; the status is the new one when given and the old one otherwise |
| Planning.UpdatedPlan | apps/server/src/planning/planning.service.ts:189-202 | the plan keeps its id, owner, session and counters |
| Planning.CompletedStepsChangeKeepsCount | apps/server/src/planning/planning.service.ts:278-317 | with the corrected step change, the plan's completed steps move exactly as its done tasks do |
| Planning.CompletedStepsChangeAsWrittenMiscounts | apps/server/src/planning/planning.service.ts:278-289 | a request renaming a done task without a status subtracts a step while the done count stays the same |
| Planning.PlanIndex | apps/server/src/planning/planning.service.ts:258-270 | finds the plan with that id owned by that user, none only when no such plan exists |
| Planning.TaskIndex | apps/server/src/planning/planning.service.ts:272-275 | finds the first task with that id among the plan's tasks, none only when there is none |
| Planning.UserPlans | apps/server/src/planning/planning.service.ts:34 | exactly the user's plans |
| Planning.PlanResponses | apps/server/src/planning/planning.service.ts:37 | one response per plan, in order |
| Planning.PlanList | apps/server/src/planning/planning.service.ts:26-38 | one response per plan of the user, newest first, each the response of one of the user's plans and every one of them present |
| Planning.SortedResponses | apps/server/src/planning/planning.service.ts:33-37 | responses of the sorted plans keep the creation order and cover exactly the user's plans |
| Planning.ListedPlans | apps/server/src/planning/planning.service.ts:33 | sorting keeps exactly the same plans |
| Planning.ConsistentAfterGenerate | apps/server/src/planning/planning.service.ts:147-169 | a generated plan with its tasks keeps the store consistent, and the plan's tasks are the new ones |
| Planning.PlanWithoutTasksUncounted | apps/server/src/planning/planning.service.ts:146-158 | a stored plan whose target counts tasks that were never stored breaks the agreement between counters and tasks |
| Planning.ConsistentAfterCreate | apps/server/src/planning/planning.service.ts:40-55 | a new empty plan keeps the store consistent and has no tasks |
| Planning.ConsistentAfterInsert | apps/server/src/planning/planning.service.ts:147-167 | a plan inserted with its own pending tasks keeps the store consistent |
| Planning.AllCountedAfterInsert | apps/server/src/planning/planning.service.ts:147-167 | after that insertion every plan's counters agree with its tasks |
| Planning.TasksBelowAfterInsert | apps/server/src/planning/planning.service.ts:161-167 | new tasks under fresh ids keep every id below the counter |
| Planning.IdsAfterInsert | apps/server/src/planning/planning.service.ts:147-158 | a plan under a fresh id keeps plan ids distinct and below the counter |
| Planning.InsertCounted | apps/server/src/planning/planning.service.ts:147-167 | new tasks leave every other plan's counts alone and give the new plan exactly its own |
| Planning.NewTasksPending | apps/server/src/planning/planning.service.ts:161-167 | the created tasks are pending, belong to the plan and use fresh ids |
| Planning.ConsistentAfterAdd | apps/server/src/planning/planning.service.ts:224-246 | a new pending task and the target raised by one keep the store consistent |
| Planning.ConsistentAfterTaskUpdate | apps/server/src/planning/planning.service.ts:277-317 | a task update with the corrected step change keeps the store consistent |
| Planning.ConsistentAfterDelete | apps/server/src/planning/planning.service.ts:345-348 | deleting a plan with its tasks keeps the store consistent |
| Planning.PlanningService.ListPlans | apps/server/src/planning/planning.service.ts:26-38 | the user's plans, each with its tasks, as many as the user has, newest first, and every plan of the user appears |
| Planning.PlanningService.constructor | apps/server/src/planning/planning.service.ts:18-21 | no plans and no tasks |
| Planning.PlanningService.StepsWithinTarget | apps/server/src/planning/planning.service.ts:302-317 | in every reachable store, 0 <= completed steps <= target steps for every plan |
| Planning.PlanningService.CreatePlan | apps/server/src/planning/planning.service.ts:40-55 | appends an active plan with zero counters and no tasks, and keeps the store consistent |
| Planning.PlanningService.GeneratePlanFromSession | apps/server/src/planning/planning.service.ts:57-170 | an unknown session fails with "会话不存在" and stores nothing; otherwise the session's history goes to the provider; a provider failure, a reply without a task list, or a task the store would refuse (no summary, an unparsable due date) fails and stores nothing; any other reply succeeds and stores the plan from the parsed or fallback data with one pending task per draft, its target the number of tasks |
| Planning.PlanningService.StoreGenerated | apps/server/src/planning/planning.service.ts:146-169 | stores the plan and its tasks together under fresh ids, keeps every plan's counters agreeing with its tasks, and returns the plan with exactly the new tasks |
| Planning.PlanningService.StoreGeneratedAsWritten | apps/server/src/planning/planning.service.ts:146-169 | the two writes as the source makes them: the plan row is stored first; when a task row is refused the call fails and the plan stays behind without its tasks, and the store's invariant is broken; otherwise both are stored |
| Planning.PlanningService.UpdatePlan | apps/server/src/planning/planning.service.ts:172-205 | an unknown or foreign plan fails with "学习计划不存在" and changes nothing; otherwise only the given fields change |
| Planning.PlanningService.AddTask | apps/server/src/planning/planning.service.ts:207-249 | an unknown plan fails and changes nothing; otherwise one pending task is appended and the target grows by one |
| Planning.PlanningService.UpdateTask | apps/server/src/planning/planning.service.ts:251-330 | an unknown plan or a task of another plan fails with its message and changes nothing; otherwise that task changes and the plan's completed steps follow its done state |
| Planning.PlanningService.DeletePlan | apps/server/src/planning/planning.service.ts:332-349 | an unknown plan fails and changes nothing; otherwise the plan and all its tasks go |
| Progress.DayOfShift | apps/server/src/progress/progress.service.ts:179-181 | moving a time by i whole days moves its date key by i days |
| Progress.UserSessions | apps/server/src/progress/progress.service.ts:84-87 | exactly the user's study sessions |
| Progress.UserSessionsFromStore | apps/server/src/progress/progress.service.ts:84-87 | the user's sessions are drawn from the store, none more often than it is stored |
| Progress.LatestSessions | apps/server/src/progress/progress.service.ts:62-66 | `orderBy: { recordedAt: "desc" }, take: n` over the user's sessions: exactly `min(n, count)` of them, taken from the store, newest first, none left out newer than one listed |
| Progress.LatestFromStore | apps/server/src/progress/progress.service.ts:62-66 | the sessions taken are stored sessions of the user, no more often than stored |
| Progress.LatestAreNewest | apps/server/src/progress/progress.service.ts:62-66 | a session of the user that is left out is no newer than any session taken |
| Progress.Ascending | apps/server/src/progress/progress.service.ts:85 | a permutation of the sessions, oldest first |
| Progress.WindowsNested | apps/server/src/progress/progress.service.ts:98-107 | with no negative durations, the last week's minutes are within the last month's, which are within the total |
| Progress.InsertDay | apps/server/src/progress/progress.service.ts:245-247 | inserting a day into increasing days keeps them increasing and adds exactly that day |
| Progress.ConsIncreasing | apps/server/src/progress/progress.service.ts:245-247 | a day before every other day keeps the days increasing |
| Progress.SortedDays | apps/server/src/progress/progress.service.ts:245-247 | the distinct study days, strictly increasing, none missing |
| Progress.IncreasingCard | apps/server/src/progress/progress.service.ts:110-113 | strictly increasing days are as many as their set |
| Progress.SortedDaysCount | apps/server/src/progress/progress.service.ts:110-113 | the sorted list has one entry per active day |
| Progress.RunLength | apps/server/src/progress/progress.service.ts:269-282 | the backwards run counts at least the last day and at most every day |
| Progress.RunLengthIsMaximal | apps/server/src/progress/progress.service.ts:269-282 | a run of consecutive days up to the last day that cannot be extended backwards is exactly as long as `RunLength` |
| Progress.RunLengthConsecutive | apps/server/src/progress/progress.service.ts:269-282 | the days counted are consecutive, and the day before them, if any, is not the day before |
| Progress.StreakBounds | apps/server/src/progress/progress.service.ts:239-285 | the streak never exceeds the number of active days, and is at least 1 when the user studied today or yesterday |
| Progress.StreakOfDaysBounds | apps/server/src/progress/progress.service.ts:257-284 | the same bounds on any sorted days |
| Progress.CalculateStreakDays | apps/server/src/progress/progress.service.ts:239-285 | the loop computes `StreakDays` over the sorted distinct days: 0 without sessions or when the last study day is more than a day before today |
| Progress.LastN | apps/server/src/progress/progress.service.ts:119 | the last n items, or all of them when there are fewer, in order |
| Progress.Reverse | apps/server/src/progress/progress.service.ts:119 | the items in reverse order |
| Progress.RecentNewestFirst | apps/server/src/progress/progress.service.ts:119 | the recent sessions are at most the last 20, newest first |
| Progress.UserSnapshots | apps/server/src/progress/progress.service.ts:124 | exactly the user's snapshots |
| Progress.LatestSnapshot | apps/server/src/progress/progress.service.ts:122-125 | none exactly when the user has no snapshot; otherwise one of the user's snapshots captured no earlier than any other of theirs |
| Progress.Average | apps/server/src/progress/progress.service.ts:129 | 0 without active days; otherwise the exact quotient of the total by the active days |
| Progress.StatsConsistent | apps/server/src/progress/progress.service.ts:98-119 | the week's minutes are within the month's, which are within the total; the streak never exceeds the active days; at most 20 recent sessions |
| Progress.AscendingKeepsMinutes | apps/server/src/progress/progress.service.ts:85 | sorting keeps every duration non-negative |
| Progress.ProgressService.constructor | apps/server/src/progress/progress.service.ts:24-26 | no study sessions and no snapshots |
| Progress.ProgressService.CreateStudySession | apps/server/src/progress/progress.service.ts:33-53 | appends one session under a fresh id, recorded at the given time or now, and changes nothing else |
| Progress.ProgressService.GetStudySessions | apps/server/src/progress/progress.service.ts:58-69 | exactly `min(limit, n)` of the user's n sessions (limit 20 by default), each a stored session of the user and none listed more often than it is stored, newest first, and none left out is newer than one listed |
| Progress.ProgressService.GetProgressStats | apps/server/src/progress/progress.service.ts:74-140 | the statistics of the user's sessions at `now`, as `StatsOf` defines them, with the number of the user's done tasks in the plan and task tables as `totalCompletedTasks` |
| Progress.ProgressService.UpdateProgressSnapshot | apps/server/src/progress/progress.service.ts:223-234 | appends one snapshot with the streak, the number of the user's done tasks in the plan and task tables and the total minutes at `now`, and changes nothing else |
| Progress.ProgressService.GetProgressTrend | apps/server/src/progress/progress.service.ts:145-218 | `days` points (30 when no `days` is given), one per day from the start date on, in order, each holding the minutes of the user's sessions recorded that day since the start and the number of the user's done tasks completed that day since the start |
| Progress.DoneTasks | apps/server/src/progress/progress.service.ts:90-95 | the done-task query never selects more tasks than are stored |
| Progress.DoneTasksMembers | apps/server/src/progress/progress.service.ts:90-95 | a task is selected exactly when it is stored, its status is "done" and a plan of the user has its plan id |
| Progress.CompletionTimes | apps/server/src/progress/progress.service.ts:161-170 | one completion time per done task that has a completion date, never more times than tasks |
| Progress.TrendCompletionsBound | apps/server/src/progress/progress.service.ts:194-203 | no day of the trend counts more completions than the user has done tasks |
| Progress.InitBuckets | apps/server/src/progress/progress.service.ts:178-183 | one zeroed bucket for each of the `days` days from the start date, keys in order |
| Progress.AddMinutes | apps/server/src/progress/progress.service.ts:185-192 | each bucket gains the minutes recorded on its day; days without a bucket are dropped |
| Progress.AddCompletions | apps/server/src/progress/progress.service.ts:194-203 | each bucket gains the tasks completed on its day; days without a bucket are dropped |
| Progress.TrendEndsYesterday | apps/server/src/progress/progress.service.ts:179-183 | the last bucket is the day before today, so what is recorded today is not counted |
| Learning.PlanQuery | apps/server/src/learning/learning.service.ts:47-51 | one entry per plan of the user, newest first, each with exactly that plan's tasks; the entries' plans are a permutation of the user's plans |
| Learning.StudyQuery | apps/server/src/learning/learning.service.ts:52-56 | exactly `min(12, n)` of the user's n study sessions, each stored and no more often than stored, newest first, none left out newer than one taken |
| Learning.ChatQuery | apps/server/src/learning/learning.service.ts:62-65 | exactly the user's chat sessions, most recently updated first, as a permutation of the user's stored sessions |
| Learning.TaskDto | apps/server/src/learning/learning.service.ts:96-102 | a task's id, summary, status and dates |
| Learning.PlanDto | apps/server/src/learning/learning.service.ts:104-114 | the plan's fields and one task entry per task, in order |
| Learning.ToPlanDtos | apps/server/src/learning/learning.service.ts:91-117 | one plan entry per plan, in order |
| Learning.StudySessionDtoOf | apps/server/src/learning/learning.service.ts:122-127 | the session's id, focus, minutes and date |
| Learning.ToStudySessions | apps/server/src/learning/learning.service.ts:119-130 | one entry per study record, in order |
| Learning.ChatSessionDtoOf | apps/server/src/learning/learning.service.ts:135-140 | the session's id, title, focus and update time |
| Learning.ToChatSessions | apps/server/src/learning/learning.service.ts:132-143 | one entry per chat session, in order |
| Learning.Focuses | apps/server/src/learning/learning.service.ts:150-152 | each plan's focus, in order |
| Learning.Distinct | apps/server/src/learning/learning.service.ts:149-153 | the insertion-ordered set: no duplicates, the same focuses |
| Learning.DistinctPrefix | apps/server/src/learning/learning.service.ts:149-153 | the distinct focuses of a prefix are a prefix of the distinct focuses |
| Learning.CollectFocuses | apps/server/src/learning/learning.service.ts:149-153 | the loop collects the distinct focuses in first-seen order |
| Learning.OrElse | apps/server/src/learning/learning.service.ts:154-155 | JavaScript's `\|\|` on strings: the fallback exactly when the string is empty |
| Learning.Profile | apps/server/src/learning/learning.service.ts:145-162 | the name as given; both defaults without focuses; a single non-empty focus is both the recent focus and the goal |
| Learning.JoinTakePrefix | apps/server/src/learning/learning.service.ts:154-155 | the first two focuses joined begin the whole list joined, and are empty exactly when it is |
| Learning.RecentFocusBeginsGoal | apps/server/src/learning/learning.service.ts:154-155 | the recent focus begins the learning goal, or both are the defaults |
| Learning.ToLearnerProfile | apps/server/src/learning/learning.service.ts:145-162 | the profile of the distinct focuses |
| Learning.CountTotalCompletedSteps | apps/server/src/learning/learning.service.ts:180-186 | the loop sums the completed steps |
| Learning.TotalWithinTargets | apps/server/src/learning/learning.service.ts:180-186 | with each plan within its target, the total lies between 0 and the sum of the targets |
| Learning.StoreTotalWithinTargets | apps/server/src/learning/learning.service.ts:169 | over a consistent plan store the reported total lies between 0 and the sum of the targets |
| Learning.Round | apps/server/src/learning/learning.service.ts:197 | `Math.round`: the nearest integer, halves rounded up |
| Learning.HoursToTenths | apps/server/src/learning/learning.service.ts:197 | the hours carry at most one decimal place |
| Learning.HoursToTenthsClose | apps/server/src/learning/learning.service.ts:197 | within 0.05 of the exact hours, and exact for whole hours |
| Learning.CalculateWeeklyHours | apps/server/src/learning/learning.service.ts:188-198 | the loop sums the minutes of the sessions at most a week old and rounds the hours to tenths |
| Learning.OldSessionsIgnored | apps/server/src/learning/learning.service.ts:193 | a session more than a week old adds nothing |
| Learning.StreakOf | apps/server/src/learning/learning.service.ts:170 | the snapshot's streak, or 0 without a snapshot |
| Learning.ToStudyMetrics | apps/server/src/learning/learning.service.ts:164-178 | the total completed steps, the snapshot's streak and the weekly hours |
| Learning.GetSummary | apps/server/src/learning/learning.service.ts:36-89 | fails with "User not found while building learning summary" exactly when the user does not exist; otherwise every part is built from the user's own rows |
| Users.NormalizeEmail | apps/server/src/users/users.service.ts:53-55 | never longer, no upper-case ASCII letter left, and empty exactly when the address is all white space |
| Users.LowerKeepsSpace | apps/server/src/users/users.service.ts:54 | lower-casing neither makes nor removes white space |
| Users.LeadingOfLower | apps/server/src/users/users.service.ts:54 | lower-casing keeps the leading white space |
| Users.TrailingOfLower | apps/server/src/users/users.service.ts:54 | lower-casing keeps the trailing white space |
| Users.TrimLowerCommute | apps/server/src/users/users.service.ts:54 | trimming and lower-casing commute |
| Users.LowerDrop | apps/server/src/users/users.service.ts:54 | lower-casing commutes with dropping a prefix |
| Users.TrimEndOfLower | apps/server/src/users/users.service.ts:54 | lower-casing commutes with trimming the end |
| Users.LowerTake | apps/server/src/users/users.service.ts:54 | lower-casing commutes with taking a prefix |
| Users.NormalizeIdempotent | apps/server/src/users/users.service.ts:53-55 | a normalised address normalises to itself and has no surrounding white space |
| Users.NormalizeIgnoresCase | apps/server/src/users/users.service.ts:53-55 | addresses differing only in ASCII case normalise alike, so they find the same account |
| Users.ToDomainUser | apps/server/src/users/users.service.ts:57-67 | every field of the record, unchanged |
| Users.IndexOfEmail | apps/server/src/users/users.service.ts:30-34 | the record with that address, none only when there is no such record |
| Users.IndexOfId | apps/server/src/users/users.service.ts:42-46 | the record with that id, none only when there is no such record |
| Users.NewRecord | apps/server/src/users/users.service.ts:17-24 | the stored record has the normalised address, the given hash, a fresh id and both timestamps now |
| Users.WellFormedAfterInsert | apps/server/src/users/users.service.ts:15-26 | inserting a record under a new address keeps ids and addresses unique and addresses normalised |
| Users.AppendKeepsKeys | apps/server/src/users/users.service.ts:17-24 | a record with a fresh id and an unused address keeps ids and addresses unique |
| Users.AppendKeepsNormalized | apps/server/src/users/users.service.ts:20 | a normalised address keeps every stored address normalised |
| Users.UsersService.constructor | apps/server/src/users/users.service.ts:9-11 | no users |
| Users.UsersService.CreateUser | apps/server/src/users/users.service.ts:15-26 | a taken normalised address fails the unique constraint and changes nothing; otherwise one record is appended, and the user is then found by the address as given |
| Users.UsersService.FindByEmail | apps/server/src/users/users.service.ts:28-39 | found exactly when some record has the normalised address, and then the domain view of such a record, of every such record when keys are distinct |
| Users.UsersService.FindById | apps/server/src/users/users.service.ts:41-51 | found exactly when some record has the id, and then the domain view of such a record, of every such record when keys are distinct |
| Auth.ToAuthUser | apps/server/src/auth/auth.service.ts:88-94 | the user's id, address and display name |
| Auth.Payload | apps/server/src/auth/auth.service.ts:70-74 | the token's subject is the user's id, with the address and display name |
| Auth.BuildAuthResult | apps/server/src/auth/auth.service.ts:69-86 | the public user and a token signed over the payload, expiring after the configured time or "1h" |
| Auth.Register | apps/server/src/auth/auth.service.ts:39-53 | a taken address fails with "邮箱已被注册" and stores nothing; otherwise exactly one user is added, with the normalised address and the password hashed with 12 salt rounds, and signed in |
| Auth.Login | apps/server/src/auth/auth.service.ts:55-67 | succeeds exactly when the address is known and the password matches its hash; every failure is "邮箱或密码不正确" |
| Auth.RegisteredUserCanLogIn | apps/server/src/auth/auth.service.ts:39-67 | a registered user logs in with the same password under any spelling of the address that normalises alike |
| ServerEnv.ResolveNodeEnv | apps/server/src/config/env.ts:7-12 | always one of "production", "test" and "development"; a known name is kept and anything else, unset included, is "development" |
| ServerEnv.DigitRun | apps/server/src/config/env.ts:42 | the longest run of decimal digits at the start |
| ServerEnv.ParseInt | apps/server/src/config/env.ts:42-43 | `Number.parseInt(value, 10)` is `NaN` exactly when no digit follows the leading white space and the sign |
| ServerEnv.ParseSigned | apps/server/src/config/env.ts:42 | after the white space, no number exactly when no digit follows the sign |
| ServerEnv.Unsigned | apps/server/src/config/env.ts:42 | dropping the sign never lengthens the text |
| ServerEnv.DigitRunOfDigits | apps/server/src/config/env.ts:42 | the digit run of digits followed by a non-digit is exactly those digits |
| ServerEnv.DigitsValueOfNat | apps/server/src/config/env.ts:42 | the decimal digits of n have the value n |
| ServerEnv.ParseIntRoundTrip | apps/server/src/config/env.ts:42 | `parseInt` reads back the decimal text of any integer, whatever non-digit follows it |
| ServerEnv.ParseNonNegative | apps/server/src/config/env.ts:42 | digits followed by a non-digit parse to their value |
| ServerEnv.ParseNegative | apps/server/src/config/env.ts:42 | a minus sign and digits parse to the negated value |
| ServerEnv.NoLeadingSpace | apps/server/src/config/env.ts:42 | a text starting with a digit or a sign has no leading white space to skip |
| ServerEnv.ParseIntNoDigits | apps/server/src/config/env.ts:42-45 | a text with no digit at all is not a number |
| ServerEnv.ReadNumber | apps/server/src/config/env.ts:37-47 | the fallback for an unset or empty variable; otherwise the parsed value, or "Environment variable <key> must be a valid integer." exactly when it does not parse |
| ServerEnv.ReadNumberRoundTrip | apps/server/src/config/env.ts:37-47 | a variable holding the decimal text of n reads as n |
| ServerEnv.EnvLoader.constructor | apps/server/src/config/env.ts:5 | nothing recorded missing yet |
| ServerEnv.EnvLoader.TrackMissing | apps/server/src/config/env.ts:19-23 | the key is recorded once, after the keys already recorded |
| ServerEnv.EnvLoader.ReadRequired | apps/server/src/config/env.ts:25-35 | the variable when set; otherwise the fallback, or ""; the key is recorded missing exactly when it is unset and there is no fallback or this is production |
| ServerEnv.MissingKeys | apps/server/src/config/env.ts:49-53 | the token variables that are unset, without duplicates, in the order read |
| ServerEnv.Load | apps/server/src/config/env.ts:49-71 | a port that does not parse fails first; otherwise loading fails exactly in production with an unset token variable, with a message naming them; a loaded configuration holds the values read |
| ServerEnv.OneFlag | apps/server/src/config/env.ts:14-17 | exactly one of the three flags is set |
| Environment.Get | apps/server/src/config/env.ts:26 | the variable's value exactly when it is set |
| Environment.Optional | src/config/env.ts:14-20 | absent exactly when the variable is unset or empty, its value otherwise |
| Environment.RequiredValue | apps/server/src/config/env.ts:25-35 | the variable when set, otherwise the fallback or "" |
| Environment.Tracked | apps/server/src/config/env.ts:19-23 | the list grows by the key unless it is already there, keeps its order and stays free of duplicates |
| Environment.TrackedIdempotent | apps/server/src/config/env.ts:19-23 | tracking a key twice is tracking it once |
| Environment.MissingMessage | apps/server/src/config/env.ts:53-57 | "Missing required environment variables: " followed by the keys, every missing key appearing in the message and the last one at the end |
| WebEnv.VarName | src/config/env.ts:22-27 | every public setting is read from a `NEXT_PUBLIC_` variable |
| WebEnv.VarNamesDistinct | src/config/env.ts:22-27 | distinct settings read distinct variables |
| WebEnv.NodeEnv | src/config/env.ts:3-6 | "development" only when the variable is unset; any other value is kept, unvalidated |
| WebEnv.ReadOptionalPublicEnv | src/config/env.ts:53-61 | absent exactly when the setting's variable is unset or empty |
| WebEnv.PublicEnvLoader.constructor | src/config/env.ts:1 | nothing recorded missing yet |
| WebEnv.PublicEnvLoader.TrackMissing | src/config/env.ts:8-12 | the key is recorded once, after the keys already recorded |
| WebEnv.PublicEnvLoader.ReadRequiredPublicEnv | src/config/env.ts:38-51 | the variable when set; otherwise the fallback, or ""; the variable's name is recorded exactly when it is unset and there is no fallback or this is production |
| WebEnv.MissingKeys | src/config/env.ts:63-83 | the required public variables that are unset, without duplicates, in the order read |
| WebEnv.Load | src/config/env.ts:63-87 | fails exactly in production with the API base URL or the application name unset, naming them; a loaded configuration holds the values read |
| WebEnv.UnknownNodeEnvSetsNoFlag | src/config/env.ts:63-81 | an unknown node environment sets none of the three flags and becomes the default Sentry environment |
| ApiClient.GetApiBaseUrl | src/lib/api/client.ts:17-26 | on the server, the variable or "http://127.0.0.1:3001"; in the browser, the injected URL first |
| ApiClient.MergeHeaders | src/lib/api/client.ts:38-46 | exactly the JSON content type, the caller's headers and, with a non-empty token, the bearer header; caller headers win over the default and the token wins over a caller's `Authorization` |
| ApiClient.BuildRequest | src/lib/api/client.ts:48-51 | the request goes to "<base>/api/<path>" with the caller's method and body and the merged headers |
| ApiClient.BearerRoundTrip | src/lib/api/client.ts:44-46 | the bearer header carries back exactly the token given |
| ApiClient.MessageField | src/lib/api/client.ts:72-75 | present exactly when the payload is an object with a `message` |
| ApiClient.GenericError | src/lib/api/client.ts:84 | "Request failed with status " followed by the status |
| ApiClient.SafeReadError | src/lib/api/client.ts:69-85 | a string `message` first, else the first element of a non-empty array `message` when it is a string, else the generic message, also when the body is not JSON |
| ApiClient.Outcome | src/lib/api/client.ts:53-66 | a failed status rejects with the read error; 204 or a zero content length resolves to nothing; any other success resolves to the parsed body, or rejects when it is not JSON |
| ApiClient.NoContentIgnoresBody | src/lib/api/client.ts:59-64 | an empty success does not depend on the body |
| ApiClient.FailureAlwaysRejects | src/lib/api/client.ts:53-56 | a failed status always rejects, and without a usable message the error names the status |
| Strings.Trim | apps/server/src/users/users.service.ts:54 | `String.prototype.trim`: the text between the leading and the trailing white space, empty exactly when the text is all white space |
| Strings.TrimIdempotent | apps/server/src/users/users.service.ts:54 | trimming twice is trimming once |
| Strings.Lower | apps/server/src/users/users.service.ts:54 | `toLowerCase` on ASCII: same length, each character lower-cased |
| Strings.LowerIdempotent | apps/server/src/users/users.service.ts:54 | lower-casing twice is lower-casing once |
| Strings.IndexOf | dist/server/apps/server/src/ai/tools/knowledge-base.js:91-98 | the first position where the text occurs, none exactly when it occurs nowhere |
| Strings.ContainsIff | dist/server/apps/server/src/ai/tools/knowledge-base.js:91-98 | `includes` holds exactly when the text occurs somewhere |
| Strings.Join | apps/server/src/learning/learning.service.ts:154-155 | `join` starts with the first part and is the part itself when there is only one |
| Strings.JoinEndsWith | dist/server/apps/server/src/ai/tools/knowledge-base.js:123-125 | `join` ends with the last part |
| Strings.Split | apps/server/src/ai/tools/web-search.ts:55 | `split`: at least one part, none containing the separator; without an occurrence the one part is the whole string, otherwise the first part ends at the leftmost occurrence |
| Strings.SplitJoin | apps/server/src/ai/tools/web-search.ts:55-56 | joining the parts with the separator gives back the text |
| Strings.SplitKeeps | dist/server/apps/server/src/ai/tools/knowledge-base.js:76 | the parts keep only characters of the text other than the separator |
| Strings.CollapseSpaces | apps/server/src/ai/tools/web-search.ts:39 | `replace(/\s+/g, " ")`: every white-space run becomes a single ' ', and the text starts with one exactly when it started with white space |
| Strings.CollapseKeeps | dist/server/apps/server/src/ai/tools/knowledge-base.js:72 | collapsing adds no character other than ' ' |
| Strings.TrimSingleSpaced | apps/server/src/ai/tools/web-search.ts:40 | single-spaced text is its own trim |
| Strings.CollapseThenTrim | apps/server/src/ai/tools/web-search.ts:39-40 | collapsing and then trimming gives single-spaced text |
| Strings.SplitSingleSpacedNonEmpty | dist/server/apps/server/src/ai/tools/knowledge-base.js:76 | splitting non-empty single-spaced text on " " gives no empty token |
| Strings.NatToString | dist/server/apps/server/src/ai/tools/knowledge-base.js:121 | the decimal text of a number is non-empty and made of digits |
| Strings.IntToString | apps/server/src/config/env.ts:44 | the decimal text of an integer is non-empty |
| Sorting.Insert | dist/server/apps/server/src/ai/tools/knowledge-base.js:111 | inserting into a sorted list keeps it sorted and adds exactly that item |
| Sorting.SortDesc | dist/server/apps/server/src/ai/tools/knowledge-base.js:111 | the sort is a permutation, highest key first |
| Sorting.SortDescStable | dist/server/apps/server/src/ai/tools/knowledge-base.js:111 | items with equal keys keep their original order, as `Array.prototype.sort` does |
| Sorting.InsertStable | dist/server/apps/server/src/ai/tools/knowledge-base.js:111 | inserting an item that comes after every other item keeps the order stable |
| Sorting.Take | dist/server/apps/server/src/ai/tools/knowledge-base.js:112 | `slice(0, n)`: a prefix of at most n items, exactly n when there are enough |
| Sorting.Top | dist/server/apps/server/src/ai/tools/knowledge-base.js:111-112 | the first n items of the sorted list: sorted, taken from the input, as many as there are up to n |
| Sorting.TopIsBest | dist/server/apps/server/src/ai/tools/knowledge-base.js:111-112 | an item left out means n items were kept, none with a lower key |
| Sorting.TopStable | dist/server/apps/server/src/ai/tools/knowledge-base.js:111-112 | the kept items with equal keys keep their original order |

## Left out

- I/O and the network are not modelled. The DuckDuckGo reply, the OpenAI HTTP exchange, the Vercel AI SDK call, the models request and the front end's `fetch` response are inputs. A rejected request is an `Err` input.
- The clock is not modelled. Every operation that reads `new Date()` or `Date.now()` takes `now` in milliseconds. Dates are integers, and a `YYYY-MM-DD` key is the UTC day number, which orders the same way. `toISOString` formatting is not modelled.
- bcrypt `hash` and `compare` and JWT `signAsync` are function parameters. Their cryptography is not modelled.
- `JSON.parse` of the AI reply is the `parse` parameter of plan generation. The front end's parsed body is a `Json` value, or none when the body is not JSON.
- Prisma is an in-memory store. Ids are counters instead of generated strings, `createdAt` order is insertion order, and `$transaction` reads one consistent state. The Prisma schema is not part of this model. From the services and the client's types, the model infers these column defaults: plan status "active", task status "pending", `targetSteps` 0 and `completedSteps` 0. It also infers the cascading deletes of a session's messages and of a plan's tasks, and the unique e-mail constraint.
- The shapes of `apps/server/src/ai/providers/ai-provider.interface.ts` are the `AiTypes` datatypes: messages, completion options, completion results and model descriptions. The abstract `AiProvider` class has no counterpart of its own. Each provider module has the same two operations, `GenerateCompletion` and `ListModels`.
- Request validation with DTO decorators is not modelled. Inputs reach the services as given.
- Numbers are exact. Weekly hours and the average daily minutes use reals, with `Math.round` modelled as rounding halves up. Integer overflow, double precision and `parseInt` of values beyond 2^53 are not modelled.
- Unicode is simplified. `toLowerCase` lower-cases ASCII letters only. The knowledge-base sanitiser's `normalize("NFKC")` is not modelled. White space is the 25 characters that `\s` matches. Characters are Unicode scalar values, so `encodeURIComponent` never meets a lone surrogate.
- `createStudySession` starts `updateProgressSnapshot` without waiting and ignores its failure. The model does not run that call from `CreateStudySession`. `UpdateProgressSnapshot` is a separate method with the same effect.
- The mock provider's 1000 ms delay is not modelled, and logger warnings in tool preparation are not modelled.
- The deep-analysis instruction text is not shown in the source. It is the `deepThinking` parameter of message preparation.
- ApiClient.MergeHeaders: header names are compared as exact strings. `fetch` treats them case-insensitively, so a caller's `authorization` and the added `Authorization` become one header there but stay two keys in the model.
- Headers given to `apiFetch` as a `Headers` instance or as an array of pairs are not modelled. Only the record form is.
- The search request's URL parameters are not modelled. Only the trimmed query, which decides whether a request is made, is.
- Progress.StatsConsistent: states the ordering of the minute windows and the bounds on the streak and on the recent sessions. It does not bound the average daily minutes.
- Progress.ProgressService.GetProgressTrend: the trend covers the `days` days before today and leaves today's records out, as the source does (see `Progress.TrendEndsYesterday`). The model records this behaviour and does not treat it as a bug.
- Planning.PlanningService.UpdateTask: uses the corrected step change of the finding below. The store's invariant holds only with that correction.
- Planning.PlanningService.GeneratePlanFromSession: uses the corrected store of the second finding below. It checks every task row before writing anything, so a refused task row leaves the store unchanged. The source leaves the plan behind, as `StoreGeneratedAsWritten` shows.
- Planning.PlanDataFor: the parsed reply is a `ParsedReply` value. The model assumes its title and focus are strings. A `tasks` field that is not an array but has a `length` is not modelled, and neither is a task whose summary is not a string.
- Whether `new Date(dueDate)` gives a valid date is the `validDate` parameter of plan generation. The time of a stored completion date is the `timeOf` parameter of the progress trend. Date parsing is not modelled.
- The progress queries that join tasks to their plans (`plan: { userId }`) take the plan and task tables as the `plans` and `tasks` parameters of `GetProgressStats`, `UpdateProgressSnapshot` and `GetProgressTrend`. Those tables are the store of `Planning.PlanningService`.
- KnowledgeBase.Entries: the five built-in entries are plain data without a contract. Any proof obligation that unfolds the literal goes beyond the solver's resource limit. So every function over the entries, `ToolPreparation.KnowledgeContext` included, takes the corpus as a parameter, and nothing is proved about the literal's contents.

## Findings

| source | as written | input that shows it | evidently intended | confidence | as-written member | corrected member |
|---|---|---|---|---|---|---|
| apps/server/src/planning/planning.service.ts:278-289 | `nowCompleted` is `dto.status === "done"`, so a request without `status` counts as "not done" | a done task updated with only a new `summary`: the status stays "done", but `completedSteps` drops by 1 | compare against the status after the update (`dto.status ?? task.status`), so that `completedSteps` keeps counting the done tasks | not executed | Planning.CompletedStepsChangeAsWritten (with Planning.CompletedStepsChangeAsWrittenMiscounts) | Planning.CompletedStepsChange (with Planning.CompletedStepsChangeKeepsCount and Planning.ConsistentAfterTaskUpdate) |
| apps/server/src/planning/planning.service.ts:146-167 | the plan row is created, then its task rows, with no transaction; `targetSteps` is set to the number of tasks before any task is stored | a reply whose task has the due date "next week" (an invalid date) or no summary: its task rows are refused, the plan stays behind with `targetSteps` 1 and no tasks, and the call fails | store the plan and its tasks together or not at all, so that `targetSteps` counts the plan's tasks | not executed | Planning.PlanningService.StoreGeneratedAsWritten (with Planning.PlanWithoutTasksUncounted) | Planning.PlanningService.GeneratePlanFromSession (with Planning.PlanningService.StoreGenerated and Planning.ConsistentAfterGenerate) |
