/** Tool preparation for a completion request
    (`apps/server/src/ai/providers/tool-preparation.ts`): the last user
    message is the query, the knowledge-base and web-search enrichers add
    context sections, a deep-analysis instruction may follow, and everything
    is merged into the first system message or a new system message at the
    front. Messages are values, so the copy the source makes is the input
    itself. The reply of the web search request and the deep-analysis text
    are parameters. */
module ToolPreparation {
  import opened Wrappers
  import opened Strings
  import opened AiTypes
  import KnowledgeBase
  import WebSearch

  const KNOWLEDGE_BASE_TOOL: string := "knowledge-base"
  const WEB_SEARCH_TOOL: string := "web-search"
  const DEEP_ANALYZE_TOOL: string := "deep-analyze"

  const KNOWLEDGE_PREFIX: string := "知识库检索结果：\n"
  const WEB_PREFIX: string := "联网搜索结果：\n"
  const PREAMBLE: string := "请结合以下补充材料回答用户问题。"
  const CLOSING: string := "如资料存在冲突，请说明你的判断依据。"
  const PARAGRAPH: string := "\n\n"

  // ------------------------------------------------------- last user message

  /** The index of the last message with role user. */
  function LastUserIndex(messages: seq<Message>): (r: Option<nat>)
    ensures r.Some? ==> r.value < |messages| && messages[r.value].role == User
    ensures r.Some? ==> forall j :: r.value < j < |messages| ==> messages[j].role != User
    ensures r.None? ==> forall j :: 0 <= j < |messages| ==> messages[j].role != User
  {
    if messages == [] then None
    else if messages[|messages| - 1].role == User then Some(|messages| - 1)
    else LastUserIndex(messages[..|messages| - 1])
  }

  /** `findLastUserMessage`: scans from the end. */
  method FindLastUserMessage(messages: seq<Message>) returns (r: Option<Message>)
    ensures r.Some? <==> LastUserIndex(messages).Some?
    ensures r.Some? ==> r.value == messages[LastUserIndex(messages).value]
  {
    var index := |messages| - 1;
    while index >= 0
      invariant -1 <= index < |messages|
      invariant forall j :: index < j < |messages| ==> messages[j].role != User
    {
      if messages[index].role == User {
        return Some(messages[index]);
      }
      index := index - 1;
    }
    return None;
  }

  /** The backwards scan and the `filter(...).at(-1)` idiom the providers
      use find the same message. */
  lemma {:induction false} LastUserAtIndex(messages: seq<Message>)
    ensures LastUser(messages) == match LastUserIndex(messages)
      case Some(u) => Some(messages[u])
      case None => None
  {
    if messages != [] {
      var init := messages[..|messages| - 1];
      if messages[|messages| - 1].role != User {
        LastUserAtIndex(init);
        if LastUserIndex(init).Some? {
          assert messages[LastUserIndex(init).value] == init[LastUserIndex(init).value];
        }
      }
    }
  }

  // ------------------------------------------------------------- sections

  /** `hasActiveTools`: some tool is one of the two enrichers. */
  function HasActiveTools(tools: seq<string>): (b: bool)
    ensures b <==> KNOWLEDGE_BASE_TOOL in tools || WEB_SEARCH_TOOL in tools
  {
    if tools == [] then false
    else tools[0] == KNOWLEDGE_BASE_TOOL || tools[0] == WEB_SEARCH_TOOL || HasActiveTools(tools[1..])
  }

  /** What one enricher pushes for the context it obtained: the prefixed
      context when there is a non-empty one, nothing otherwise. */
  function Section(prefix: string, context: Option<string>): (r: seq<string>)
    ensures |r| <= 1
    ensures r != [] <==> context.Some? && context.value != []
    ensures r != [] ==> r[0] == prefix + context.value && prefix <= r[0]
  {
    if context.Some? && context.value != [] then [prefix + context.value] else []
  }

  /** The knowledge-base context `appendKnowledgeContext` obtains, with
      the default limit of three entries: none for a blank query or when
      nothing ranks, otherwise opening with the best entry's title. */
  function KnowledgeContext(corpus: seq<KnowledgeBase.Entry>, query: string): (r: Option<string>)
    ensures AllSpace(query) ==> r == None
    ensures r.Some? <==> !AllSpace(query) && KnowledgeBase.Ranking(corpus, Trim(query), KnowledgeBase.DEFAULT_LIMIT) != []
    ensures r.Some? ==>
      "1. " + KnowledgeBase.Ranking(corpus, Trim(query), KnowledgeBase.DEFAULT_LIMIT)[0].entry.title <= r.value
  {
    var r := KnowledgeBase.BuildContext(corpus, query, KnowledgeBase.DEFAULT_LIMIT);
    if r.Some? then
      KnowledgeBase.ContextStartsWithBest(corpus, query, KnowledgeBase.DEFAULT_LIMIT);
      r
    else r
  }

  /** The web context `appendWebSearchContext` obtains; a failed search
      is caught and yields none. */
  function WebContext(query: string, reply: Result<WebSearch.HttpReply, string>): (r: Option<string>)
    ensures WebSearch.FetchContext(query, WebSearch.DEFAULT_LIMIT, reply).Err? ==> r.None?
  {
    match WebSearch.FetchContext(query, WebSearch.DEFAULT_LIMIT, reply)
    case Ok(context) => context
    case Err(_) => None
  }

  /** The shared `sections` array the enrichers push into. */
  class Sections {
    var items: seq<string>

    constructor()
      ensures items == []
    {
      items := [];
    }

    /** `appendKnowledgeContext`. */
    method AppendKnowledgeContext(corpus: seq<KnowledgeBase.Entry>, query: string)
      modifies this
      ensures items == old(items) + Section(KNOWLEDGE_PREFIX, KnowledgeContext(corpus, query))
    {
      var context := KnowledgeBase.BuildContext(corpus, query, KnowledgeBase.DEFAULT_LIMIT);
      if context.Some? && context.value != [] {
        items := items + [KNOWLEDGE_PREFIX + context.value];
      }
    }

    /** `appendWebSearchContext`; the failure branch only logs. */
    method AppendWebSearchContext(query: string, reply: Result<WebSearch.HttpReply, string>)
      modifies this
      ensures items == old(items) + Section(WEB_PREFIX, WebContext(query, reply))
    {
      var outcome := WebSearch.FetchContext(query, WebSearch.DEFAULT_LIMIT, reply);
      if outcome.Ok? && outcome.value.Some? && outcome.value.value != [] {
        items := items + [WEB_PREFIX + outcome.value.value];
      }
    }
  }

  /** The sections for the contexts obtained: knowledge base first, then
      web search, each only when its tool is requested. */
  function Assemble(tools: seq<string>, knowledge: Option<string>, web: Option<string>): (r: seq<string>)
    ensures |r| <= 2
    ensures KNOWLEDGE_BASE_TOOL !in tools && WEB_SEARCH_TOOL !in tools ==> r == []
    ensures forall i :: 0 <= i < |r| ==> KNOWLEDGE_PREFIX <= r[i] || WEB_PREFIX <= r[i]
    ensures KNOWLEDGE_BASE_TOOL in tools && Section(KNOWLEDGE_PREFIX, knowledge) != [] ==> r != [] && r[0] == KNOWLEDGE_PREFIX + knowledge.value
    ensures WEB_SEARCH_TOOL in tools && Section(WEB_PREFIX, web) != [] ==> r != [] && r[|r| - 1] == WEB_PREFIX + web.value
    ensures KNOWLEDGE_BASE_TOOL !in tools ==> forall i :: 0 <= i < |r| ==> WEB_PREFIX <= r[i]
    ensures WEB_SEARCH_TOOL !in tools ==> forall i :: 0 <= i < |r| ==> KNOWLEDGE_PREFIX <= r[i]
  {
    (if KNOWLEDGE_BASE_TOOL in tools then Section(KNOWLEDGE_PREFIX, knowledge) else [])
    + (if WEB_SEARCH_TOOL in tools then Section(WEB_PREFIX, web) else [])
  }

  /** What `buildContextSections` returns. */
  function ContextSections(corpus: seq<KnowledgeBase.Entry>, tools: seq<string>, query: string, reply: Result<WebSearch.HttpReply, string>): seq<string> {
    Assemble(tools, KnowledgeContext(corpus, query), WebContext(query, reply))
  }

  /** `buildContextSections`. */
  method BuildContextSections(corpus: seq<KnowledgeBase.Entry>, tools: seq<string>, query: string, reply: Result<WebSearch.HttpReply, string>)
    returns (sections: seq<string>)
    ensures sections == ContextSections(corpus, tools, query, reply)
  {
    ghost var knowledge := if KNOWLEDGE_BASE_TOOL in tools then Section(KNOWLEDGE_PREFIX, KnowledgeContext(corpus, query)) else [];
    ghost var web := if WEB_SEARCH_TOOL in tools then Section(WEB_PREFIX, WebContext(query, reply)) else [];
    var builder := new Sections();
    if KNOWLEDGE_BASE_TOOL in tools {
      builder.AppendKnowledgeContext(corpus, query);
    }
    assert builder.items == knowledge;
    if WEB_SEARCH_TOOL in tools {
      builder.AppendWebSearchContext(query, reply);
    }
    assert builder.items == knowledge + web;
    sections := builder.items;
  }

  // ---------------------------------------------------------- instructions

  /** The context instruction: preamble, sections and closing line, one
      blank line apart. */
  function ContextInstruction(sections: seq<string>): string {
    Join([PREAMBLE] + sections + [CLOSING], PARAGRAPH)
  }

  lemma ContextInstructionLayout(sections: seq<string>)
    ensures PREAMBLE <= ContextInstruction(sections)
    ensures EndsWith(ContextInstruction(sections), CLOSING)
  {
    var parts := [PREAMBLE] + sections + [CLOSING];
    assert parts[0] == PREAMBLE;
    JoinEndsWith(parts, PARAGRAPH);
  }

  /** The instructions collected by `prepareMessagesWithTooling`: the context
      instruction when there are sections, then the deep-analysis text when
      that tool is requested. */
  function Instructions(tools: seq<string>, sections: seq<string>, deepThinking: string): (r: seq<string>)
    ensures |r| <= 2
    ensures r == [] <==> sections == [] && DEEP_ANALYZE_TOOL !in tools
    ensures sections != [] ==> r[0] == ContextInstruction(sections)
    ensures DEEP_ANALYZE_TOOL in tools ==> r[|r| - 1] == deepThinking
  {
    (if |sections| > 0 then [ContextInstruction(sections)] else [])
    + (if DEEP_ANALYZE_TOOL in tools then [deepThinking] else [])
  }

  /** The `instructions` array of `prepareMessagesWithTooling`, pushed to
      step by step. */
  method CollectInstructions(tools: seq<string>, sections: seq<string>, deepThinking: string)
    returns (instructions: seq<string>)
    ensures instructions == Instructions(tools, sections, deepThinking)
  {
    instructions := [];
    if |sections| > 0 {
      instructions := instructions + [Join([PREAMBLE] + sections + [CLOSING], PARAGRAPH)];
    }
    if DEEP_ANALYZE_TOOL in tools {
      instructions := instructions + [deepThinking];
    }
  }

  // ---------------------------------------------------------------- merge

  /** `findIndex` of the first system message. */
  function FirstSystemIndex(messages: seq<Message>): (r: Option<nat>)
    ensures r.Some? ==> r.value < |messages| && messages[r.value].role == System
    ensures r.Some? ==> forall j :: 0 <= j < r.value ==> messages[j].role != System
    ensures r.None? ==> forall j :: 0 <= j < |messages| ==> messages[j].role != System
  {
    if messages == [] then None
    else if messages[0].role == System then Some(0)
    else match FirstSystemIndex(messages[1..])
      case Some(i) => Some(i + 1)
      case None => None
  }

  /** The messages after `mergeInstructions`. */
  function Merged(messages: seq<Message>, instructions: seq<string>): seq<Message> {
    var additional := Join(instructions, PARAGRAPH);
    match FirstSystemIndex(messages)
    case Some(i) => messages[i := messages[i].(content := messages[i].content + PARAGRAPH + additional)]
    case None => [Message(System, additional)] + messages
  }

  /** `mergeInstructions`: the array is updated in place, either at the
      first system message or by `unshift`. */
  method MergeInstructions(messages: seq<Message>, instructions: seq<string>) returns (r: seq<Message>)
    ensures r == Merged(messages, instructions)
  {
    r := messages;
    var systemIndex := FirstSystemIndex(r);
    var additional := Join(instructions, PARAGRAPH);
    if systemIndex.Some? {
      var i := systemIndex.value;
      r := r[i := r[i].(content := r[i].content + PARAGRAPH + additional)];
      return;
    }
    r := [Message(System, additional)] + r;
  }

  /** With a system message, only the first one changes: its content gains
      a blank line and the joined instructions. */
  lemma MergedIntoFirstSystem(messages: seq<Message>, instructions: seq<string>)
    requires FirstSystemIndex(messages).Some?
    ensures var i := FirstSystemIndex(messages).value;
      var r := Merged(messages, instructions);
      && |r| == |messages|
      && r[i] == Message(System, messages[i].content + PARAGRAPH + Join(instructions, PARAGRAPH))
      && (forall j :: 0 <= j < |r| && j != i ==> r[j] == messages[j])
      && (forall j :: 0 <= j < i ==> r[j].role != System)
  {
  }

  /** Without a system message, one is put in front and every other
      message moves up by one, unchanged. */
  lemma MergedInsertsSystem(messages: seq<Message>, instructions: seq<string>)
    requires FirstSystemIndex(messages).None?
    ensures var r := Merged(messages, instructions);
      && |r| == |messages| + 1
      && r[0] == Message(System, Join(instructions, PARAGRAPH))
      && (forall j :: 0 <= j < |messages| ==> r[j + 1] == messages[j])
  {
  }

  /** Merging only touches system messages, so the user messages stay. */
  lemma MergedKeepsUserMessages(messages: seq<Message>, instructions: seq<string>)
    ensures UserMessages(Merged(messages, instructions)) == UserMessages(messages)
  {
    var additional := Join(instructions, PARAGRAPH);
    match FirstSystemIndex(messages)
    case Some(i) =>
      UserMessagesUpdate(messages, i, messages[i].(content := messages[i].content + PARAGRAPH + additional));
    case None =>
      UserMessagesInsert(Message(System, additional), messages);
  }

  // ------------------------------------------------------------- pipeline

  /** `prepareMessagesWithTooling`, given the web-search reply and the
      deep-analysis text. */
  function Prepared(options: CompletionOptions, corpus: seq<KnowledgeBase.Entry>, deepThinking: string, reply: Result<WebSearch.HttpReply, string>): seq<Message> {
    var tools := options.tools.GetOr([]);
    if |tools| == 0 then options.messages
    else
      match LastUserIndex(options.messages)
      case None => options.messages
      case Some(u) =>
        var sections := if HasActiveTools(tools) then ContextSections(corpus, tools, options.messages[u].content, reply) else [];
        var instructions := Instructions(tools, sections, deepThinking);
        if |instructions| == 0 then options.messages else Merged(options.messages, instructions)
  }

  method PrepareMessagesWithTooling(options: CompletionOptions, corpus: seq<KnowledgeBase.Entry>, deepThinking: string, reply: Result<WebSearch.HttpReply, string>)
    returns (r: seq<Message>)
    ensures r == Prepared(options, corpus, deepThinking, reply)
  {
    var requestedTools := options.tools.GetOr([]);
    var baseMessages := options.messages;
    if |requestedTools| == 0 {
      return baseMessages;
    }
    var lastUserMessage := FindLastUserMessage(options.messages);
    if lastUserMessage.None? {
      return baseMessages;
    }
    ghost var u := LastUserIndex(options.messages).value;
    assert lastUserMessage.value == options.messages[u];
    var contextSections := [];
    if HasActiveTools(requestedTools) {
      contextSections := BuildContextSections(corpus, requestedTools, lastUserMessage.value.content, reply);
    }
    assert contextSections == if HasActiveTools(requestedTools) then ContextSections(corpus, requestedTools, options.messages[u].content, reply) else [];
    var instructions := CollectInstructions(requestedTools, contextSections, deepThinking);
    if |instructions| == 0 {
      return baseMessages;
    }
    r := MergeInstructions(baseMessages, instructions);
  }

  /** Without tools the messages come back unchanged. */
  lemma NoToolsUnchanged(options: CompletionOptions, corpus: seq<KnowledgeBase.Entry>, deepThinking: string, reply: Result<WebSearch.HttpReply, string>)
    requires options.tools.None? || options.tools.value == []
    ensures Prepared(options, corpus, deepThinking, reply) == options.messages
  {
  }

  /** Without a user message the messages come back unchanged, even when
      deep analysis is requested. */
  lemma NoUserUnchanged(options: CompletionOptions, corpus: seq<KnowledgeBase.Entry>, deepThinking: string, reply: Result<WebSearch.HttpReply, string>)
    requires forall j :: 0 <= j < |options.messages| ==> options.messages[j].role != User
    ensures Prepared(options, corpus, deepThinking, reply) == options.messages
  {
    assert LastUserIndex(options.messages).None?;
  }

  /** Tools other than the two enrichers and deep analysis change nothing. */
  lemma UnknownToolsUnchanged(options: CompletionOptions, corpus: seq<KnowledgeBase.Entry>, deepThinking: string, reply: Result<WebSearch.HttpReply, string>)
    requires options.tools.Some?
    requires forall t :: t in options.tools.value ==> t != KNOWLEDGE_BASE_TOOL && t != WEB_SEARCH_TOOL && t != DEEP_ANALYZE_TOOL
    ensures Prepared(options, corpus, deepThinking, reply) == options.messages
  {
  }

  /** A failed web search contributes no section, and the knowledge-base
      section, if any, is all the context. */
  lemma WebFailureNoSection(corpus: seq<KnowledgeBase.Entry>, tools: seq<string>, query: string, reply: Result<WebSearch.HttpReply, string>)
    requires WebSearch.FetchContext(query, WebSearch.DEFAULT_LIMIT, reply).Err?
    ensures ContextSections(corpus, tools, query, reply) == if KNOWLEDGE_BASE_TOOL in tools then Section(KNOWLEDGE_PREFIX, KnowledgeContext(corpus, query)) else []
  {
  }

  /** Any change to the messages is the merge of a non-empty instruction
      list: the length stays or grows by exactly one system message. */
  lemma PreparedShape(options: CompletionOptions, corpus: seq<KnowledgeBase.Entry>, deepThinking: string, reply: Result<WebSearch.HttpReply, string>)
    ensures var r := Prepared(options, corpus, deepThinking, reply);
      |r| == |options.messages| || (|r| == |options.messages| + 1 && r[0].role == System && r[1..] == options.messages)
  {
    var r := Prepared(options, corpus, deepThinking, reply);
    if |r| != |options.messages| {
      var tools := options.tools.GetOr([]);
      var u := LastUserIndex(options.messages).value;
      var sections := if HasActiveTools(tools) then ContextSections(corpus, tools, options.messages[u].content, reply) else [];
      var instructions := Instructions(tools, sections, deepThinking);
      assert r == Merged(options.messages, instructions);
      assert FirstSystemIndex(options.messages).None?;
      MergedInsertsSystem(options.messages, instructions);
    }
  }

  /** Preparation never adds, drops, reorders or edits a user message. */
  lemma PreparedKeepsUserMessages(options: CompletionOptions, corpus: seq<KnowledgeBase.Entry>, deepThinking: string, reply: Result<WebSearch.HttpReply, string>)
    ensures UserMessages(Prepared(options, corpus, deepThinking, reply)) == UserMessages(options.messages)
  {
    var tools := options.tools.GetOr([]);
    if |tools| > 0 && LastUserIndex(options.messages).Some? {
      var u := LastUserIndex(options.messages).value;
      var sections := if HasActiveTools(tools) then ContextSections(corpus, tools, options.messages[u].content, reply) else [];
      MergedKeepsUserMessages(options.messages, Instructions(tools, sections, deepThinking));
    }
  }
}
