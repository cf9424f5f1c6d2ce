/** Web-search enrichment over the DuckDuckGo instant-answer reply
    (`apps/server/src/ai/tools/web-search.ts`): snippet cleaning, the
    title/snippet split, the depth-first walk of related topics, URL
    de-duplication across primary and related results, the single fallback
    result, truncation and rendering. The HTTP exchange is an input. */
module WebSearch {
  import opened Wrappers
  import opened Strings
  import opened Http
  import opened Sorting

  datatype SearchResult = SearchResult(title: string, url: string, snippet: string)

  /** A primary result: its `Text` and `FirstURL`. */
  datatype Item = Item(text: Option<string>, firstUrl: Option<string>)

  /** A related topic. A topic that carries a `Topics` array is a `Category`:
      only its children are read, never its own `Text` or `FirstURL`. */
  datatype Topic =
    | Leaf(text: Option<string>, firstUrl: Option<string>)
    | Category(topics: seq<Topic>)

  /** The fields of the JSON reply the code reads. */
  datatype Reply = Reply(
    abstractText: Option<string>,
    heading: Option<string>,
    relatedTopics: Option<seq<Topic>>,
    results: Option<seq<Item>>)

  /** What `fetch` yields: a status and the body parsed as JSON (or the
      parser's error message). A rejected `fetch` is `Err` one level up. */
  datatype HttpReply = HttpReply(status: int, body: Result<Reply, string>)

  const DEFAULT_LIMIT: nat := 3
  const FALLBACK_URL_PREFIX: string := "https://duckduckgo.com/?q="
  const API_ERROR_PREFIX: string := "DuckDuckGo API error: "

  // ------------------------------------------------------------ snippets

  /** A tag starts at `i` and a later `>` at `j` can close it: the `<` is
      not directly followed by `>`. */
  predicate TagAt(s: string, i: nat, j: nat) {
    i < j < |s| && s[i] == '<' && s[j] == '>' && s[i + 1] != '>'
  }

  /** No tag is left: every `<` followed later by a `>` is directly
      followed by it. */
  predicate TagFree(s: string) {
    forall i, j :: 0 <= i < j < |s| ==> !TagAt(s, i, j)
  }

  predicate NoChar(s: string, c: char) {
    forall i :: 0 <= i < |s| ==> s[i] != c
  }

  /** Putting a character in front of a tag-free text leaves it tag-free
      unless the character opens a tag. */
  lemma TagFreeCons(c: char, rest: string)
    requires TagFree(rest)
    requires c == '<' ==> NoChar(rest, '>') || (rest != [] && rest[0] == '>')
    ensures TagFree([c] + rest)
  {
    var r := [c] + rest;
    forall i, j | 0 <= i < j < |r| ensures !TagAt(r, i, j) {
      if i > 0 {
        var a, b := i - 1, j - 1;
        assert !TagAt(rest, a, b);
        assert r[i] == rest[a] && r[i + 1] == rest[a + 1] && r[j] == rest[b];
      } else {
        assert r[j] == rest[j - 1];
      }
    }
  }

  /** `replace(/<[^>]+>/g, " ")`: each tag, a `<`, at least one character
      other than `>` and the closing `>`, becomes one space. No tag is left. */
  function StripTags(s: string): (r: string)
    ensures TagFree(r)
    ensures NoChar(s, '>') ==> NoChar(r, '>')
    ensures s != [] && s[0] != '<' ==> r != [] && r[0] == s[0]
    ensures |r| <= |s|
    decreases |s|
  {
    if s == [] then []
    else if s[0] == '<' then
      match FindChar(s[1..], '>')
      case Some(k) =>
        if k >= 1 then
          var rest := StripTags(s[k + 2..]);
          TagFreeCons(' ', rest);
          [' '] + rest
        else
          var rest := StripTags(s[1..]);
          assert s[1..][0] == '>';
          TagFreeCons('<', rest);
          [s[0]] + rest
      case None =>
        var rest := StripTags(s[1..]);
        TagFreeCons('<', rest);
        [s[0]] + rest
    else
      var rest := StripTags(s[1..]);
      TagFreeCons(s[0], rest);
      [s[0]] + rest
  }

  /** `sanitizeSnippet`: "" for a missing or empty text, otherwise the text
      with its tags replaced by spaces, white space collapsed and trimmed. */
  function SanitizeSnippet(text: Option<string>): (r: string)
    ensures SingleSpaced(r)
    ensures !Truthy(text) ==> r == []
  {
    if !Truthy(text) then []
    else
      CollapseThenTrim(StripTags(text.value));
      Trim(CollapseSpaces(StripTags(text.value)))
  }

  datatype Parsed = Parsed(title: string, snippet: string)

  /** `extractTitleAndSnippet`: nothing when the text is missing or cleans
      to nothing; otherwise the title is the trimmed part before the first
      " - " (the whole text when that part is blank) and the snippet is
      everything after it, re-joined (the whole text when there is no
      delimiter). */
  function Extract(text: Option<string>): (r: Option<Parsed>)
    ensures r.Some? ==> r.value.title != [] && Truthy(text)
    ensures r.None? <==> SanitizeSnippet(text) == []
  {
    if !Truthy(text) then None
    else
      var sanitized := SanitizeSnippet(text);
      if |sanitized| == 0 then None
      else
        var parts := Split(sanitized, " - ");
        var rest := parts[1..];
        var snippet := if |rest| > 0 then Join(rest, " - ") else sanitized;
        var head := Trim(parts[0]);
        Some(Parsed(if |head| > 0 then head else sanitized, snippet))
  }

  /** Without a " - " in the cleaned text, title and snippet are both the
      whole cleaned text. */
  lemma ExtractWithoutDelimiter(text: Option<string>)
    requires SanitizeSnippet(text) != [] && IndexOf(SanitizeSnippet(text), " - ").None?
    ensures Extract(text) == Some(Parsed(SanitizeSnippet(text), SanitizeSnippet(text)))
  {
    var s := SanitizeSnippet(text);
    assert Split(s, " - ") == [s];
    TrimSingleSpaced(s);
  }

  /** With a " - " at `k`, the snippet is exactly the text after it and the
      title comes from the text before it. */
  lemma ExtractAtFirstDelimiter(text: Option<string>, k: nat)
    requires SanitizeSnippet(text) != [] && IndexOf(SanitizeSnippet(text), " - ") == Some(k)
    ensures var s := SanitizeSnippet(text);
      && Extract(text).value.snippet == s[k + 3..]
      && Extract(text).value.title == (if Trim(s[..k]) != [] then Trim(s[..k]) else s)
  {
    var s := SanitizeSnippet(text);
    var rest := Split(s[k + 3..], " - ");
    assert Split(s, " - ") == [s[..k]] + rest;
    SplitJoin(s[k + 3..], " - ");
  }

  /** A primary result or a leaf topic, when both its text and its trimmed
      URL are usable. */
  function Candidate(text: Option<string>, firstUrl: Option<string>): (r: seq<SearchResult>)
    ensures |r| <= 1
    ensures r != [] <==> Extract(text).Some? && firstUrl.Some? && Trim(firstUrl.value) != []
    ensures r != [] ==> r[0].url == Trim(firstUrl.value) && r[0].title == Extract(text).value.title
  {
    var parsed := Extract(text);
    var url := if firstUrl.Some? then Some(Trim(firstUrl.value)) else None;
    if parsed.None? || !Truthy(url) then []
    else [SearchResult(parsed.value.title, url.value, parsed.value.snippet)]
  }

  // ------------------------------------------------------------- streams

  /** The usable primary results, in order. */
  function PrimaryStream(items: seq<Item>): seq<SearchResult> {
    if items == [] then []
    else
      var last := items[|items| - 1];
      PrimaryStream(items[..|items| - 1]) + Candidate(last.text, last.firstUrl)
  }

  lemma PrimaryStreamSnoc(items: seq<Item>, i: nat)
    requires i < |items|
    ensures PrimaryStream(items[..i + 1]) == PrimaryStream(items[..i]) + Candidate(items[i].text, items[i].firstUrl)
  {
    var s := items[..i + 1];
    assert s[..i] == items[..i];
    assert s[i] == items[i];
  }

  /** The usable leaves of the topic forest, depth first, in order. */
  function TopicStream(items: seq<Topic>): seq<SearchResult>
    decreases items
  {
    if items == [] then [] else TopicStream(items[..|items| - 1]) + TopicItemStream(items[|items| - 1])
  }

  /** A category contributes its children's results only. */
  function TopicItemStream(item: Topic): seq<SearchResult>
    decreases item
  {
    match item
    case Category(ts) => TopicStream(ts)
    case Leaf(text, url) => Candidate(text, url)
  }

  function UrlsOf(s: seq<SearchResult>): set<string> {
    set i | 0 <= i < |s| :: s[i].url
  }

  /** The results whose URL is neither in `seen` nor taken by an earlier
      result: the first occurrence of each URL wins. */
  function Dedup(s: seq<SearchResult>, seen: set<string>): seq<SearchResult> {
    if s == [] then []
    else
      var init := s[..|s| - 1];
      var last := s[|s| - 1];
      if last.url in seen + UrlsOf(init) then Dedup(init, seen) else Dedup(init, seen) + [last]
  }

  lemma UrlsOfAppend(a: seq<SearchResult>, b: seq<SearchResult>)
    ensures UrlsOf(a + b) == UrlsOf(a) + UrlsOf(b)
  {
    var ab := a + b;
    forall u | u in UrlsOf(ab) ensures u in UrlsOf(a) + UrlsOf(b) {
      var i :| 0 <= i < |ab| && ab[i].url == u;
      if i >= |a| { assert b[i - |a|].url == u; }
    }
    forall u | u in UrlsOf(a) + UrlsOf(b) ensures u in UrlsOf(ab) {
      if u in UrlsOf(a) {
        var i :| 0 <= i < |a| && a[i].url == u;
        assert ab[i].url == u;
      } else {
        var i :| 0 <= i < |b| && b[i].url == u;
        assert ab[|a| + i].url == u;
      }
    }
  }

  lemma AppendAssoc<T>(a: seq<T>, b: seq<T>, c: seq<T>)
    ensures (a + b) + c == a + (b + c)
  {
  }

  lemma UnionAssoc<T>(a: set<T>, b: set<T>, c: set<T>)
    ensures (a + b) + c == a + (b + c)
  {
  }

  /** A single result is kept exactly when its URL is new. */
  lemma DedupSingle(x: SearchResult, seen: set<string>)
    ensures Dedup([x], seen) == if x.url in seen then [] else [x]
    ensures UrlsOf([x]) == {x.url}
  {
    assert [x][..0] == [];
    assert UrlsOf([]) == {};
  }

  /** A candidate of at most one result is kept exactly when its URL is new. */
  lemma DedupCandidate(more: seq<SearchResult>, seen: set<string>)
    requires |more| <= 1
    ensures Dedup(more, seen) == if more != [] && more[0].url !in seen then more else []
    ensures UrlsOf(more) == if more == [] then {} else {more[0].url}
  {
    if more == [] {
      assert UrlsOf([]) == {};
    } else {
      assert more == [more[0]];
      DedupSingle(more[0], seen);
    }
  }

  /** What taking a candidate of at most one result does: it is appended,
      and its URL recorded, exactly when its URL is new. */
  predicate Kept(more: seq<SearchResult>, found: seq<SearchResult>, seen: set<string>,
                 out: seq<SearchResult>, seenAfter: set<string>)
  {
    if more != [] && more[0].url !in seen then
      out == found + [more[0]] && seenAfter == seen + {more[0].url}
    else
      out == found && seenAfter == seen
  }

  lemma KeptIsDedup(more: seq<SearchResult>, found: seq<SearchResult>, seen: set<string>,
                    out: seq<SearchResult>, seenAfter: set<string>)
    requires |more| <= 1 && Kept(more, found, seen, out, seenAfter)
    ensures out == found + Dedup(more, seen)
    ensures seenAfter == seen + UrlsOf(more)
  {
    DedupCandidate(more, seen);
  }

  lemma TopicStreamSnoc(items: seq<Topic>, i: nat)
    requires i < |items|
    ensures TopicStream(items[..i + 1]) == TopicStream(items[..i]) + TopicItemStream(items[i])
  {
    assert items[..i + 1][..i] == items[..i];
  }

  /** One step of the accumulation: with `before` and `seenBefore` holding
      the de-duplicated `prefix`, taking the next part `more` of the stream
      leaves them holding the de-duplicated `prefix + more`. */
  lemma AccumulateStep(found: seq<SearchResult>, prefix: seq<SearchResult>, more: seq<SearchResult>, seen0: set<string>,
                             before: seq<SearchResult>, seenBefore: set<string>, out: seq<SearchResult>, seenAfter: set<string>)
    requires before == found + Dedup(prefix, seen0) && seenBefore == seen0 + UrlsOf(prefix)
    requires out == before + Dedup(more, seenBefore) && seenAfter == seenBefore + UrlsOf(more)
    ensures out == found + Dedup(prefix + more, seen0)
    ensures seenAfter == seen0 + UrlsOf(prefix + more)
  {
    DedupAppend(prefix, more, seen0);
    UrlsOfAppend(prefix, more);
    AppendAssoc(found, Dedup(prefix, seen0), Dedup(more, seenBefore));
    UnionAssoc(seen0, UrlsOf(prefix), UrlsOf(more));
  }

  /** De-duplicating a concatenation: the second part is de-duplicated
      against everything the first part saw. */
  lemma {:induction false} DedupAppend(a: seq<SearchResult>, b: seq<SearchResult>, seen: set<string>)
    ensures Dedup(a + b, seen) == Dedup(a, seen) + Dedup(b, seen + UrlsOf(a))
    decreases |b|
  {
    if b == [] {
      assert a + b == a;
    } else {
      var b' := b[..|b| - 1];
      var last := b[|b| - 1];
      DedupAppend(a, b', seen);
      assert (a + b)[..|a + b| - 1] == a + b';
      UrlsOfAppend(a, b');
    }
  }

  /** The URLs kept are pairwise distinct and none was seen before. */
  lemma {:induction false} DedupDistinct(s: seq<SearchResult>, seen: set<string>)
    ensures var d := Dedup(s, seen);
      (forall i :: 0 <= i < |d| ==> d[i].url !in seen) &&
      (forall i, j :: 0 <= i < j < |d| ==> d[i].url != d[j].url)
    ensures UrlsOf(Dedup(s, seen)) == UrlsOf(s) - seen
    decreases |s|
  {
    if s != [] {
      var init := s[..|s| - 1];
      var last := s[|s| - 1];
      DedupDistinct(init, seen);
      UrlsOfAppend(init, [last]);
      assert s == init + [last];
      if last.url !in seen + UrlsOf(init) {
        UrlsOfAppend(Dedup(init, seen), [last]);
      }
    }
  }

  /** Every URL of the stream not seen before appears in the output, taken
      from its first occurrence. */
  lemma {:induction false} DedupKeepsFirst(s: seq<SearchResult>, seen: set<string>, j: nat)
    requires j < |s| && s[j].url !in seen
    requires forall i :: 0 <= i < j ==> s[i].url != s[j].url
    ensures s[j] in Dedup(s, seen)
    decreases |s|
  {
    var init := s[..|s| - 1];
    if j < |s| - 1 {
      DedupKeepsFirst(init, seen, j);
    } else {
      assert s[j].url !in UrlsOf(init);
    }
  }

  // -------------------------------------------------------- accumulation

  /** The fallback result built from the abstract: only when nothing was
      collected and the abstract is present and cleans to something. Its
      title is the heading when there is one (even an empty one). */
  function Fallback(data: Reply, query: string, collected: seq<SearchResult>): (r: seq<SearchResult>)
    ensures |r| <= 1
    ensures r != [] <==> collected == [] && Extract(data.abstractText).Some?
    ensures r != [] ==> r[0].title == (if data.heading.Some? then data.heading.value else Extract(data.abstractText).value.title)
  {
    if |collected| > 0 || !Truthy(data.abstractText) then []
    else
      match Extract(data.abstractText)
      case None => []
      case Some(parsed) =>
        [SearchResult(data.heading.GetOr(parsed.title), FALLBACK_URL_PREFIX + EncodeUriComponent(query), parsed.snippet)]
  }

  /** The results list and the set of URLs already taken, which the helpers
      of `fetchWebSearchResults` share and update in place. */
  class Accumulator {
    var results: seq<SearchResult>
    var seen: set<string>

    constructor()
      ensures results == [] && seen == {}
    {
      results := [];
      seen := {};
    }

    /** `addPrimaryResults`: appends the usable primary results whose URL is
        new, marking each URL as seen. */
    method AddPrimaryResults(source: Option<seq<Item>>)
      modifies this
      ensures var stream := if source.Some? then PrimaryStream(source.value) else [];
        results == old(results) + Dedup(stream, old(seen)) && seen == old(seen) + UrlsOf(stream)
    {
      if source.None? {
        return;
      }
      var items := source.value;
      var i := 0;
      ghost var stream: seq<SearchResult> := [];
      assert UrlsOf([]) == {};
      while i < |items|
        invariant 0 <= i <= |items|
        invariant stream == PrimaryStream(items[..i])
        invariant results == old(results) + Dedup(stream, old(seen))
        invariant seen == old(seen) + UrlsOf(stream)
      {
        ghost var more := Candidate(items[i].text, items[i].firstUrl);
        PrimaryStreamSnoc(items, i);
        ghost var before := results;
        ghost var seenBefore := seen;
        AddPrimary(items[i]);
        KeptIsDedup(more, before, seenBefore, results, seen);
        AccumulateStep(old(results), stream, more, old(seen), before, seenBefore, results, seen);
        stream := stream + more;
        i := i + 1;
      }
      assert items[..i] == items;
    }

    /** One pass of the loop in `addPrimaryResults`: the item is pushed when
        it parses, has a non-blank URL and that URL is new. */
    method AddPrimary(item: Item)
      modifies this
      ensures Kept(Candidate(item.text, item.firstUrl), old(results), old(seen), results, seen)
    {
      var parsed := Extract(item.text);
      var url := if item.firstUrl.Some? then Some(Trim(item.firstUrl.value)) else None;
      if parsed.None? || !Truthy(url) {
        return;
      }
      if url.value in seen {
        return;
      }
      seen := seen + {url.value};
      results := results + [SearchResult(parsed.value.title, url.value, parsed.value.snippet)];
    }

    /** `flattenTopics`: the usable leaves of the topic forest whose URL is
        new, depth first, marking each URL as seen. */
    method FlattenTopics(topics: Option<seq<Topic>>) returns (found: seq<SearchResult>)
      modifies this
      ensures var stream := if topics.Some? then TopicStream(topics.value) else [];
        found == Dedup(stream, old(seen)) && seen == old(seen) + UrlsOf(stream)
      ensures results == old(results)
    {
      found := [];
      if topics.Some? {
        found := Walk(topics.value, found);
      }
    }

    /** `walk`: visits the topics in order, descending into categories. */
    method Walk(items: seq<Topic>, found: seq<SearchResult>) returns (out: seq<SearchResult>)
      modifies this
      ensures out == found + Dedup(TopicStream(items), old(seen))
      ensures seen == old(seen) + UrlsOf(TopicStream(items))
      ensures results == old(results)
      decreases items, 1
    {
      out := found;
      var i := 0;
      while i < |items|
        invariant 0 <= i <= |items|
        invariant out == found + Dedup(TopicStream(items[..i]), old(seen))
        invariant seen == old(seen) + UrlsOf(TopicStream(items[..i]))
        invariant results == old(results)
      {
        ghost var prefix := TopicStream(items[..i]);
        ghost var more := TopicItemStream(items[i]);
        TopicStreamSnoc(items, i);
        ghost var before := out;
        ghost var seenBefore := seen;
        out := WalkItem(items[i], out);
        AccumulateStep(found, prefix, more, old(seen), before, seenBefore, out, seen);
        i := i + 1;
      }
      assert items[..i] == items;
    }

    /** One topic of `walk`: a category is walked, a leaf is taken when it is
        usable and its URL is new. */
    method WalkItem(item: Topic, found: seq<SearchResult>) returns (out: seq<SearchResult>)
      modifies this
      ensures out == found + Dedup(TopicItemStream(item), old(seen))
      ensures seen == old(seen) + UrlsOf(TopicItemStream(item))
      ensures results == old(results)
      decreases item, 0
    {
      match item
      case Category(ts) =>
        out := Walk(ts, found);
      case Leaf(text, firstUrl) =>
        out := TakeLeaf(text, firstUrl, found);
        KeptIsDedup(Candidate(text, firstUrl), found, old(seen), out, seen);
    }

    /** A leaf in `walk`: taken when it parses, has a non-blank URL and that
        URL is new. */
    method TakeLeaf(text: Option<string>, firstUrl: Option<string>, found: seq<SearchResult>) returns (out: seq<SearchResult>)
      modifies this
      ensures Kept(Candidate(text, firstUrl), found, old(seen), out, seen)
      ensures results == old(results)
    {
      out := found;
      var parsed := Extract(text);
      var url := if firstUrl.Some? then Some(Trim(firstUrl.value)) else None;
      if parsed.None? || !Truthy(url) {
        return;
      }
      var taken := SearchResult(parsed.value.title, url.value, parsed.value.snippet);
      if url.value in seen {
        return;
      }
      out := out + [taken];
      seen := seen + {url.value};
    }

    /** `appendFallbackResult`. */
    method AppendFallback(data: Reply, query: string)
      modifies this
      ensures results == old(results) + Fallback(data, query, old(results))
      ensures seen == old(seen)
    {
      if |results| > 0 || !Truthy(data.abstractText) {
        return;
      }
      var parsed := Extract(data.abstractText);
      if parsed.None? {
        return;
      }
      var title := data.heading.GetOr(parsed.value.title);
      results := results + [SearchResult(title, FALLBACK_URL_PREFIX + EncodeUriComponent(query), parsed.value.snippet)];
    }
  }

  // --------------------------------------------------------- whole search

  function PrimaryOf(data: Reply): seq<SearchResult> {
    if data.results.Some? then PrimaryStream(data.results.value) else []
  }

  function TopicsOf(data: Reply): seq<SearchResult> {
    if data.relatedTopics.Some? then TopicStream(data.relatedTopics.value) else []
  }

  /** Primary results, then related topics de-duplicated against everything
      before them, then the fallback. */
  function Collected(data: Reply, query: string): seq<SearchResult> {
    var main := Dedup(PrimaryOf(data), {}) + Dedup(TopicsOf(data), UrlsOf(PrimaryOf(data)));
    main + Fallback(data, query, main)
  }

  /** `fetchWebSearchResults(query, limit)` given the outcome of the request
      it would issue. */
  function SearchResults(query: string, limit: nat, reply: Result<HttpReply, string>): (r: Result<seq<SearchResult>, string>)
    ensures AllSpace(query) ==> r == Ok([])
    ensures !AllSpace(query) && reply.Ok? && !IsOk(reply.value.status) ==>
      r == Err(API_ERROR_PREFIX + IntToString(reply.value.status))
    ensures !AllSpace(query) && reply.Err? ==> r == Err(reply.error)
    ensures r.Ok? ==> |r.value| <= limit
  {
    var q := Trim(query);
    if |q| == 0 then Ok([])
    else
      match reply
      case Err(e) => Err(e)
      case Ok(HttpReply(status, body)) =>
        if !IsOk(status) then Err(API_ERROR_PREFIX + IntToString(status))
        else
          match body
          case Err(e) => Err(e)
          case Ok(data) => Ok(Take(Collected(data, q), limit))
  }

  /** The imperative `fetchWebSearchResults`: the shared accumulator is
      filled by the primary results, then the related topics, then the
      fallback, and cut to `limit`. */
  method FetchWebSearchResults(query: string, limit: nat, reply: Result<HttpReply, string>)
    returns (r: Result<seq<SearchResult>, string>)
    ensures r == SearchResults(query, limit, reply)
  {
    var q := Trim(query);
    if |q| == 0 {
      return Ok([]);
    }
    if reply.Err? {
      return Err(reply.error);
    }
    var status := reply.value.status;
    if !IsOk(status) {
      return Err(API_ERROR_PREFIX + IntToString(status));
    }
    if reply.value.body.Err? {
      return Err(reply.value.body.error);
    }
    var results := Gather(reply.value.body.value, q);
    r := Ok(Take(results, limit));
  }

  /** The body of `fetchWebSearchResults` after a good reply: primary
      results, then related topics, then the fallback, through one shared
      accumulator. */
  method Gather(data: Reply, query: string) returns (results: seq<SearchResult>)
    ensures results == Collected(data, query)
  {
    var acc := new Accumulator();
    acc.AddPrimaryResults(data.results);
    assert acc.results == Dedup(PrimaryOf(data), {});
    assert acc.seen == UrlsOf(PrimaryOf(data));
    var found := acc.FlattenTopics(data.relatedTopics);
    acc.results := acc.results + found;
    acc.AppendFallback(data, query);
    results := acc.results;
  }

  /** Primary and related results together are the stream of both,
      de-duplicated once. */
  lemma CollectedIsDedup(data: Reply)
    ensures Dedup(PrimaryOf(data), {}) + Dedup(TopicsOf(data), UrlsOf(PrimaryOf(data)))
      == Dedup(PrimaryOf(data) + TopicsOf(data), {})
  {
    DedupAppend(PrimaryOf(data), TopicsOf(data), {});
    assert {} + UrlsOf(PrimaryOf(data)) == UrlsOf(PrimaryOf(data));
  }

  predicate DistinctUrls(rs: seq<SearchResult>) {
    forall i, j :: 0 <= i < j < |rs| ==> rs[i].url != rs[j].url
  }

  /** Before truncation the collected results already have distinct URLs. */
  lemma CollectedDistinct(data: Reply, query: string)
    ensures DistinctUrls(Collected(data, query))
  {
    CollectedIsDedup(data);
    DedupDistinct(PrimaryOf(data) + TopicsOf(data), {});
  }

  /** The results of a successful search have pairwise distinct URLs. */
  lemma SearchResultsDistinct(query: string, limit: nat, reply: Result<HttpReply, string>)
    requires SearchResults(query, limit, reply).Ok?
    ensures DistinctUrls(SearchResults(query, limit, reply).value)
  {
    if !AllSpace(query) {
      var q := Trim(query);
      var data := reply.value.body.value;
      CollectedDistinct(data, q);
      var all := Collected(data, q);
      var rs := Take(all, limit);
      assert SearchResults(query, limit, reply).value == rs;
      assert forall i :: 0 <= i < |rs| ==> rs[i] == all[i];
    }
  }

  /** The fallback appears only when neither the primary results nor the
      related topics gave anything, and then it is the only result. */
  lemma FallbackOnlyAlone(data: Reply, query: string)
    ensures var main := Dedup(PrimaryOf(data) + TopicsOf(data), {});
      && (main != [] ==> Collected(data, query) == main)
      && (main == [] ==> Collected(data, query) == Fallback(data, query, []))
  {
    CollectedIsDedup(data);
  }

  /** Every usable primary or related result is kept unless an earlier one
      had the same URL; primary results come first. */
  lemma SearchKeepsFirstOccurrence(data: Reply, query: string, j: nat)
    requires j < |PrimaryOf(data) + TopicsOf(data)|
    requires var s := PrimaryOf(data) + TopicsOf(data);
      forall i :: 0 <= i < j ==> s[i].url != s[j].url
    ensures (PrimaryOf(data) + TopicsOf(data))[j] in Collected(data, query)
  {
    CollectedIsDedup(data);
    DedupKeepsFirst(PrimaryOf(data) + TopicsOf(data), {}, j);
  }

  // ------------------------------------------------------------- context

  function RenderResult(position: nat, result: SearchResult): string {
    Join([NatToString(position + 1) + ". " + result.title, "链接：" + result.url, "摘要：" + result.snippet], "\n")
  }

  /** A rendered result opens with its number and title and closes with
      its snippet. */
  lemma RenderResultLayout(position: nat, result: SearchResult)
    ensures NatToString(position + 1) + ". " + result.title <= RenderResult(position, result)
    ensures EndsWith(RenderResult(position, result), "摘要：" + result.snippet)
  {
    JoinEndsWith([NatToString(position + 1) + ". " + result.title, "链接：" + result.url, "摘要：" + result.snippet], "\n");
  }

  function RenderResults(results: seq<SearchResult>, from: nat): (r: seq<string>)
    ensures |r| == |results|
    ensures forall k :: 0 <= k < |r| ==> r[k] == RenderResult(from + k, results[k])
  {
    if results == [] then [] else [RenderResult(from, results[0])] + RenderResults(results[1..], from + 1)
  }

  /** `fetchWebSearchContext(query, limit)`: the numbered results separated by
      blank lines, nothing when there are none, or the search's error. */
  function FetchContext(query: string, limit: nat, reply: Result<HttpReply, string>): (r: Result<Option<string>, string>)
    ensures r.Err? <==> SearchResults(query, limit, reply).Err?
    ensures r.Ok? ==> (r.value.None? <==> SearchResults(query, limit, reply).value == [])
    ensures r.Ok? && r.value.Some? ==> r.value.value == RenderContext(SearchResults(query, limit, reply).value)
  {
    match SearchResults(query, limit, reply)
    case Err(e) => Err(e)
    case Ok(results) =>
      if |results| == 0 then Ok(None)
      else Ok(Some(RenderContext(results)))
  }

  /** The numbered results separated by blank lines: the text opens with the
      first result's number and title and closes with the last snippet. */
  function RenderContext(results: seq<SearchResult>): (r: string)
    requires results != []
    ensures "1. " + results[0].title <= r
    ensures EndsWith(r, "摘要：" + results[|results| - 1].snippet)
  {
    var rendered := RenderResults(results, 0);
    var context := Join(rendered, "\n\n");
    RenderResultLayout(0, results[0]);
    RenderResultLayout(|results| - 1, results[|results| - 1]);
    assert NatToString(1) == "1";
    PrefixTrans("1. " + results[0].title, rendered[0], context);
    JoinEndsWith(rendered, "\n\n");
    EndsWithTrans(context, rendered[|rendered| - 1], "摘要：" + results[|results| - 1].snippet);
    context
  }

  // ------------------------------------------------- URI component coding

  /** The characters `encodeURIComponent` leaves as they are. */
  predicate Unreserved(c: char) {
    ('A' <= c <= 'Z') || ('a' <= c <= 'z') || ('0' <= c <= '9')
    || c == '-' || c == '_' || c == '.' || c == '!' || c == '~' || c == '*' || c == '\'' || c == '(' || c == ')'
  }

  function HexDigit(d: nat): (c: char)
    requires d < 16
    ensures Unreserved(c)
  {
    if d < 10 then ('0' as int + d) as char else ('A' as int + d - 10) as char
  }

  /** The value of an upper-case hexadecimal digit. */
  function HexValue(c: char): nat {
    if '0' <= c <= '9' then c as int - '0' as int
    else if 'A' <= c <= 'F' then c as int - 'A' as int + 10
    else 0
  }

  lemma HexRoundTrip(d: nat)
    requires d < 16
    ensures HexValue(HexDigit(d)) == d
  {
  }

  /** The code point the UTF-8 bytes of `Utf8` stand for. */
  function Utf8Decode(bytes: seq<int>): int {
    if |bytes| == 1 then bytes[0]
    else if |bytes| == 2 then (bytes[0] - 0xC0) * 64 + (bytes[1] - 0x80)
    else if |bytes| == 3 then (bytes[0] - 0xE0) * 4096 + (bytes[1] - 0x80) * 64 + (bytes[2] - 0x80)
    else if |bytes| == 4 then (bytes[0] - 0xF0) * 262144 + (bytes[1] - 0x80) * 4096 + (bytes[2] - 0x80) * 64 + (bytes[3] - 0x80)
    else 0
  }

  /** The UTF-8 bytes of a code point. */
  function Utf8(cp: nat): (bytes: seq<nat>)
    requires cp < 0x11_0000
    ensures 1 <= |bytes| <= 4
    ensures forall i :: 0 <= i < |bytes| ==> bytes[i] < 256
    ensures cp < 0x80 <==> |bytes| == 1
    ensures |bytes| == 1 ==> bytes[0] < 0x80
    ensures |bytes| == 2 ==> 0xC0 <= bytes[0] < 0xE0
    ensures |bytes| == 3 ==> 0xE0 <= bytes[0] < 0xF0
    ensures |bytes| == 4 ==> 0xF0 <= bytes[0] < 0xF8
    ensures forall i :: 1 <= i < |bytes| ==> 0x80 <= bytes[i] < 0xC0
  {
    if cp < 0x80 then [cp]
    else if cp < 0x800 then [0xC0 + cp / 64, 0x80 + cp % 64]
    else if cp < 0x1_0000 then [0xE0 + cp / 4096, 0x80 + (cp / 64) % 64, 0x80 + cp % 64]
    else [0xF0 + cp / 262144, 0x80 + (cp / 4096) % 64, 0x80 + (cp / 64) % 64, 0x80 + cp % 64]
  }

  /** Decoding the bytes of a code point gives the code point back. */
  lemma Utf8RoundTrip(cp: nat)
    requires cp < 0x11_0000
    ensures Utf8Decode(Utf8(cp)) == cp
  {
    var b := Utf8(cp);
    if cp < 0x80 {
    } else if cp < 0x800 {
      assert b == [0xC0 + cp / 64, 0x80 + cp % 64];
      assert cp == (cp / 64) * 64 + cp % 64;
    } else if cp < 0x1_0000 {
      var hi := cp / 4096;
      var mid := (cp / 64) % 64;
      assert b == [0xE0 + hi, 0x80 + mid, 0x80 + cp % 64];
      assert cp / 64 == hi * 64 + mid;
      assert cp == (cp / 64) * 64 + cp % 64;
    } else {
      var top := cp / 262144;
      var hi := (cp / 4096) % 64;
      var mid := (cp / 64) % 64;
      assert b == [0xF0 + top, 0x80 + hi, 0x80 + mid, 0x80 + cp % 64];
      assert cp / 4096 == top * 64 + hi;
      assert cp / 64 == (cp / 4096) * 64 + mid;
      assert cp == (cp / 64) * 64 + cp % 64;
    }
  }

  /** Each byte as `%` and two upper-case hexadecimal digits. */
  function PercentBytes(bytes: seq<nat>): (r: string)
    requires forall i :: 0 <= i < |bytes| ==> bytes[i] < 256
    ensures |r| == 3 * |bytes|
    ensures forall i :: 0 <= i < |r| ==> r[i] == '%' || Unreserved(r[i])
  {
    if bytes == [] then []
    else ['%', HexDigit(bytes[0] / 16), HexDigit(bytes[0] % 16)] + PercentBytes(bytes[1..])
  }

  /** Reads `%XY` groups back into bytes. */
  function PercentDecode(r: string): seq<nat>
    decreases |r|
  {
    if |r| < 3 then [] else [HexValue(r[1]) * 16 + HexValue(r[2])] + PercentDecode(r[3..])
  }

  /** Decoding the percent-encoding gives the bytes back. */
  lemma {:induction false} PercentRoundTrip(bytes: seq<nat>)
    requires forall i :: 0 <= i < |bytes| ==> bytes[i] < 256
    ensures PercentDecode(PercentBytes(bytes)) == bytes
  {
    if bytes != [] {
      var r := PercentBytes(bytes);
      assert r[3..] == PercentBytes(bytes[1..]);
      PercentRoundTrip(bytes[1..]);
      HexRoundTrip(bytes[0] / 16);
      HexRoundTrip(bytes[0] % 16);
    }
  }

  function EncodeChar(c: char): (r: string)
    ensures forall i :: 0 <= i < |r| ==> r[i] == '%' || Unreserved(r[i])
  {
    if Unreserved(c) then [c] else PercentBytes(Utf8(c as int))
  }

  /** `encodeURIComponent`: unreserved characters stay, every other one
      becomes the percent-encoding of its UTF-8 bytes. */
  function EncodeUriComponent(s: string): (r: string)
    ensures forall i :: 0 <= i < |r| ==> r[i] == '%' || Unreserved(r[i])
    ensures (forall i :: 0 <= i < |s| ==> Unreserved(s[i])) ==> r == s
  {
    if s == [] then [] else EncodeChar(s[0]) + EncodeUriComponent(s[1..])
  }
}
