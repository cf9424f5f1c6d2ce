/** The built-in knowledge base: five fixed study-method entries, the text
    sanitiser and tokeniser, the fraction-plus-bonus relevance score and the
    rendering of the best matches as a numbered text block
    (`dist/server/apps/server/src/ai/tools/knowledge-base.js`). */
module KnowledgeBase {
  import opened Wrappers
  import opened Strings
  import opened Sorting

  datatype Entry = Entry(
    id: string,
    title: string,
    summary: string,
    content: string,
    keyPoints: seq<string>,
    tags: seq<string>)

  /** The five entries, in the order the ranking breaks ties by. */
  function Entries(): seq<Entry> {
    [
      Entry(
        "pomodoro-technique",
        "番茄工作法的高效使用指南",
        "番茄工作法是一种节奏化的时间管理方法，帮助你在短时高强度的学习中保持专注，并通过定期复盘提升效率。",
        "番茄工作法通过将学习拆分为25分钟高效专注时段配合5分钟休息，能够帮助学习者维持注意力并建立节奏。准备一个待办清单，在每个番茄钟开始前设定目标，结束后进行复盘。连续完成四个番茄钟后建议安排一次较长的休息，以避免注意力透支。",
        ["25分钟专注 + 5分钟休息的循环",
         "明确任务目标并在番茄钟结束后复盘",
         "每完成四个番茄钟安排15-30分钟长休息"],
        ["时间管理", "专注力", "自律"]),
      Entry(
        "feynman-technique",
        "费曼学习法的四个步骤",
        "费曼学习法通过讲解的方式检验理解程度，能够在短时间内定位盲区并强化记忆，是备考和复盘的利器。",
        "费曼学习法强调用自己的语言讲解知识点，找到理解中的漏洞。学习时先构建知识框架，再假装向他人讲授，如同老师备课。遇到解释不通顺的部分，回到资料查漏补缺，最终形成自己的笔记。",
        ["将知识点讲述给“假想的学生”",
         "在讲解过程中暴露理解薄弱环节",
         "用更简单的语言重新阐释并巩固记忆"],
        ["学习方法", "备考", "复盘"]),
      Entry(
        "spaced-repetition",
        "间隔重复与主动回忆的组合策略",
        "间隔重复配合主动回忆能够延长记忆保持时间，帮助你高效安排复习节奏，是应试与长期学习的核心策略。",
        "间隔重复结合主动回忆可以显著提升长期记忆保持。使用数字化工具或纸质卡片记录知识点，根据掌握程度安排1、3、7、14天等逐步拉长的复习间隔。复习时务必先尝试回忆再对照答案，避免被动阅读。",
        ["先回忆后验证，强化记忆路径",
         "根据掌握度动态调整复习间隔",
         "结合错题本或卡片管理知识点"],
        ["记忆", "复习", "学习计划"]),
      Entry(
        "smart-goals",
        "用SMART原则设计学习目标",
        "SMART目标体系帮助你把模糊的学习愿望转化为可执行计划，确保努力方向聚焦并便于跟踪。",
        "制定SMART目标需要确保学习任务具体、可衡量、可达成、相关性强并且有截止时间。先拆分长期目标，再为每个阶段设定衡量指标，例如每周完成两份练习、一个项目或一篇总结。配合周复盘检查偏差，及时调整。",
        ["目标需具体且能衡量进度",
         "设定明确的完成时限与评估标准",
         "通过周复盘持续迭代计划"],
        ["目标管理", "规划", "习惯养成"]),
      Entry(
        "cornell-notes",
        "康奈尔笔记法实践技巧",
        "康奈尔笔记法帮助你在记录过程中主动加工信息，形成结构化的知识网络，适用于课堂笔记与自学笔记。",
        "深度学习笔记推荐采用“康奈尔笔记法”：左侧写关键提示，中间详细记录，底部写总结。课后10分钟内进行第一次整理，24小时内完成归纳，7天内回顾。通过不同颜色或符号区分概念、例题和反思。",
        ["按提示区、记录区、总结区三栏布局",
         "在24小时内完成第一次整理与提炼",
         "定期回顾以巩固理解和建立索引"],
        ["笔记", "信息整理", "高校学习"])
    ]
  }

  const TITLE_MATCH_BONUS: real := 0.5
  const TAG_MATCH_BONUS: real := 0.3
  const DEFAULT_LIMIT: nat := 3

  // ----------------------------------------------------------- sanitising

  /** The characters the sanitiser keeps: ASCII lower-case letters, digits
      and the CJK block U+4E00..U+9FA5. */
  predicate Kept(c: char) {
    ('a' <= c <= 'z') || ('0' <= c <= '9') || ('\U{4E00}' <= c <= '\U{9FA5}')
  }

  /** `replace(/[^a-z0-9\u4e00-\u9fa5\s]/g, " ")` on one character. */
  function MaskChar(c: char): char {
    if Kept(c) || IsSpace(c) then c else ' '
  }

  function Mask(s: string): (r: string)
    ensures |r| == |s|
    ensures forall i :: 0 <= i < |r| ==> Kept(r[i]) || IsSpace(r[i])
    ensures forall i :: 0 <= i < |s| && Kept(s[i]) ==> r[i] == s[i]
  {
    seq(|s|, i requires 0 <= i < |s| => MaskChar(s[i]))
  }

  /** Lower-cases, replaces every character outside the kept classes by a
      space, collapses white-space runs and trims. The result is single
      spaced and made of kept characters and spaces only. */
  function Sanitize(text: string): (r: string)
    ensures SingleSpaced(r)
    ensures forall i :: 0 <= i < |r| ==> r[i] == ' ' || Kept(r[i])
  {
    var m := Mask(Lower(text));
    CollapseKeeps(m, Kept);
    CollapseThenTrim(m);
    var c := CollapseSpaces(m);
    assert forall i :: 0 <= i < |Trim(c)| ==> Trim(c)[i] == c[Leading(c) + i];
    Trim(c)
  }

  /** Text already single spaced and made of kept characters and spaces is a
      fixed point of collapsing. */
  lemma {:induction false} CollapseSanitizedFixed(s: string)
    requires forall i :: 0 <= i < |s| ==> s[i] == ' ' || Kept(s[i])
    requires forall i :: !SpacePairAt(s, i)
    ensures CollapseSpaces(s) == s
    decreases |s|
  {
    if s != [] {
      var t := s[1..];
      assert forall i :: 0 <= i < |t| ==> t[i] == ' ' || Kept(t[i]);
      forall i | 0 <= i && i + 1 < |t| ensures !SpacePairAt(t, i) {
        assert !SpacePairAt(s, i + 1);
      }
      if IsSpace(s[0]) {
        if t != [] {
          assert !SpacePairAt(s, 0);
          assert !IsSpace(t[0]);
        }
        assert Leading(t) == 0;
        assert Leading(s) == 1 && s[1..] == t;
      } else {
        assert Leading(s) == 0;
      }
      CollapseSanitizedFixed(t);
      assert CollapseSpaces(s) == [s[0]] + CollapseSpaces(t);
      assert s == [s[0]] + t;
    }
  }

  lemma MaskLowerFixed(s: string)
    requires forall i :: 0 <= i < |s| ==> s[i] == ' ' || Kept(s[i])
    ensures Mask(Lower(s)) == s
  {
    assert Lower(s) == s by {
      assert forall i :: 0 <= i < |s| ==> LowerChar(s[i]) == s[i];
    }
    assert forall i :: 0 <= i < |s| ==> MaskChar(s[i]) == s[i];
  }

  /** Sanitised text passes unchanged through every sanitising step. */
  lemma SanitizedFixed(s: string)
    requires SingleSpaced(s)
    requires forall i :: 0 <= i < |s| ==> s[i] == ' ' || Kept(s[i])
    ensures Trim(CollapseSpaces(Mask(Lower(s)))) == s
  {
    MaskLowerFixed(s);
    CollapseSanitizedFixed(s);
    TrimSingleSpaced(s);
  }

  /** Sanitising is idempotent. */
  lemma SanitizeIdempotent(text: string)
    ensures Sanitize(Sanitize(text)) == Sanitize(text)
  {
    SanitizedFixed(Sanitize(text));
  }

  // ----------------------------------------------------------- tokenising

  /** The space-separated words of the sanitised text; none is empty, none
      holds a space, and every character is a kept one. */
  function Tokenize(text: string): (tokens: seq<string>)
    ensures forall k :: 0 <= k < |tokens| ==> tokens[k] != []
    ensures forall k, j :: 0 <= k < |tokens| && 0 <= j < |tokens[k]| ==> Kept(tokens[k][j])
    ensures Join(tokens, " ") == Sanitize(text)
  {
    var s := Sanitize(text);
    if |s| == 0 then []
    else
      SplitSingleSpacedNonEmpty(s);
      SplitKeeps(s, ' ', Kept);
      SplitJoin(s, " ");
      Split(s, " ")
  }

  // -------------------------------------------------------------- scoring

  /** How many of the query tokens (with repetition) are entry tokens. */
  function CountMatches(queryTokens: seq<string>, entryTokens: set<string>): (n: nat)
    ensures n <= |queryTokens|
    ensures n == |queryTokens| <==> forall k :: 0 <= k < |queryTokens| ==> queryTokens[k] in entryTokens
  {
    if queryTokens == [] then 0
    else
      (if queryTokens[0] in entryTokens then 1 else 0) + CountMatches(queryTokens[1..], entryTokens)
  }

  /** The title, summary, content and space-joined tags, separated by spaces. */
  function CombinedText(entry: Entry): string {
    entry.title + " " + entry.summary + " " + entry.content + " " + Join(entry.tags, " ")
  }

  function EntryTokens(entry: Entry): set<string> {
    set t | t in Tokenize(CombinedText(entry))
  }

  /** The lower-cased title contains the lower-cased, trimmed query. */
  predicate TitleMatches(entry: Entry, query: string) {
    Contains(Lower(entry.title), Trim(Lower(query)))
  }

  /** Some lower-cased tag occurs in the lower-cased query. */
  predicate TagMatches(entry: Entry, query: string) {
    exists k :: 0 <= k < |entry.tags| && Contains(Lower(query), Lower(entry.tags[k]))
  }

  /** `m / n` as a real number, between 0 and 1. */
  function Fraction(m: nat, n: nat): (r: real)
    requires 0 < n && m <= n
    ensures 0.0 <= r <= 1.0
    ensures m == n ==> r == 1.0
  {
    FractionBounds(m, n);
    (m as real) / (n as real)
  }

  lemma FractionBounds(m: nat, n: nat)
    requires 0 < n && m <= n
    ensures 0.0 <= (m as real) / (n as real) <= 1.0
    ensures m == n ==> (m as real) / (n as real) == 1.0
  {
    var mr, nr := m as real, n as real;
    var f := mr / nr;
    assert f * nr == mr;
    assert (1.0 - f) * nr == nr - mr;
  }

  /** The fraction of query tokens found among the entry's tokens, plus the
      title and tag bonuses; a query without tokens scores 0 whatever the
      bonuses would be. */
  function Score(entry: Entry, query: string): (r: real)
    ensures Tokenize(query) == [] ==> r == 0.0
    ensures 0.0 <= r <= 1.0 + TITLE_MATCH_BONUS + TAG_MATCH_BONUS
  {
    var q := Tokenize(query);
    if |q| == 0 then 0.0
    else
      Fraction(CountMatches(q, EntryTokens(entry)), |q|)
        + (if TitleMatches(entry, query) then TITLE_MATCH_BONUS else 0.0)
        + (if TagMatches(entry, query) then TAG_MATCH_BONUS else 0.0)
  }

  /** A query whose every token occurs in the entry scores at least 1, and one
      that also matches the title and a tag scores the maximum, 1.8. */
  lemma ScoreFullMatch(entry: Entry, query: string)
    requires Tokenize(query) != []
    requires forall k :: 0 <= k < |Tokenize(query)| ==> Tokenize(query)[k] in EntryTokens(entry)
    ensures Score(entry, query) >= 1.0
    ensures TitleMatches(entry, query) && TagMatches(entry, query) ==> Score(entry, query) == 1.8
  {
    var q := Tokenize(query);
    assert CountMatches(q, EntryTokens(entry)) == |q|;
  }

  // -------------------------------------------------------------- ranking

  /** An entry with its position in the corpus and its score. */
  datatype Ranked = Ranked(index: nat, entry: Entry, score: real)

  function ScoreOf(x: Ranked): real { x.score }
  function PositionOf(x: Ranked): int { x.index }

  /** Every entry, in corpus order, with its score for `query`. */
  function Scored(corpus: seq<Entry>, query: string): (r: seq<Ranked>)
    ensures |r| == |corpus|
    ensures forall i :: 0 <= i < |r| ==> r[i] == Ranked(i, corpus[i], Score(corpus[i], query))
  {
    seq(|corpus|, i requires 0 <= i < |corpus| => Ranked(i, corpus[i], Score(corpus[i], query)))
  }

  /** The elements with a positive score, in their original order. */
  function Positive(xs: seq<Ranked>): (r: seq<Ranked>)
    ensures forall k :: 0 <= k < |r| ==> r[k].score > 0.0 && r[k] in xs
    ensures forall x :: x in xs && x.score > 0.0 ==> x in r
  {
    if xs == [] then []
    else if xs[0].score > 0.0 then [xs[0]] + Positive(xs[1..])
    else Positive(xs[1..])
  }

  /** Filtering keeps the corpus order of what it keeps. */
  lemma {:induction false} PositiveKeepsOrder(xs: seq<Ranked>)
    requires forall i, j :: 0 <= i < j < |xs| ==> xs[i].index < xs[j].index
    ensures forall i, j :: 0 <= i < j < |Positive(xs)| ==> Positive(xs)[i].index < Positive(xs)[j].index
  {
    if xs != [] {
      var tail := xs[1..];
      PositiveKeepsOrder(tail);
      var rest := Positive(tail);
      forall k | 0 <= k < |rest| ensures xs[0].index < rest[k].index {
        var m :| 0 <= m < |tail| && tail[m] == rest[k];
        assert tail[m] == xs[m + 1];
      }
    }
  }

  /** At most `limit` entries with a positive score, best first. */
  function Ranking(corpus: seq<Entry>, query: string, limit: nat): (r: seq<Ranked>)
    ensures |r| <= limit
    ensures forall k :: 0 <= k < |r| ==> r[k].score > 0.0 && ScoredEntry(corpus, query, r[k])
    ensures SortedDesc(r, ScoreOf)
  {
    var xs := Scored(corpus, query);
    assert forall x :: x in xs ==> ScoredEntry(corpus, query, x);
    var candidates := Positive(xs);
    assert forall x :: x in candidates ==> x.score > 0.0 && ScoredEntry(corpus, query, x);
    Top(candidates, ScoreOf, limit)
  }

  /** `x` is entry `x.index` of the corpus with its score for `query`. */
  predicate ScoredEntry(corpus: seq<Entry>, query: string, x: Ranked) {
    x.index < |corpus| && x.entry == corpus[x.index] && x.score == Score(corpus[x.index], query)
  }

  /** Entries with equal scores keep their corpus order. */
  lemma RankingStable(corpus: seq<Entry>, query: string, limit: nat)
    ensures StableBy(Ranking(corpus, query, limit), ScoreOf, PositionOf)
  {
    var xs := Scored(corpus, query);
    var candidates := Positive(xs);
    PositiveKeepsOrder(xs);
    assert forall i, j :: 0 <= i < j < |candidates| ==> PositionOf(candidates[i]) < PositionOf(candidates[j]);
    TopStable(candidates, ScoreOf, limit, PositionOf);
  }

  /** The ranking is a top-`limit` selection: an entry with a positive score
      that is left out was beaten by `limit` entries scoring at least as high. */
  lemma RankingIsTopK(corpus: seq<Entry>, query: string, limit: nat, i: nat)
    requires i < |corpus| && Score(corpus[i], query) > 0.0
    requires forall k :: 0 <= k < |Ranking(corpus, query, limit)| ==> Ranking(corpus, query, limit)[k].index != i
    ensures |Ranking(corpus, query, limit)| == limit
    ensures forall k :: 0 <= k < limit ==> Ranking(corpus, query, limit)[k].score >= Score(corpus[i], query)
  {
    var candidates := Positive(Scored(corpus, query));
    var x := Scored(corpus, query)[i];
    assert x in candidates;
    var r := Ranking(corpus, query, limit);
    assert x !in r;
    TopIsBest(candidates, ScoreOf, limit, x);
  }

  /** A query without tokens matches nothing. */
  lemma {:induction false} NoTokensNoRanking(corpus: seq<Entry>, query: string, limit: nat)
    requires Tokenize(query) == []
    ensures Ranking(corpus, query, limit) == []
  {
    var xs := Scored(corpus, query);
    forall k | 0 <= k < |xs| ensures xs[k].score <= 0.0 {
      assert xs[k].score == Score(corpus[k], query);
    }
    NothingRanked(xs, limit);
  }

  lemma NothingRanked(xs: seq<Ranked>, limit: nat)
    requires forall k :: 0 <= k < |xs| ==> xs[k].score <= 0.0
    ensures Top(Positive(xs), ScoreOf, limit) == []
  {
    NothingPositive(xs);
    assert |Top([], ScoreOf, limit)| == 0;
  }

  lemma {:induction false} NothingPositive(xs: seq<Ranked>)
    requires forall k :: 0 <= k < |xs| ==> xs[k].score <= 0.0
    ensures Positive(xs) == []
  {
    if xs != [] {
      NothingPositive(xs[1..]);
    }
  }

  // ------------------------------------------------------------ rendering

  /** Item `position` (from 0) as its numbered title line, its summary line
      and, when there are key points, their line. */
  function RenderEntry(position: nat, entry: Entry): (r: string)
    ensures NatToString(position + 1) + ". " + entry.title <= r
  {
    var points := if |entry.keyPoints| > 0 then ["要点：" + Join(entry.keyPoints, "；")] else [];
    Join([NatToString(position + 1) + ". " + entry.title, "摘要：" + entry.summary] + points, "\n")
  }

  function RenderAll(ranked: seq<Ranked>, from: nat): (r: seq<string>)
    ensures |r| == |ranked|
    ensures forall k :: 0 <= k < |r| ==> r[k] == RenderEntry(from + k, ranked[k].entry)
  {
    if ranked == [] then [] else [RenderEntry(from, ranked[0].entry)] + RenderAll(ranked[1..], from + 1)
  }

  /** `buildKnowledgeBaseContext(query, limit)`: nothing for a blank query
      or when no entry scores above zero, otherwise the rendered ranking,
      items separated by a blank line. */
  function BuildContext(corpus: seq<Entry>, query: string, limit: nat): (r: Option<string>)
    ensures AllSpace(query) ==> r == None
    ensures r.Some? <==> !AllSpace(query) && Ranking(corpus, Trim(query), limit) != []
  {
    var q := Trim(query);
    if |q| == 0 then None
    else
      var ranked := Ranking(corpus, q, limit);
      if |ranked| == 0 then None
      else Some(Join(RenderAll(ranked, 0), "\n\n"))
  }

  /** A query that sanitises to no tokens yields no context, even when its
      text would earn a title or tag bonus. */
  lemma NoTokensNoContext(corpus: seq<Entry>, query: string, limit: nat)
    requires Tokenize(Trim(query)) == []
    ensures BuildContext(corpus, query, limit) == None
  {
    NoTokensNoRanking(corpus, Trim(query), limit);
  }

  lemma FirstNumber(title: string)
    ensures NatToString(0 + 1) + ". " + title == "1. " + title
  {
    assert NatToString(1) == ['1'];
    assert "1. " == ['1'] + ". ";
  }

  /** The context opens with the numbered title of the best entry. */
  lemma ContextStartsWithBest(corpus: seq<Entry>, query: string, limit: nat)
    requires BuildContext(corpus, query, limit).Some?
    ensures var ranked := Ranking(corpus, Trim(query), limit);
      ranked != [] && "1. " + ranked[0].entry.title <= BuildContext(corpus, query, limit).value
  {
    var ranked := Ranking(corpus, Trim(query), limit);
    var items := RenderAll(ranked, 0);
    assert BuildContext(corpus, query, limit).value == Join(items, "\n\n");
    var title := ranked[0].entry.title;
    assert items[0] == RenderEntry(0, ranked[0].entry);
    var head := NatToString(0 + 1) + ". " + title;
    assert head <= items[0];
    FirstNumber(title);
    PrefixTrans(head, items[0], Join(items, "\n\n"));
  }
}
