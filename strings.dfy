/** The JavaScript string operations the services rely on (`trim`,
    `toLowerCase`, `includes`, `indexOf`, `endsWith`, `split`, `join`,
    `replace(/\s+/g, " ")` and number formatting), over `seq<char>`. */
module Strings {
  import opened Wrappers

  /** ECMAScript's `\s` class: the characters `trim` removes and the
      `\s+` pattern matches. These are tab, line feed, vertical tab, form
      feed and carriage return (U+0009 to U+000D), the space separators
      (U+0020, U+00A0, U+1680, U+2000 to U+200A, U+202F, U+205F, U+3000),
      the line and paragraph separators (U+2028, U+2029) and the byte
      order mark (U+FEFF): 25 characters in all. */
  predicate IsSpace(c: char) {
    || '\t' <= c <= '\r'
    || c == ' '
    || c == '\U{00A0}'
    || c == '\U{1680}'
    || '\U{2000}' <= c <= '\U{200A}'
    || c == '\U{2028}' || c == '\U{2029}'
    || c == '\U{202F}'
    || c == '\U{205F}'
    || c == '\U{3000}'
    || c == '\U{FEFF}'
  }

  /** JavaScript truthiness of an optional string: present and non-empty. */
  predicate Truthy(s: Option<string>) {
    s.Some? && s.value != []
  }

  predicate AllSpace(s: string) {
    forall i :: 0 <= i < |s| ==> IsSpace(s[i])
  }

  // ---------------------------------------------------------------- trim

  /** The number of white-space characters at the start of `s`. */
  function Leading(s: string): (n: nat)
    ensures n <= |s|
    ensures forall i :: 0 <= i < n ==> IsSpace(s[i])
    ensures n < |s| ==> !IsSpace(s[n])
  {
    if s == [] || !IsSpace(s[0]) then 0 else 1 + Leading(s[1..])
  }

  /** The number of white-space characters at the end of `s`. */
  function Trailing(s: string): (n: nat)
    ensures n <= |s|
    ensures forall i :: |s| - n <= i < |s| ==> IsSpace(s[i])
    ensures n < |s| ==> !IsSpace(s[|s| - n - 1])
  {
    if s == [] || !IsSpace(s[|s| - 1]) then 0 else 1 + Trailing(s[..|s| - 1])
  }

  /** `String.prototype.trim`: the slice of `s` between its leading and its
      trailing white space, which it neither starts nor ends with; it is
      empty exactly when `s` is all white space. */
  function Trim(s: string): (r: string)
    ensures Leading(s) + |r| <= |s| && r == s[Leading(s)..Leading(s) + |r|]
    ensures forall i :: Leading(s) + |r| <= i < |s| ==> IsSpace(s[i])
    ensures r != [] ==> !IsSpace(r[0]) && !IsSpace(r[|r| - 1])
    ensures r == [] <==> AllSpace(s)
  {
    TrimEnd(s[Leading(s)..])
  }

  /** `s` without its trailing white space. */
  function TrimEnd(s: string): string {
    s[..|s| - Trailing(s)]
  }

  lemma TrimIdempotent(s: string)
    ensures Trim(Trim(s)) == Trim(s)
  {
    var t := Trim(s);
    if t != [] {
      assert Leading(t) == 0;
      assert Trailing(t) == 0;
    }
  }

  // ---------------------------------------------------------- lower case

  /** `toLowerCase` on one character; only the ASCII letters are folded. */
  function LowerChar(c: char): char {
    if 'A' <= c <= 'Z' then (c as int + 32) as char else c
  }

  function Lower(s: string): (r: string)
    ensures |r| == |s|
    ensures forall i :: 0 <= i < |s| ==> r[i] == LowerChar(s[i])
  {
    seq(|s|, i requires 0 <= i < |s| => LowerChar(s[i]))
  }

  lemma LowerIdempotent(s: string)
    ensures Lower(Lower(s)) == Lower(s)
  {
  }

  // ------------------------------------------------------ search, suffix

  /** The first position of `c` in `s`. */
  function FindChar(s: string, c: char): (r: Option<nat>)
    ensures r.Some? ==> r.value < |s| && s[r.value] == c
    ensures r.Some? ==> forall j :: 0 <= j < r.value ==> s[j] != c
    ensures r.None? ==> forall j :: 0 <= j < |s| ==> s[j] != c
  {
    if s == [] then None
    else if s[0] == c then Some(0)
    else match FindChar(s[1..], c)
      case Some(k) => Some(k + 1)
      case None => None
  }

  /** `sub` occurs in `s` at position `i`. */
  predicate OccursAt(s: string, sub: string, i: int) {
    0 <= i && i + |sub| <= |s| && s[i..i + |sub|] == sub
  }

  /** The first occurrence of `sub` in `s` at or after `k`. */
  function IndexFrom(s: string, sub: string, k: nat): (r: Option<nat>)
    requires k <= |s|
    ensures r.Some? ==> k <= r.value && OccursAt(s, sub, r.value)
    ensures r.Some? ==> forall j :: k <= j < r.value ==> !OccursAt(s, sub, j)
    ensures r.None? ==> forall j :: k <= j ==> !OccursAt(s, sub, j)
    decreases |s| - k
  {
    if k + |sub| > |s| then None
    else if s[k..k + |sub|] == sub then Some(k)
    else IndexFrom(s, sub, k + 1)
  }

  /** `s.indexOf(sub)`, with `None` for -1. */
  function IndexOf(s: string, sub: string): (r: Option<nat>)
    ensures r.Some? ==> OccursAt(s, sub, r.value)
    ensures r.Some? ==> forall j :: 0 <= j < r.value ==> !OccursAt(s, sub, j)
    ensures r.None? ==> forall j :: 0 <= j ==> !OccursAt(s, sub, j)
  {
    IndexFrom(s, sub, 0)
  }

  /** `s.includes(sub)`. */
  predicate Contains(s: string, sub: string) {
    IndexOf(s, sub).Some?
  }

  lemma ContainsIff(s: string, sub: string)
    ensures Contains(s, sub) <==> exists i :: OccursAt(s, sub, i)
  {
    if Contains(s, sub) {
      assert OccursAt(s, sub, IndexOf(s, sub).value);
    }
  }

  /** `s.endsWith(suffix)`. */
  predicate EndsWith(s: string, suffix: string) {
    |suffix| <= |s| && s[|s| - |suffix|..] == suffix
  }

  // ----------------------------------------------------------- join, split

  /** No string occurs twice. */
  predicate NoDuplicates(xs: seq<string>) {
    forall i, j :: 0 <= i < j < |xs| ==> xs[i] != xs[j]
  }

  /** `parts.join(sep)`. */
  function Join(parts: seq<string>, sep: string): (r: string)
    ensures parts != [] ==> parts[0] <= r
    ensures |parts| == 1 ==> r == parts[0]
  {
    if |parts| == 0 then ""
    else if |parts| == 1 then parts[0]
    else parts[0] + sep + Join(parts[1..], sep)
  }

  /** A join ends with its last part. */
  lemma {:induction false} JoinEndsWith(parts: seq<string>, sep: string)
    requires parts != []
    ensures EndsWith(Join(parts, sep), parts[|parts| - 1])
  {
    if |parts| > 1 {
      JoinEndsWith(parts[1..], sep);
      var tail := Join(parts[1..], sep);
      var r := parts[0] + sep + tail;
      assert r[|r| - |tail|..] == tail;
      var last := parts[|parts| - 1];
      assert tail[|tail| - |last|..] == last;
      assert r[|r| - |last|..] == tail[|tail| - |last|..];
    }
  }

  /** Every part occurs in the join, at the position returned. */
  lemma {:induction false} JoinPartAt(parts: seq<string>, sep: string, j: nat) returns (i: nat)
    requires j < |parts|
    ensures OccursAt(Join(parts, sep), parts[j], i)
  {
    if j == 0 {
      i := 0;
    } else {
      var tail := Join(parts[1..], sep);
      var k := JoinPartAt(parts[1..], sep, j - 1);
      var r := parts[0] + sep + tail;
      i := |parts[0]| + |sep| + k;
      assert r[i..i + |parts[j]|] == tail[k..k + |parts[j]|];
    }
  }

  /** Text that occurs after a prefix occurs in the whole. */
  lemma OccursAfter(prefix: string, s: string, sub: string, i: nat)
    requires OccursAt(s, sub, i)
    ensures OccursAt(prefix + s, sub, |prefix| + i)
  {
    assert (prefix + s)[|prefix| + i..|prefix| + i + |sub|] == s[i..i + |sub|];
  }

  lemma EndsWithTrans(a: string, b: string, c: string)
    requires EndsWith(a, b) && EndsWith(b, c)
    ensures EndsWith(a, c)
  {
    assert a[|a| - |c|..] == a[|a| - |b|..][|b| - |c|..];
  }

  lemma PrefixTrans(a: string, b: string, c: string)
    requires a <= b && b <= c
    ensures a <= c
  {
    assert b == c[..|b|];
    assert a == b[..|a|] == c[..|a|];
  }

  /** `s.split(sep)` for a non-empty separator: the pieces between the
      non-overlapping occurrences of `sep`, found from the left. No piece
      contains `sep`. */
  function Split(s: string, sep: string): (parts: seq<string>)
    requires sep != []
    ensures |parts| >= 1
    ensures forall i, j :: 0 <= i < |parts| ==> !OccursAt(parts[i], sep, j)
    ensures IndexOf(s, sep).None? ==> parts == [s]
    ensures IndexOf(s, sep).Some? ==> |parts| >= 2 && parts[0] == s[..IndexOf(s, sep).value]
    decreases |s|
  {
    match IndexOf(s, sep)
    case None =>
      [s]
    case Some(k) =>
      var head := s[..k];
      assert forall j :: !OccursAt(head, sep, j) by {
        forall j | OccursAt(head, sep, j) ensures false {
          assert head[j..j + |sep|] == s[j..j + |sep|];
          assert OccursAt(s, sep, j);
        }
      }
      [head] + Split(s[k + |sep|..], sep)
  }

  /** Splitting and joining with the same separator gives `s` back. */
  lemma {:induction false} SplitJoin(s: string, sep: string)
    requires sep != []
    ensures Join(Split(s, sep), sep) == s
    decreases |s|
  {
    match IndexOf(s, sep)
    case None =>
    case Some(k) =>
      var tail := s[k + |sep|..];
      var rest := Split(tail, sep);
      SplitJoin(tail, sep);
      var parts := Split(s, sep);
      assert parts == [s[..k]] + rest;
      assert parts[1..] == rest;
      assert Join(parts, sep) == s[..k] + sep + Join(rest, sep);
      assert s[k..k + |sep|] == sep by { assert OccursAt(s, sep, k); }
      assert s == s[..k] + s[k..k + |sep|] + tail;
  }

  /** Every character of every piece of `Split(s, [c])` is a character of
      `s` other than `c`, so a property of those characters carries over. */
  lemma {:induction false} SplitKeeps(s: string, c: char, P: char -> bool)
    requires forall i :: 0 <= i < |s| ==> s[i] == c || P(s[i])
    ensures forall k, j :: 0 <= k < |Split(s, [c])| && 0 <= j < |Split(s, [c])[k]| ==> P(Split(s, [c])[k][j])
    decreases |s|
  {
    match IndexOf(s, [c])
    case None =>
      forall j | 0 <= j < |s| ensures s[j] != c { assert !OccursAt(s, [c], j); }
    case Some(k) =>
      forall j | 0 <= j < k ensures s[j] != c { assert !OccursAt(s, [c], j); }
      var t := s[k + 1..];
      assert forall i :: 0 <= i < |t| ==> t[i] == s[k + 1 + i];
      SplitKeeps(t, c, P);
      assert Split(s, [c]) == [s[..k]] + Split(t, [c]);
  }

  // ---------------------------------------------------- white space runs

  /** `s.replace(/\s+/g, " ")`: each maximal run of white space becomes a
      single ' '. */
  function CollapseSpaces(s: string): (r: string)
    ensures forall i :: 0 <= i < |r| && IsSpace(r[i]) ==> r[i] == ' '
    ensures forall i :: !SpacePairAt(r, i)
    ensures (r != [] && r[0] == ' ') <==> (s != [] && IsSpace(s[0]))
    ensures r == [] <==> s == []
    decreases |s|
  {
    if s == [] then []
    else
      var k := Leading(s);
      var rest := if k > 0 then CollapseSpaces(s[k..]) else CollapseSpaces(s[1..]);
      var r := [if k > 0 then ' ' else s[0]] + rest;
      assert forall i :: SpacePairAt(r, i) && i > 0 ==> SpacePairAt(rest, i - 1);
      r
  }

  /** Collapsing keeps every non-space character, so a property shared by
      the non-space characters of `s` holds for those of the result. */
  lemma {:induction false} CollapseKeeps(s: string, P: char -> bool)
    requires forall i :: 0 <= i < |s| ==> IsSpace(s[i]) || P(s[i])
    ensures forall i :: 0 <= i < |CollapseSpaces(s)| ==> CollapseSpaces(s)[i] == ' ' || P(CollapseSpaces(s)[i])
    decreases |s|
  {
    if s != [] {
      var k := Leading(s);
      var t := if k > 0 then s[k..] else s[1..];
      assert forall i :: 0 <= i < |t| ==> t[i] == s[|s| - |t| + i];
      CollapseKeeps(t, P);
    }
  }

  /** Two spaces next to each other at `i` and `i + 1`. */
  predicate SpacePairAt(s: string, i: int) {
    0 <= i && i + 1 < |s| && s[i] == ' ' && s[i + 1] == ' '
  }

  /** Text in which every white-space character is a plain ' ', no two
      spaces are adjacent and neither end is a space: the result of
      collapsing and trimming. */
  predicate SingleSpaced(s: string) {
    && (forall i :: 0 <= i < |s| && IsSpace(s[i]) ==> s[i] == ' ')
    && (forall i :: 0 <= i < |s| ==> !SpacePairAt(s, i))
    && (s != [] ==> s[0] != ' ' && s[|s| - 1] != ' ')
  }

  /** Single-spaced text has nothing to trim. */
  lemma TrimSingleSpaced(s: string)
    requires SingleSpaced(s)
    ensures Trim(s) == s
  {
    if s != [] {
      assert !IsSpace(s[0]);
      assert Leading(s) == 0;
      assert !IsSpace(s[|s| - 1]);
      assert Trailing(s) == 0;
      assert s[0..] == s;
    }
  }

  lemma CollapseThenTrim(s: string)
    ensures SingleSpaced(Trim(CollapseSpaces(s)))
  {
    var c := CollapseSpaces(s);
    var r := Trim(c);
    var k := Leading(c);
    assert forall i :: 0 <= i < |r| ==> r[i] == c[k + i];
    forall i | 0 <= i && i + 1 < |r| ensures !SpacePairAt(r, i) {
      assert !SpacePairAt(c, k + i);
    }
    assert IsSpace(' ');
  }

  /** Splitting single-spaced, non-empty text on ' ' never yields an empty
      piece. */
  lemma {:induction false} SplitSingleSpacedNonEmpty(s: string)
    requires SingleSpaced(s) && s != []
    ensures forall i :: 0 <= i < |Split(s, " ")| ==> Split(s, " ")[i] != []
    decreases |s|
  {
    match IndexOf(s, [' '])
    case None =>
    case Some(k) =>
      assert s[k] == ' ' by { assert OccursAt(s, [' '], k); }
      assert 0 < k < |s| - 1;
      var t := s[k + 1..];
      assert !SpacePairAt(s, k);
      assert t[0] == s[k + 1] != ' ';
      assert SingleSpaced(t) by {
        forall i | 0 <= i && i + 1 < |t| ensures !SpacePairAt(t, i) {
          assert t[i] == s[k + 1 + i] && t[i + 1] == s[k + 2 + i];
          assert !SpacePairAt(s, k + 1 + i);
        }
      }
      SplitSingleSpacedNonEmpty(t);
      assert Split(s, " ") == [s[..k]] + Split(t, " ");
  }

  // ------------------------------------------------------------- numbers

  function DigitChar(d: nat): (c: char)
    requires d < 10
    ensures '0' <= c <= '9'
  {
    ('0' as int + d) as char
  }

  /** Decimal rendering of a natural number (`String(n)`). */
  function NatToString(n: nat): (r: string)
    ensures |r| >= 1
    ensures forall i :: 0 <= i < |r| ==> '0' <= r[i] <= '9'
  {
    if n < 10 then [DigitChar(n)] else NatToString(n / 10) + [DigitChar(n % 10)]
  }

  /** Decimal rendering of an integer (`String(n)`). */
  function IntToString(n: int): (r: string)
    ensures r != []
  {
    if n < 0 then "-" + NatToString(-n) else NatToString(n)
  }
}
