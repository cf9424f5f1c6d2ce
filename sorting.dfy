/** `Array.prototype.sort` with a comparator that orders by a numeric key,
    largest first. ECMAScript requires the sort to be stable, so elements
    with equal keys keep their input order; the model is an insertion
    sort, which has that property by construction. */
module Sorting {

  predicate SortedDesc<T>(xs: seq<T>, key: T -> real) {
    forall i, j :: 0 <= i < j < |xs| ==> key(xs[i]) >= key(xs[j])
  }

  /** Elements with equal keys appear in increasing `rank`. */
  predicate StableBy<T>(xs: seq<T>, key: T -> real, rank: T -> int) {
    forall i, j :: 0 <= i < j < |xs| && key(xs[i]) == key(xs[j]) ==> rank(xs[i]) < rank(xs[j])
  }

  /** Puts `x` after every element whose key is at least its own. */
  function Insert<T>(x: T, xs: seq<T>, key: T -> real): (r: seq<T>)
    requires SortedDesc(xs, key)
    ensures SortedDesc(r, key)
    ensures multiset(r) == multiset(xs) + multiset{x}
    ensures |r| == |xs| + 1 && (r[0] == x || (xs != [] && r[0] == xs[0]))
  {
    if xs == [] then [x]
    else if key(xs[0]) >= key(x) then
      SortedTail(xs, key);
      var rest := Insert(x, xs[1..], key);
      assert multiset(xs) == multiset{xs[0]} + multiset(xs[1..]) by {
        assert xs == [xs[0]] + xs[1..];
      }
      SortedCons(xs[0], rest, key);
      [xs[0]] + rest
    else
      SortedCons(x, xs, key);
      [x] + xs
  }

  lemma SortedTail<T>(xs: seq<T>, key: T -> real)
    requires SortedDesc(xs, key) && xs != []
    ensures SortedDesc(xs[1..], key)
  {
    var t := xs[1..];
    forall i, j | 0 <= i < j < |t| ensures key(t[i]) >= key(t[j]) {
      assert t[i] == xs[i + 1] && t[j] == xs[j + 1];
    }
  }

  lemma SortedCons<T>(a: T, xs: seq<T>, key: T -> real)
    requires SortedDesc(xs, key) && (xs != [] ==> key(a) >= key(xs[0]))
    ensures SortedDesc([a] + xs, key)
  {
    var r := [a] + xs;
    forall i, j | 0 <= i < j < |r| ensures key(r[i]) >= key(r[j]) {
      assert r[j] == xs[j - 1];
      if i > 0 {
        assert r[i] == xs[i - 1];
      }
    }
  }

  /** The input sorted by `key`, largest first; ties keep input order. */
  function SortDesc<T>(xs: seq<T>, key: T -> real): (r: seq<T>)
    ensures SortedDesc(r, key)
    ensures multiset(r) == multiset(xs) && |r| == |xs|
  {
    if xs == [] then []
    else
      var init := xs[..|xs| - 1];
      assert xs == init + [xs[|xs| - 1]];
      var r := Insert(xs[|xs| - 1], SortDesc(init, key), key);
      assert |r| == |multiset(r)|;
      r
  }

  /** `xs.slice(0, n)`. */
  function Take<T>(xs: seq<T>, n: nat): (r: seq<T>)
    ensures |r| <= n && |r| <= |xs|
    ensures |r| == if n < |xs| then n else |xs|
    ensures r <= xs
    ensures multiset(r) <= multiset(xs)
  {
    if n < |xs| then
      assert xs == xs[..n] + xs[n..];
      xs[..n]
    else xs
  }

  lemma {:induction false} InsertStable<T>(x: T, xs: seq<T>, key: T -> real, rank: T -> int)
    requires SortedDesc(xs, key) && StableBy(xs, key, rank)
    requires forall y :: y in xs ==> rank(y) < rank(x)
    ensures StableBy(Insert(x, xs, key), key, rank)
    decreases |xs|
  {
    if xs == [] {
    } else if key(xs[0]) >= key(x) {
      var tail := xs[1..];
      var rest := Insert(x, tail, key);
      InsertStable(x, tail, key, rank);
      HeadRankBelow(x, xs, rest, key, rank);
      ConsStable(xs[0], rest, key, rank);
      assert [xs[0]] + rest == Insert(x, xs, key);
    } else {
      assert forall j :: 0 <= j < |xs| ==> key(xs[j]) < key(x) by {
        assert forall j :: 0 < j < |xs| ==> key(xs[j]) <= key(xs[0]);
      }
      ConsStable(x, xs, key, rank);
    }
  }

  /** Putting in front an element that ranks below every element with an
      equal key keeps ties in rank order. */
  lemma ConsStable<T>(a: T, xs: seq<T>, key: T -> real, rank: T -> int)
    requires StableBy(xs, key, rank)
    requires forall j :: 0 <= j < |xs| && key(a) == key(xs[j]) ==> rank(a) < rank(xs[j])
    ensures StableBy([a] + xs, key, rank)
  {
    var r := [a] + xs;
    assert forall j :: 0 < j < |r| ==> r[j] == xs[j - 1];
  }

  /** The head of `xs` ranks below what is inserted after it and below
      the rest of `xs`. */
  lemma HeadRankBelow<T>(x: T, xs: seq<T>, rest: seq<T>, key: T -> real, rank: T -> int)
    requires xs != [] && StableBy(xs, key, rank)
    requires forall y :: y in xs ==> rank(y) < rank(x)
    requires multiset(rest) == multiset(xs[1..]) + multiset{x}
    ensures forall j :: 0 <= j < |rest| && key(xs[0]) == key(rest[j]) ==> rank(xs[0]) < rank(rest[j])
  {
    var tail := xs[1..];
    forall j | 0 <= j < |rest| && key(xs[0]) == key(rest[j]) ensures rank(xs[0]) < rank(rest[j]) {
      var y := rest[j];
      assert y in multiset(rest);
      if y != x {
        assert y in multiset(tail);
        var m :| 0 <= m < |tail| && tail[m] == y;
        assert tail[m] == xs[m + 1];
      } else {
        assert xs[0] in xs;
      }
    }
  }

  /** When `rank` increases along the input, the sort is stable. */
  lemma {:induction false} SortDescStable<T>(xs: seq<T>, key: T -> real, rank: T -> int)
    requires forall i, j :: 0 <= i < j < |xs| ==> rank(xs[i]) < rank(xs[j])
    ensures StableBy(SortDesc(xs, key), key, rank)
  {
    if xs != [] {
      var init := xs[..|xs| - 1];
      var last := xs[|xs| - 1];
      SortDescStable(init, key, rank);
      var sorted := SortDesc(init, key);
      forall y | y in sorted ensures rank(y) < rank(last) {
        assert y in multiset(init);
        var m :| 0 <= m < |init| && init[m] == y;
      }
      InsertStable(last, sorted, key, rank);
    }
  }

  /** `xs.sort(byKeyDesc).slice(0, n)`: the `n` best elements, best first. */
  function Top<T>(xs: seq<T>, key: T -> real, n: nat): (r: seq<T>)
    ensures |r| == if n < |xs| then n else |xs|
    ensures SortedDesc(r, key)
    ensures forall k :: 0 <= k < |r| ==> r[k] in xs
    ensures multiset(r) <= multiset(xs)
  {
    var sorted := SortDesc(xs, key);
    forall k | 0 <= k < |sorted| ensures sorted[k] in xs {
      assert sorted[k] in multiset(xs);
    }
    Take(sorted, n)
  }

  /** An element of the input that `Top` leaves out was beaten by `n`
      elements whose keys are at least its own. */
  lemma TopIsBest<T>(xs: seq<T>, key: T -> real, n: nat, y: T)
    requires y in xs && y !in Top(xs, key, n)
    ensures |Top(xs, key, n)| == n
    ensures forall k :: 0 <= k < n ==> key(Top(xs, key, n)[k]) >= key(y)
  {
    var sorted := SortDesc(xs, key);
    assert y in multiset(sorted) by { assert y in multiset(xs); }
    var p :| 0 <= p < |sorted| && sorted[p] == y;
    var r := Top(xs, key, n);
    assert r == Take(sorted, n);
    assert forall k :: 0 <= k < |r| ==> r[k] == sorted[k];
    assert |r| <= p;
    forall k | 0 <= k < n ensures key(r[k]) >= key(y) {
      assert r[k] == sorted[k];
    }
  }

  /** When `rank` increases along the input, `Top` breaks ties by `rank`. */
  lemma TopStable<T>(xs: seq<T>, key: T -> real, n: nat, rank: T -> int)
    requires forall i, j :: 0 <= i < j < |xs| ==> rank(xs[i]) < rank(xs[j])
    ensures StableBy(Top(xs, key, n), key, rank)
  {
    SortDescStable(xs, key, rank);
    var sorted := SortDesc(xs, key);
    var r := Top(xs, key, n);
    assert forall k :: 0 <= k < |r| ==> r[k] == sorted[k];
  }
}
