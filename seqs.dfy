/** The array operations the application uses: `filter`, `map`, `slice`, `flatMap`, a stable sort, and de-duplication through a `Set`. */
module Seqs {

  /** `s` keeps some of the elements of `t`, in their order. */
  predicate IsSubsequence<T(==)>(s: seq<T>, t: seq<T>)
    decreases |t|
  {
    if s == [] then true
    else if t == [] then false
    else if s[0] == t[0] then IsSubsequence(s[1..], t[1..])
    else IsSubsequence(s, t[1..])
  }

  /** The number of elements of `s` that satisfy `p`. */
  function CountIf<T>(s: seq<T>, p: T -> bool): (n: nat)
    ensures n <= |s|
  {
    if s == [] then 0 else (if p(s[0]) then 1 else 0) + CountIf(s[1..], p)
  }

  /**
   * `s.filter(p)`. Being a subsequence of `s` with one element for each
   * element of `s` that satisfies `p`, the result keeps every such element,
   * duplicates included.
   */
  function Filter<T(==)>(s: seq<T>, p: T -> bool): (r: seq<T>)
    ensures |r| == CountIf(s, p)
    ensures forall i :: 0 <= i < |r| ==> r[i] in s && p(r[i])
    ensures forall i :: 0 <= i < |s| && p(s[i]) ==> s[i] in r
    ensures IsSubsequence(r, s)
  {
    if s == [] then []
    else
      var rest := Filter(s[1..], p);
      if p(s[0]) then
        [s[0]] + rest
      else
        SubsequenceDropFront(rest, s);
        rest
  }

  /**
   * The multiplicities `Filter` keeps: each element satisfying `p` occurs as
   * often as in `s`, every other element not at all.
   */
  lemma {:induction false} FilterMultiset<T(!new)>(s: seq<T>, p: T -> bool)
    ensures forall x :: multiset(Filter(s, p))[x] == if p(x) then multiset(s)[x] else 0
  {
    if s != [] {
      FilterMultiset(s[1..], p);
      assert s == [s[0]] + s[1..];
      assert multiset(s) == multiset{s[0]} + multiset(s[1..]);
      if p(s[0]) {
        assert multiset(Filter(s, p)) == multiset{s[0]} + multiset(Filter(s[1..], p));
      }
    }
  }

  lemma {:induction false} SubsequenceDropFront<T>(r: seq<T>, s: seq<T>)
    requires s != [] && IsSubsequence(r, s[1..])
    ensures IsSubsequence(r, s)
    decreases |s|, 0
  {
    if r != [] && r[0] == s[0] {
      SubsequenceTail(r, s[1..]);
    }
  }

  lemma {:induction false} SubsequenceTail<T>(r: seq<T>, s: seq<T>)
    requires r != [] && IsSubsequence(r, s)
    ensures IsSubsequence(r[1..], s)
    decreases |s|, 1
  {
    if s == [] {
    } else if r[0] == s[0] {
      SubsequenceDropFront(r[1..], s);
    } else {
      SubsequenceTail(r, s[1..]);
      SubsequenceDropFront(r[1..], s);
    }
  }

  /** Filtering with a predicate every element satisfies keeps the whole sequence. */
  lemma {:induction false} FilterAll<T>(s: seq<T>, p: T -> bool)
    requires forall i :: 0 <= i < |s| ==> p(s[i])
    ensures Filter(s, p) == s
  {
    if s != [] {
      FilterAll(s[1..], p);
    }
  }

  /** Filtering by `p` then by `q` is filtering once by their conjunction `r`. */
  lemma {:induction false} FilterCompose<T>(s: seq<T>, p: T -> bool, q: T -> bool, r: T -> bool)
    requires forall x :: r(x) == (p(x) && q(x))
    ensures Filter(Filter(s, p), q) == Filter(s, r)
  {
    if s != [] {
      FilterCompose(s[1..], p, q, r);
      if p(s[0]) {
        assert ([s[0]] + Filter(s[1..], p))[1..] == Filter(s[1..], p);
      }
    }
  }

  /** Filtering by two predicates that agree everywhere gives the same sequence. */
  lemma {:induction false} FilterCongruent<T>(s: seq<T>, p: T -> bool, q: T -> bool)
    requires forall x :: p(x) == q(x)
    ensures Filter(s, p) == Filter(s, q)
  {
    if s != [] {
      FilterCongruent(s[1..], p, q);
    }
  }

  /** `s.map(f)`. */
  function Map<T, U>(s: seq<T>, f: T -> U): (r: seq<U>)
    ensures |r| == |s|
    ensures forall i :: 0 <= i < |s| ==> r[i] == f(s[i])
  {
    seq(|s|, i requires 0 <= i < |s| => f(s[i]))
  }

  /** `s.map(x => p(x) ? v : x)`: every element satisfying `p` replaced by `v`. */
  function ReplaceWhere<T>(s: seq<T>, p: T -> bool, v: T): (r: seq<T>)
    ensures |r| == |s|
    ensures forall i :: 0 <= i < |s| ==> r[i] == if p(s[i]) then v else s[i]
  {
    seq(|s|, i requires 0 <= i < |s| => if p(s[i]) then v else s[i])
  }

  /** Replacing where nothing matches changes nothing. */
  lemma ReplaceWhereNoMatch<T>(s: seq<T>, p: T -> bool, v: T)
    requires forall i :: 0 <= i < |s| ==> !p(s[i])
    ensures ReplaceWhere(s, p, v) == s
  {
  }

  /** `s.slice(0, n)`. */
  function Take<T>(s: seq<T>, n: nat): (r: seq<T>)
    ensures |r| == if n < |s| then n else |s|
    ensures r == s[..|r|]
  {
    if n < |s| then s[..n] else s
  }

  /** `s.flatMap(x => x)`. */
  function Flatten<T>(s: seq<seq<T>>): (r: seq<T>)
    ensures |r| == SumLengths(s)
  {
    if s == [] then [] else s[0] + Flatten(s[1..])
  }

  function SumLengths<T>(s: seq<seq<T>>): nat {
    if s == [] then 0 else |s[0]| + SumLengths(s[1..])
  }

  /** No element occurs twice. */
  predicate Distinct<T(==)>(s: seq<T>) {
    forall i, j :: 0 <= i < j < |s| ==> s[i] != s[j]
  }

  /** Appending an element that does not occur keeps the elements distinct. */
  lemma DistinctAppend<T>(s: seq<T>, x: T)
    requires Distinct(s) && x !in s
    ensures Distinct(s + [x])
  {
    var r := s + [x];
    forall i, j | 0 <= i < j < |r| ensures r[i] != r[j] {
      assert r[i] == s[i];
      if j < |s| { assert r[j] == s[j]; }
    }
  }

  /** `s.indexOf(x)`: the position of the first occurrence of `x`. */
  function FirstIndex<T(==)>(s: seq<T>, x: T): (i: nat)
    requires x in s
    ensures i < |s| && s[i] == x
    ensures forall j :: 0 <= j < i ==> s[j] != x
  {
    if s[0] == x then 0 else 1 + FirstIndex(s[1..], x)
  }

  /** Dropping the last element does not move a first occurrence before it. */
  lemma {:induction false} FirstIndexPrefix<T>(s: seq<T>, x: T)
    requires s != [] && x in s[..|s| - 1]
    ensures x in s && FirstIndex(s, x) == FirstIndex(s[..|s| - 1], x)
  {
    var init := s[..|s| - 1];
    if s[0] != x {
      assert init[0] == s[0];
      assert s[1..][..|s[1..]| - 1] == init[1..];
      FirstIndexPrefix(s[1..], x);
    }
  }

  /**
   * `Array.from(new Set(s))`: the elements of `s` without repetitions, each at
   * the place of its first occurrence.
   */
  function Dedupe<T(==)>(s: seq<T>): (r: seq<T>)
    ensures Distinct(r)
    ensures forall i :: 0 <= i < |r| ==> r[i] in s
    ensures forall i :: 0 <= i < |s| ==> s[i] in r
    ensures IsSubsequence(r, s)
    decreases |s|
  {
    if s == [] then []
    else
      var init := Dedupe(s[..|s| - 1]);
      var last := s[|s| - 1];
      assert s == s[..|s| - 1] + [last];
      SubsequenceExtend(init, s);
      if last in init then init else
        SubsequenceAppend(init, s[..|s| - 1], last);
        assert s[..|s| - 1] + [last] == s;
        init + [last]
  }

  /** `Dedupe` keeps the elements in the order of their first occurrences. */
  lemma {:induction false} DedupeOrder<T>(s: seq<T>)
    ensures forall i :: 0 <= i < |Dedupe(s)| ==> Dedupe(s)[i] in s
    ensures forall i, j :: 0 <= i < j < |Dedupe(s)| ==>
      FirstIndex(s, Dedupe(s)[i]) < FirstIndex(s, Dedupe(s)[j])
  {
    if s != [] {
      var prefix := s[..|s| - 1];
      DedupeOrder(prefix);
      DedupeStepOrder(s, prefix, Dedupe(prefix));
    }
  }

  /** The order step of `Dedupe`: first occurrences keep their order when `s` grows by one. */
  lemma DedupeStepOrder<T>(s: seq<T>, prefix: seq<T>, init: seq<T>)
    requires s != [] && prefix == s[..|s| - 1]
    requires forall i :: 0 <= i < |init| ==> init[i] in prefix
    requires forall i :: 0 <= i < |prefix| ==> prefix[i] in init
    requires forall i, j :: 0 <= i < j < |init| ==>
      FirstIndex(prefix, init[i]) < FirstIndex(prefix, init[j])
    ensures var r := if s[|s| - 1] in init then init else init + [s[|s| - 1]];
      (forall i :: 0 <= i < |r| ==> r[i] in s) &&
      forall i, j :: 0 <= i < j < |r| ==> FirstIndex(s, r[i]) < FirstIndex(s, r[j])
  {
    var last := s[|s| - 1];
    forall i | 0 <= i < |init| ensures init[i] in s && FirstIndex(s, init[i]) == FirstIndex(prefix, init[i]) {
      FirstIndexPrefix(s, init[i]);
    }
    if last !in init {
      assert last !in prefix;
      assert FirstIndex(s, last) == |s| - 1;
      var r := init + [last];
      forall i, j | 0 <= i < j < |r| ensures FirstIndex(s, r[i]) < FirstIndex(s, r[j]) {
        assert r[i] == init[i];
        if j < |init| { assert r[j] == init[j]; }
      }
    }
  }

  lemma {:induction false} SubsequenceExtend<T>(r: seq<T>, s: seq<T>)
    requires s != [] && IsSubsequence(r, s[..|s| - 1])
    ensures IsSubsequence(r, s)
    decreases |s|
  {
    if r != [] && |s| > 1 {
      var t := s[..|s| - 1];
      assert s[1..][..|s| - 2] == t[1..];
      if r[0] == s[0] {
        SubsequenceExtend(r[1..], s[1..]);
      } else {
        SubsequenceExtend(r, s[1..]);
      }
    }
  }

  lemma {:induction false} SubsequenceAppend<T>(r: seq<T>, s: seq<T>, x: T)
    requires IsSubsequence(r, s)
    ensures IsSubsequence(r + [x], s + [x])
    decreases |s|
  {
    if r == [] {
      assert r + [x] == [x];
      SubsequenceOfSingleton(x, s);
    } else {
      assert s != [];
      assert (r + [x])[1..] == r[1..] + [x];
      assert (s + [x])[1..] == s[1..] + [x];
      if r[0] == s[0] {
        SubsequenceAppend(r[1..], s[1..], x);
      } else {
        SubsequenceAppend(r, s[1..], x);
      }
    }
  }

  lemma {:induction false} SubsequenceOfSingleton<T>(x: T, s: seq<T>)
    ensures IsSubsequence([x], s + [x])
    decreases |s|
  {
    if s != [] {
      assert (s + [x])[1..] == s[1..] + [x];
      SubsequenceOfSingleton(x, s[1..]);
      if s[0] == x {
        assert [x][1..] == [];
      }
    }
  }

  /** `key` does not increase along `s`. */
  predicate SortedDescBy<T>(s: seq<T>, key: T -> int) {
    forall i, j :: 0 <= i < j < |s| ==> key(s[i]) >= key(s[j])
  }

  /** Putting an element in front of a sorted sequence whose head has no larger key keeps it sorted. */
  lemma ConsSortedDesc<T>(x: T, s: seq<T>, key: T -> int)
    requires SortedDescBy(s, key) && (s == [] || key(x) >= key(s[0]))
    ensures SortedDescBy([x] + s, key)
  {
    var r := [x] + s;
    forall i, j | 0 <= i < j < |r| ensures key(r[i]) >= key(r[j]) {
      if i == 0 {
        assert r[j] == s[j - 1];
        assert key(s[0]) >= key(s[j - 1]);
      } else {
        assert r[i] == s[i - 1] && r[j] == s[j - 1];
      }
    }
  }

  lemma SortedDescTail<T>(s: seq<T>, key: T -> int)
    requires s != [] && SortedDescBy(s, key)
    ensures SortedDescBy(s[1..], key)
  {
    var tail := s[1..];
    forall i, j | 0 <= i < j < |tail| ensures key(tail[i]) >= key(tail[j]) {
      assert tail[i] == s[i + 1] && tail[j] == s[j + 1];
    }
  }

  lemma MultisetCons<T>(h: T, rest: seq<T>, tail: seq<T>, x: T)
    requires multiset(rest) == multiset(tail) + multiset{x}
    ensures multiset([h] + rest) == multiset([h] + tail) + multiset{x}
  {
    assert multiset([h] + rest) == multiset{h} + multiset(rest);
    assert multiset([h] + tail) == multiset{h} + multiset(tail);
  }

  /** Puts `x` in front of the first element whose key is smaller than its own. */
  function InsertDescBy<T>(x: T, s: seq<T>, key: T -> int): (r: seq<T>)
    requires SortedDescBy(s, key)
    ensures SortedDescBy(r, key)
    ensures multiset(r) == multiset(s) + multiset{x}
    ensures |r| == |s| + 1
    ensures r[0] == x || (s != [] && r[0] == s[0])
  {
    if s == [] then [x]
    else if key(x) >= key(s[0]) then
      ConsSortedDesc(x, s, key);
      [x] + s
    else
      var tail := s[1..];
      SortedDescTail(s, key);
      var rest := InsertDescBy(x, tail, key);
      assert key(s[0]) >= key(rest[0]) by {
        if rest[0] != x { assert rest[0] == s[1]; }
      }
      ConsSortedDesc(s[0], rest, key);
      assert s == [s[0]] + tail;
      MultisetCons(s[0], rest, tail, x);
      [s[0]] + rest
  }

  /**
   * `[...s].sort((a, b) => key(b) - key(a))`: ordered by decreasing key; elements
   * with equal keys keep their relative order (`SortDescByStable`).
   */
  function SortDescBy<T>(s: seq<T>, key: T -> int): (r: seq<T>)
    ensures SortedDescBy(r, key)
    ensures multiset(r) == multiset(s)
    ensures |r| == |s|
  {
    if s == [] then []
    else
      assert s == [s[0]] + s[1..];
      InsertDescBy(s[0], SortDescBy(s[1..], key), key)
  }

  /** The elements of `s` whose key is `k`, in their order in `s`. */
  function WithKey<T>(s: seq<T>, key: T -> int, k: int): (r: seq<T>)
    ensures |r| <= |s|
    ensures forall i :: 0 <= i < |r| ==> key(r[i]) == k
  {
    if s == [] then [] else (if key(s[0]) == k then [s[0]] else []) + WithKey(s[1..], key, k)
  }

  /** Inserting `x` adds it to its own key's class, in front of the others with that key. */
  lemma {:induction false} InsertWithKey<T>(x: T, s: seq<T>, key: T -> int, k: int)
    requires SortedDescBy(s, key)
    ensures WithKey(InsertDescBy(x, s, key), key, k) == (if key(x) == k then [x] else []) + WithKey(s, key, k)
  {
    if s != [] {
      var r := InsertDescBy(x, s, key);
      if key(x) >= key(s[0]) {
        assert r == [x] + s;
        assert r[1..] == s;
      } else {
        SortedDescTail(s, key);
        InsertWithKey(x, s[1..], key, k);
        assert r[1..] == InsertDescBy(x, s[1..], key);
      }
    }
  }

  /** The sort is stable: for every key, the elements with that key keep their relative order. */
  lemma {:induction false} SortDescByStable<T>(s: seq<T>, key: T -> int, k: int)
    ensures WithKey(SortDescBy(s, key), key, k) == WithKey(s, key, k)
  {
    if s != [] {
      SortDescByStable(s[1..], key, k);
      InsertWithKey(s[0], SortDescBy(s[1..], key), key, k);
    }
  }

  /** In a sequence sorted by decreasing key, what is left after a prefix has no larger key than anything in the prefix. */
  lemma SortedPrefixTop<T>(sorted: seq<T>, key: T -> int, k: nat)
    requires SortedDescBy(sorted, key) && k <= |sorted|
    ensures SortedDescBy(sorted[..k], key)
    ensures multiset(sorted[..k]) <= multiset(sorted)
    ensures forall x :: x in multiset(sorted) - multiset(sorted[..k]) ==>
      forall j :: 0 <= j < k ==> key(x) <= key(sorted[j])
  {
    assert sorted == sorted[..k] + sorted[k..];
    assert multiset(sorted) == multiset(sorted[..k]) + multiset(sorted[k..]);
    forall x, j | x in multiset(sorted) - multiset(sorted[..k]) && 0 <= j < k
      ensures key(x) <= key(sorted[j])
    {
      assert x in multiset(sorted[k..]);
      var m :| 0 <= m < |sorted[k..]| && sorted[k..][m] == x;
      assert sorted[k + m] == x;
    }
  }

  /** `s` without the occurrences of `x`, the rest in order. */
  function RemoveValue<T(==)>(s: seq<T>, x: T): (r: seq<T>)
    ensures forall i :: 0 <= i < |r| ==> r[i] in s && r[i] != x
    ensures forall i :: 0 <= i < |s| && s[i] != x ==> s[i] in r
    ensures Distinct(s) ==> Distinct(r)
  {
    if s == [] then []
    else
      var rest := RemoveValue(s[1..], x);
      if s[0] == x then rest else [s[0]] + rest
  }
}
