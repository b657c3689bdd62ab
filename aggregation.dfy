/**
 * The list operations every search path ends with: first-wins
 * de-duplication by an identity key, Python's stable `sorted(...,
 * reverse=True)` on an integer score, slicing `xs[:n]`, and list
 * comprehensions that keep the items satisfying a condition.
 */
module Aggregation {

  // ---------------------------------------------------------------------
  // Subsequences
  // ---------------------------------------------------------------------

  /** `idx` lists, in increasing order, positions of `xs` holding `r`. */
  ghost predicate Embeds<T>(idx: seq<int>, r: seq<T>, xs: seq<T>) {
    |idx| == |r| &&
    (forall k :: 0 <= k < |idx| ==> 0 <= idx[k] < |xs| && xs[idx[k]] == r[k]) &&
    (forall k, l :: 0 <= k < l < |idx| ==> idx[k] < idx[l])
  }

  /** `r` is `xs` with some items removed and the rest kept in order. */
  ghost predicate IsSubsequence<T>(r: seq<T>, xs: seq<T>) {
    exists idx :: Embeds(idx, r, xs)
  }

  /** Positions in a prefix of `xs` are positions in `xs`. */
  lemma EmbedsInPrefix<T>(idx: seq<int>, r: seq<T>, xs: seq<T>, n: nat)
    requires n <= |xs| && Embeds(idx, r, xs[..n])
    ensures Embeds(idx, r, xs)
    ensures forall k :: 0 <= k < |idx| ==> idx[k] < n
  {
    forall k | 0 <= k < |idx|
      ensures 0 <= idx[k] < n && xs[idx[k]] == r[k]
    {
      assert xs[..n][idx[k]] == r[k];
    }
  }

  /** Keeping position `n` after positions of `xs[..n]` extends the embedding. */
  lemma EmbedsSnoc<T>(idx: seq<int>, r: seq<T>, xs: seq<T>, n: nat)
    requires n < |xs| && Embeds(idx, r, xs[..n])
    ensures Embeds(idx + [n], r + [xs[n]], xs)
  {
    EmbedsInPrefix(idx, r, xs, n);
    var idx', r' := idx + [n], r + [xs[n]];
    forall k | 0 <= k < |idx'|
      ensures 0 <= idx'[k] < |xs| && xs[idx'[k]] == r'[k]
    {
      if k < |idx| {
        assert idx'[k] == idx[k] && r'[k] == r[k];
      }
    }
    forall k, l | 0 <= k < l < |idx'|
      ensures idx'[k] < idx'[l]
    {
      if l < |idx| {
        assert idx'[k] == idx[k] && idx'[l] == idx[l];
      } else {
        assert idx'[k] == idx[k];
      }
    }
  }

  // ---------------------------------------------------------------------
  // De-duplication
  // ---------------------------------------------------------------------

  /** The keys occurring in `xs`. */
  function KeySet<T, K(==)>(xs: seq<T>, key: T -> K): set<K>
    decreases |xs|
  {
    if xs == [] then {} else KeySet(xs[..|xs| - 1], key) + {key(xs[|xs| - 1])}
  }

  lemma {:induction false} KeySetMembers<T, K>(xs: seq<T>, key: T -> K, k: K)
    ensures k in KeySet(xs, key) <==> exists i :: 0 <= i < |xs| && key(xs[i]) == k
    decreases |xs|
  {
    if xs != [] {
      var init := xs[..|xs| - 1];
      KeySetMembers(init, key, k);
      if k in KeySet(init, key) {
        var i :| 0 <= i < |init| && key(init[i]) == k;
        assert key(xs[i]) == k;
      }
      if exists i :: 0 <= i < |xs| && key(xs[i]) == k {
        var i :| 0 <= i < |xs| && key(xs[i]) == k;
        if i < |init| {
          assert key(init[i]) == k;
        }
      }
    }
  }

  /** What first-wins de-duplication returns: each item whose key has not
      been seen earlier in the list. */
  function FirstOccurrences<T, K(==)>(xs: seq<T>, key: T -> K): seq<T>
    decreases |xs|
  {
    if xs == [] then []
    else
      var init := xs[..|xs| - 1];
      FirstOccurrences(init, key) + (if key(xs[|xs| - 1]) in KeySet(init, key) then [] else [xs[|xs| - 1]])
  }

  /** The loop `for r in results: if key(r) not in seen: seen.add(key(r));
      unique.append(r)`. */
  method Deduplicate<T, K(==)>(xs: seq<T>, key: T -> K) returns (unique: seq<T>)
    ensures unique == FirstOccurrences(xs, key)
  {
    var seen: set<K> := {};
    unique := [];
    var i := 0;
    while i < |xs|
      invariant 0 <= i <= |xs|
      invariant seen == KeySet(xs[..i], key)
      invariant unique == FirstOccurrences(xs[..i], key)
    {
      var k := key(xs[i]);
      assert xs[..i + 1][..i] == xs[..i];
      if k !in seen {
        seen := seen + {k};
        unique := unique + [xs[i]];
      }
      i := i + 1;
    }
    assert xs[..|xs|] == xs;
  }

  /** Two items: the second is dropped exactly when it repeats the first's key. */
  lemma FirstOccurrencesOfTwo<T, K>(a: T, b: T, key: T -> K)
    ensures FirstOccurrences([a, b], key) == if key(a) == key(b) then [a] else [a, b]
  {
    assert [a, b][..1] == [a];
    assert [a][..0] == [];
    assert KeySet([a], key) == {key(a)};
    assert FirstOccurrences([a], key) == [a];
  }

  /** Position `j` holds the first item of `xs` with its key. */
  ghost predicate FirstWithKey<T, K>(xs: seq<T>, key: T -> K, j: int)
    requires 0 <= j < |xs|
  {
    forall m :: 0 <= m < j ==> key(xs[m]) != key(xs[j])
  }

  /** De-duplication keeps exactly the first occurrences, in input order. */
  lemma {:induction false} DedupPositions<T, K>(xs: seq<T>, key: T -> K) returns (idx: seq<int>)
    ensures Embeds(idx, FirstOccurrences(xs, key), xs)
    ensures forall k :: 0 <= k < |idx| ==> FirstWithKey(xs, key, idx[k])
    ensures forall j :: 0 <= j < |xs| && FirstWithKey(xs, key, j) ==> j in idx
    decreases |xs|
  {
    if xs == [] {
      idx := [];
    } else {
      var n := |xs| - 1;
      var init := xs[..n];
      var last := xs[n];
      var prev := DedupPositions(init, key);
      var before := FirstOccurrences(init, key);
      assert xs == init + [last];
      forall j | 0 <= j < n
        ensures FirstWithKey(xs, key, j) == FirstWithKey(init, key, j)
      {
        assert forall m :: 0 <= m <= j ==> xs[m] == init[m];
      }
      KeySetMembers(init, key, key(last));
      if key(last) in KeySet(init, key) {
        var i :| 0 <= i < |init| && key(init[i]) == key(last);
        assert key(xs[i]) == key(xs[n]);
        assert FirstOccurrences(xs, key) == before;
        EmbedsInPrefix(prev, before, xs, n);
        idx := prev;
      } else {
        assert FirstWithKey(xs, key, n) by {
          forall m | 0 <= m < n ensures key(xs[m]) != key(xs[n]) {
            assert key(init[m]) != key(last);
          }
        }
        assert FirstOccurrences(xs, key) == before + [last];
        EmbedsSnoc(prev, before, xs, n);
        EmbedsInPrefix(prev, before, xs, n);
        idx := prev + [n];
      }
    }
  }

  /** The output of de-duplication is a subsequence of its input. */
  lemma DedupIsSubsequence<T, K>(xs: seq<T>, key: T -> K)
    ensures IsSubsequence(FirstOccurrences(xs, key), xs)
  {
    var idx := DedupPositions(xs, key);
  }

  /** Every input key survives de-duplication. */
  lemma {:induction false} DedupKeepsKeys<T, K>(xs: seq<T>, key: T -> K)
    ensures KeySet(FirstOccurrences(xs, key), key) == KeySet(xs, key)
    decreases |xs|
  {
    if xs != [] {
      var init := xs[..|xs| - 1];
      var last := xs[|xs| - 1];
      var r := FirstOccurrences(init, key);
      DedupKeepsKeys(init, key);
      assert KeySet(xs, key) == KeySet(init, key) + {key(last)};
      if key(last) !in KeySet(init, key) {
        assert FirstOccurrences(xs, key) == r + [last];
        assert (r + [last])[..|r|] == r;
        assert KeySet(r + [last], key) == KeySet(r, key) + {key(last)};
      } else {
        assert FirstOccurrences(xs, key) == r;
      }
    }
  }

  /** No two items of `s` share a key. */
  ghost predicate KeysDistinct<T, K>(s: seq<T>, key: T -> K) {
    forall i, j :: 0 <= i < j < |s| ==> key(s[i]) != key(s[j])
  }

  /** No two items of the output share a key. */
  lemma {:induction false} DedupKeysDistinct<T, K>(xs: seq<T>, key: T -> K)
    ensures KeysDistinct(FirstOccurrences(xs, key), key)
    decreases |xs|
  {
    if xs != [] {
      var init := xs[..|xs| - 1];
      var last := xs[|xs| - 1];
      var r := FirstOccurrences(init, key);
      DedupKeysDistinct(init, key);
      if key(last) !in KeySet(init, key) {
        DedupKeepsKeys(init, key);
        forall i | 0 <= i < |r|
          ensures key(r[i]) != key(last)
        {
          KeySetMembers(r, key, key(r[i]));
        }
      }
    }
  }

  /** An item is dropped only when an earlier item had its key. */
  lemma DedupDropsOnlyDuplicates<T, K>(xs: seq<T>, key: T -> K, j: int)
    requires 0 <= j < |xs| && FirstWithKey(xs, key, j)
    ensures xs[j] in FirstOccurrences(xs, key)
  {
    var idx := DedupPositions(xs, key);
    var k :| 0 <= k < |idx| && idx[k] == j;
  }

  /** Every item of the output comes from the input. */
  lemma DedupMembers<T, K>(xs: seq<T>, key: T -> K, x: T)
    requires x in FirstOccurrences(xs, key)
    ensures x in xs
  {
    var idx := DedupPositions(xs, key);
    var r := FirstOccurrences(xs, key);
    var k :| 0 <= k < |r| && r[k] == x;
    assert xs[idx[k]] == x;
  }

  // ---------------------------------------------------------------------
  // Stable descending sort
  // ---------------------------------------------------------------------

  ghost predicate SortedDesc<T>(s: seq<T>, score: T -> int) {
    forall i, j :: 0 <= i < j < |s| ==> score(s[i]) >= score(s[j])
  }

  /** The items of `s` whose score is `v`, in their order in `s`. */
  function WithScore<T>(s: seq<T>, score: T -> int, v: int): seq<T>
    decreases |s|
  {
    if s == [] then [] else (if score(s[0]) == v then [s[0]] else []) + WithScore(s[1..], score, v)
  }

  /** Places `x` after every item scoring at least as much, so equal scores
      keep their arrival order. */
  function Insert<T>(s: seq<T>, x: T, score: T -> int): seq<T>
    decreases |s|
  {
    if s == [] then [x]
    else if score(x) > score(s[0]) then [x] + s
    else [s[0]] + Insert(s[1..], x, score)
  }

  /** `sorted(xs, key=score, reverse=True)` */
  function SortDesc<T>(xs: seq<T>, score: T -> int): seq<T>
    decreases |xs|
  {
    if xs == [] then [] else Insert(SortDesc(xs[..|xs| - 1], score), xs[|xs| - 1], score)
  }

  lemma {:induction false} WithScoreAppend<T>(a: seq<T>, b: seq<T>, score: T -> int, v: int)
    ensures WithScore(a + b, score, v) == WithScore(a, score, v) + WithScore(b, score, v)
    decreases |a|
  {
    if a != [] {
      var head := if score(a[0]) == v then [a[0]] else [];
      assert (a + b)[0] == a[0];
      assert (a + b)[1..] == a[1..] + b;
      WithScoreAppend(a[1..], b, score, v);
      calc {
        WithScore(a + b, score, v);
        head + WithScore(a[1..] + b, score, v);
        head + (WithScore(a[1..], score, v) + WithScore(b, score, v));
        (head + WithScore(a[1..], score, v)) + WithScore(b, score, v);
      }
    } else {
      assert a + b == b;
    }
  }

  lemma {:induction false} WithScoreNone<T>(s: seq<T>, score: T -> int, v: int)
    requires forall i :: 0 <= i < |s| ==> score(s[i]) < v
    ensures WithScore(s, score, v) == []
    decreases |s|
  {
    if s != [] {
      WithScoreNone(s[1..], score, v);
    }
  }

  lemma {:induction false} InsertMultiset<T>(s: seq<T>, x: T, score: T -> int)
    ensures multiset(Insert(s, x, score)) == multiset(s) + multiset{x}
    decreases |s|
  {
    if s != [] && score(x) <= score(s[0]) {
      InsertMultiset(s[1..], x, score);
      assert s == [s[0]] + s[1..];
    }
  }

  lemma {:induction false} InsertSorted<T>(s: seq<T>, x: T, score: T -> int)
    requires SortedDesc(s, score)
    ensures SortedDesc(Insert(s, x, score), score)
    decreases |s|
  {
    if s != [] && score(x) <= score(s[0]) {
      var t := Insert(s[1..], x, score);
      var r := [s[0]] + t;
      InsertSorted(s[1..], x, score);
      InsertMultiset(s[1..], x, score);
      forall j | 0 < j < |r| ensures score(s[0]) >= score(r[j]) {
        assert r[j] == t[j - 1];
        assert r[j] in multiset(t);
        if r[j] != x {
          assert r[j] in multiset(s[1..]);
          var m :| 0 <= m < |s[1..]| && s[1..][m] == r[j];
          assert s[m + 1] == r[j];
        }
      }
    }
  }

  lemma {:induction false} InsertWithScore<T>(s: seq<T>, x: T, score: T -> int, v: int)
    requires SortedDesc(s, score)
    ensures WithScore(Insert(s, x, score), score, v) == WithScore(s, score, v) + WithScore([x], score, v)
    decreases |s|
  {
    assert [x][1..] == [];
    assert WithScore([x], score, v) == if score(x) == v then [x] else [];
    if s == [] {
    } else if score(x) > score(s[0]) {
      WithScoreAppend([x], s, score, v);
      if score(x) == v {
        forall i | 0 <= i < |s| ensures score(s[i]) < v {
          if i > 0 { assert score(s[0]) >= score(s[i]); }
        }
        WithScoreNone(s, score, v);
      }
    } else {
      var tail := s[1..];
      assert SortedDesc(tail, score) by {
        forall i, j | 0 <= i < j < |tail| ensures score(tail[i]) >= score(tail[j]) {
          assert tail[i] == s[i + 1] && tail[j] == s[j + 1];
        }
      }
      var t := Insert(tail, x, score);
      assert Insert(s, x, score) == [s[0]] + t;
      InsertWithScore(tail, x, score, v);
      assert s == [s[0]] + tail;
      WithScoreAppend([s[0]], t, score, v);
      WithScoreAppend([s[0]], tail, score, v);
    }
  }

  /** The sort is ordered, a permutation, and stable: the items with any one
      score appear in the order they had in the input. */
  lemma {:induction false} SortDescCorrect<T>(xs: seq<T>, score: T -> int)
    ensures var r := SortDesc(xs, score);
      SortedDesc(r, score) && multiset(r) == multiset(xs) &&
      forall v :: WithScore(r, score, v) == WithScore(xs, score, v)
    decreases |xs|
  {
    if xs != [] {
      var init := xs[..|xs| - 1];
      var last := xs[|xs| - 1];
      SortDescCorrect(init, score);
      InsertSorted(SortDesc(init, score), last, score);
      InsertMultiset(SortDesc(init, score), last, score);
      assert init + [last] == xs;
      forall v ensures WithScore(SortDesc(xs, score), score, v) == WithScore(xs, score, v) {
        InsertWithScore(SortDesc(init, score), last, score, v);
        WithScoreAppend(init, [last], score, v);
      }
    }
  }

  /** Putting an item in front of items with other keys keeps the keys distinct. */
  lemma ConsKeysDistinct<T, K>(h: T, t: seq<T>, key: T -> K)
    requires KeysDistinct(t, key) && forall z :: z in t ==> key(h) != key(z)
    ensures KeysDistinct([h] + t, key)
  {
    var r := [h] + t;
    forall i, j | 0 <= i < j < |r| ensures key(r[i]) != key(r[j]) {
      assert r[j] == t[j - 1];
      if i > 0 {
        assert r[i] == t[i - 1];
      }
    }
  }

  /** Inserting an item whose key no item of `s` has keeps the keys distinct. */
  lemma {:induction false} InsertKeysDistinct<T, K>(s: seq<T>, x: T, score: T -> int, key: T -> K)
    requires KeysDistinct(s, key) && forall y :: y in s ==> key(y) != key(x)
    ensures KeysDistinct(Insert(s, x, score), key)
    decreases |s|
  {
    if s == [] || score(x) > score(s[0]) {
      ConsKeysDistinct(x, s, key);
    } else {
      var tail := s[1..];
      assert forall y :: y in tail ==> y in s;
      assert KeysDistinct(tail, key);
      InsertKeysDistinct(tail, x, score, key);
      InsertMultiset(tail, x, score);
      forall z | z in Insert(tail, x, score)
        ensures key(s[0]) != key(z)
      {
        assert z in multiset(tail) + multiset{x};
        if z in tail {
          var j :| 0 <= j < |tail| && tail[j] == z;
          assert s[j + 1] == z;
        }
      }
      ConsKeysDistinct(s[0], Insert(tail, x, score), key);
    }
  }

  /** Sorting keeps the keys distinct. */
  lemma {:induction false} SortDescKeysDistinct<T, K>(xs: seq<T>, score: T -> int, key: T -> K)
    requires KeysDistinct(xs, key)
    ensures KeysDistinct(SortDesc(xs, score), key)
    decreases |xs|
  {
    if xs != [] {
      var init := xs[..|xs| - 1];
      var last := xs[|xs| - 1];
      SortDescKeysDistinct(init, score, key);
      SortDescCorrect(init, score);
      forall y | y in SortDesc(init, score)
        ensures key(y) != key(last)
      {
        assert y in multiset(init);
        var p :| 0 <= p < |init| && init[p] == y;
        assert xs[p] == y;
      }
      InsertKeysDistinct(SortDesc(init, score), last, score, key);
    }
  }

  /** The items with one score in a prefix are a prefix of those in the whole. */
  lemma WithScorePrefix<T>(s: seq<T>, k: nat, score: T -> int, v: int)
    requires k <= |s|
    ensures WithScore(s[..k], score, v) <= WithScore(s, score, v)
  {
    assert s[..k] + s[k..] == s;
    WithScoreAppend(s[..k], s[k..], score, v);
  }

  /** In a sequence sorted by descending score, an item outside the first `k`
      scores no more than any item among them. */
  lemma PrefixOutranks<T>(s: seq<T>, score: T -> int, k: nat, x: T, y: T)
    requires SortedDesc(s, score) && k <= |s|
    requires x in s && x !in s[..k] && y in s[..k]
    ensures score(y) >= score(x)
  {
    var p :| 0 <= p < |s| && s[p] == x;
    var q :| 0 <= q < k && s[..k][q] == y;
    assert p >= k by {
      assert forall i :: 0 <= i < k ==> s[..k][i] == s[i];
    }
    assert s[q] == y;
  }

  /** `sorted(xs, key=score, reverse=True)[:n]` for items with distinct keys:
      ordered, drawn from `xs` with distinct keys, stable among equal scores,
      and no item left out scores more than an item kept. */
  lemma TopBySortedPrefix<T, K>(xs: seq<T>, score: T -> int, key: T -> K, n: int)
    requires KeysDistinct(xs, key)
    ensures SortedDesc(Take(SortDesc(xs, score), n), score)
    ensures multiset(Take(SortDesc(xs, score), n)) <= multiset(xs)
    ensures KeysDistinct(Take(SortDesc(xs, score), n), key)
    ensures forall v :: WithScore(Take(SortDesc(xs, score), n), score, v) <= WithScore(xs, score, v)
    ensures forall x, y :: x in xs && x !in Take(SortDesc(xs, score), n) && y in Take(SortDesc(xs, score), n) ==>
      score(y) >= score(x)
  {
    var sorted := SortDesc(xs, score);
    var r := Take(sorted, n);
    var k := |r|;
    SortDescCorrect(xs, score);
    SortDescKeysDistinct(xs, score, key);
    PrefixFacts(sorted, k, score, key);
    forall x, y | x in xs && x !in r && y in r
      ensures score(y) >= score(x)
    {
      assert x in multiset(sorted);
      PrefixOutranks(sorted, score, k, x, y);
    }
  }

  /** A prefix of a sequence: its items are among the sequence's, sortedness,
      distinct keys and the order of each score's items carry over. */
  lemma PrefixFacts<T, K>(s: seq<T>, k: nat, score: T -> int, key: T -> K)
    requires k <= |s|
    ensures multiset(s[..k]) <= multiset(s)
    ensures SortedDesc(s, score) ==> SortedDesc(s[..k], score)
    ensures KeysDistinct(s, key) ==> KeysDistinct(s[..k], key)
    ensures forall v :: WithScore(s[..k], score, v) <= WithScore(s, score, v)
  {
    assert s == s[..k] + s[k..];
    forall v ensures WithScore(s[..k], score, v) <= WithScore(s, score, v) {
      WithScorePrefix(s, k, score, v);
    }
  }

  // ---------------------------------------------------------------------
  // Slicing and filtering
  // ---------------------------------------------------------------------

  /** The end position CPython uses for `xs[:n]` on a list of length `len`. */
  function SliceEnd(len: nat, n: int): (e: nat)
    ensures e <= len
  {
    if n < 0 then (if len + n < 0 then 0 else len + n)
    else if n > len then len
    else n
  }

  /** `xs[:n]` */
  function Take<T>(xs: seq<T>, n: int): (r: seq<T>)
    ensures |r| <= |xs| && r == xs[..|r|]
    ensures n >= 0 ==> |r| == if n < |xs| then n else |xs|
    ensures n < 0 ==> |r| == if |xs| + n < 0 then 0 else |xs| + n
  {
    xs[..SliceEnd(|xs|, n)]
  }

  /** `[x for x in xs if keep(x)]` */
  function KeepWhere<T(!new)>(xs: seq<T>, keep: T -> bool): (r: seq<T>)
    ensures |r| <= |xs|
    decreases |xs|
  {
    if xs == [] then []
    else
      assert xs == xs[..|xs| - 1] + [xs[|xs| - 1]];
      KeepWhere(xs[..|xs| - 1], keep) + (if keep(xs[|xs| - 1]) then [xs[|xs| - 1]] else [])
  }

  /** The comprehension keeps the surviving items in their original order. */
  lemma {:induction false} KeepWherePositions<T(!new)>(xs: seq<T>, keep: T -> bool) returns (idx: seq<int>)
    ensures Embeds(idx, KeepWhere(xs, keep), xs)
    ensures forall j :: 0 <= j < |xs| && keep(xs[j]) ==> j in idx
    decreases |xs|
  {
    if xs == [] {
      idx := [];
    } else {
      var n := |xs| - 1;
      var before := KeepWhere(xs[..n], keep);
      var prev := KeepWherePositions(xs[..n], keep);
      EmbedsInPrefix(prev, before, xs, n);
      forall j | 0 <= j < n && keep(xs[j])
        ensures j in prev
      {
        assert xs[..n][j] == xs[j];
      }
      if keep(xs[n]) {
        assert KeepWhere(xs, keep) == before + [xs[n]];
        EmbedsSnoc(prev, before, xs, n);
        idx := prev + [n];
      } else {
        assert KeepWhere(xs, keep) == before;
        idx := prev;
      }
    }
  }

  /** The comprehension keeps exactly the items satisfying the condition. */
  lemma {:induction false} KeepWhereMembers<T(!new)>(xs: seq<T>, keep: T -> bool)
    ensures forall x :: x in KeepWhere(xs, keep) <==> x in xs && keep(x)
    decreases |xs|
  {
    if xs != [] {
      var n := |xs| - 1;
      KeepWhereMembers(xs[..n], keep);
      assert xs == xs[..n] + [xs[n]];
    }
  }

  lemma KeepWhereIsSubsequence<T(!new)>(xs: seq<T>, keep: T -> bool)
    ensures IsSubsequence(KeepWhere(xs, keep), xs)
  {
    var idx := KeepWherePositions(xs, keep);
  }
}
