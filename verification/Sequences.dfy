/**
 Filtering, mapping and stable sorting of sequences.

 `StableSort` stands for Rust's `sort_by_key(Reverse(key))` and for SQLite's `ORDER BY key DESC`
 over rows in rowid order. `StableSortIsUnique` shows that nothing depends on the algorithm chosen
 here: any descending arrangement that keeps equal keys in input order is this one.
 */
module Sequences {

  function Filter<T>(s: seq<T>, p: T -> bool): (r: seq<T>)
    ensures |r| <= |s|
    ensures forall x :: x in r ==> x in s && p(x)
    ensures forall x :: x in s && p(x) ==> x in r
  {
    if s == [] then []
    else if p(s[0]) then [s[0]] + Filter(s[1..], p)
    else Filter(s[1..], p)
  }

  function And<T>(p: T -> bool, q: T -> bool): T -> bool {
    x => p(x) && q(x)
  }

  function Map<T, U>(s: seq<T>, f: T -> U): (r: seq<U>)
    ensures |r| == |s|
    ensures forall i :: 0 <= i < |s| ==> r[i] == f(s[i])
  {
    seq(|s|, i requires 0 <= i < |s| => f(s[i]))
  }

  lemma FilterCons<T>(x: T, s: seq<T>, p: T -> bool)
    ensures Filter([x] + s, p) == if p(x) then [x] + Filter(s, p) else Filter(s, p)
  {
  }

  lemma {:induction false} FilterAppend<T>(a: seq<T>, b: seq<T>, p: T -> bool)
    ensures Filter(a + b, p) == Filter(a, p) + Filter(b, p)
  {
    if a == [] {
      assert a + b == b;
    } else {
      assert (a + b)[1..] == a[1..] + b;
      FilterAppend(a[1..], b, p);
    }
  }

  lemma {:induction false} FilterExtensional<T>(s: seq<T>, p: T -> bool, q: T -> bool)
    requires forall x :: x in s ==> p(x) == q(x)
    ensures Filter(s, p) == Filter(s, q)
  {
    if s != [] {
      FilterExtensional(s[1..], p, q);
    }
  }

  lemma {:induction false} FilterFilter<T>(s: seq<T>, p: T -> bool, q: T -> bool)
    ensures Filter(Filter(s, p), q) == Filter(s, And(p, q))
  {
    if s != [] {
      FilterFilter(s[1..], p, q);
      if p(s[0]) {
        FilterCons(s[0], Filter(s[1..], p), q);
      }
    }
  }

  lemma {:induction false} FilterAll<T>(s: seq<T>, p: T -> bool)
    requires forall x :: x in s ==> p(x)
    ensures Filter(s, p) == s
  {
    if s != [] {
      FilterAll(s[1..], p);
    }
  }

  lemma {:induction false} FilterNone<T>(s: seq<T>, p: T -> bool)
    requires forall x :: x in s ==> !p(x)
    ensures Filter(s, p) == []
  {
    if s != [] {
      FilterNone(s[1..], p);
    }
  }

  lemma {:induction false} FilterMap<T>(s: seq<T>, f: T -> T, p: T -> bool, q: T -> bool)
    requires forall x :: x in s ==> p(f(x)) == q(x)
    ensures Filter(Map(s, f), p) == Map(Filter(s, q), f)
  {
    if s != [] {
      FilterMap(s[1..], f, p, q);
      MapCons(s[0], s[1..], f);
      assert s == [s[0]] + s[1..];
      FilterCons(f(s[0]), Map(s[1..], f), p);
      if q(s[0]) {
        MapCons(s[0], Filter(s[1..], q), f);
      }
    }
  }

  lemma MapCons<T, U>(x: T, s: seq<T>, f: T -> U)
    ensures Map([x] + s, f) == [f(x)] + Map(s, f)
  {
  }

  // ---- stable descending sort ------------------------------------------------------------------

  ghost predicate Descending<T>(s: seq<T>, key: T -> int) {
    forall i, j :: 0 <= i < j < |s| ==> key(s[i]) >= key(s[j])
  }

  function KeyIs<T>(key: T -> int, k: int): T -> bool {
    x => key(x) == k
  }

  /** The elements whose key is `k`, in order: what a stable sort must not reorder. */
  function WithKey<T>(s: seq<T>, key: T -> int, k: int): seq<T> {
    Filter(s, KeyIs(key, k))
  }

  ghost predicate StableSortOf<T>(output: seq<T>, input: seq<T>, key: T -> int) {
    && Descending(output, key)
    && forall k :: WithKey(output, key, k) == WithKey(input, key, k)
  }

  lemma {:induction false} FilterDescending<T>(s: seq<T>, key: T -> int, p: T -> bool)
    requires Descending(s, key)
    ensures Descending(Filter(s, p), key)
  {
    if s != [] {
      FilterDescending(s[1..], key, p);
      forall x | x in Filter(s[1..], p) ensures key(x) <= key(s[0]) {
        assert x in s[1..];
      }
    }
  }

  /** What holds of a filtered sequence's order holds of the kept elements where they stand. */
  lemma {:induction false} FilterReflectsOrder<T>(s: seq<T>, key: T -> int, p: T -> bool, i: nat, j: nat)
    requires i < j < |s| && p(s[i]) && p(s[j])
    requires Descending(Filter(s, p), key)
    ensures key(s[i]) >= key(s[j])
  {
    var all, rest := Filter(s, p), Filter(s[1..], p);
    if i == 0 {
      assert s[j] == s[1..][j - 1];
      var m :| 0 <= m < |rest| && rest[m] == s[j];
      assert all[0] == s[0] && all[m + 1] == s[j];
    } else {
      assert s[1..][i - 1] == s[i] && s[1..][j - 1] == s[j];
      assert Descending(rest, key) by {
        assert p(s[0]) ==> rest == all[1..];
      }
      FilterReflectsOrder(s[1..], key, p, i - 1, j - 1);
    }
  }

  function Insert<T>(x: T, s: seq<T>, key: T -> int): seq<T> {
    if s == [] || key(x) >= key(s[0]) then [x] + s else [s[0]] + Insert(x, s[1..], key)
  }

  function StableSort<T>(s: seq<T>, key: T -> int): seq<T> {
    if s == [] then [] else Insert(s[0], StableSort(s[1..], key), key)
  }

  lemma {:induction false} InsertPermutes<T>(x: T, s: seq<T>, key: T -> int)
    ensures multiset(Insert(x, s, key)) == multiset{x} + multiset(s)
  {
    if s != [] && key(x) < key(s[0]) {
      InsertPermutes(x, s[1..], key);
      assert s == [s[0]] + s[1..];
    }
  }

  lemma {:induction false} SortPermutes<T>(s: seq<T>, key: T -> int)
    ensures multiset(StableSort(s, key)) == multiset(s)
  {
    if s != [] {
      SortPermutes(s[1..], key);
      InsertPermutes(s[0], StableSort(s[1..], key), key);
      assert s == [s[0]] + s[1..];
    }
  }

  lemma SortCons<T>(x: T, s: seq<T>, key: T -> int)
    ensures StableSort([x] + s, key) == Insert(x, StableSort(s, key), key)
  {
  }

  lemma {:induction false} InsertDescending<T>(x: T, s: seq<T>, key: T -> int)
    requires Descending(s, key)
    ensures Descending(Insert(x, s, key), key)
  {
    if s != [] && key(x) < key(s[0]) {
      InsertDescending(x, s[1..], key);
      InsertPermutes(x, s[1..], key);
      var t := Insert(x, s[1..], key);
      forall y | y in t ensures key(y) <= key(s[0]) {
        assert y in multiset(t);
        assert y == x || y in multiset(s[1..]);
      }
    }
  }

  lemma {:induction false} SortDescending<T>(s: seq<T>, key: T -> int)
    ensures Descending(StableSort(s, key), key)
  {
    if s != [] {
      SortDescending(s[1..], key);
      InsertDescending(s[0], StableSort(s[1..], key), key);
    }
  }

  /** Inserting and then filtering is filtering and then inserting. */
  lemma {:induction false} FilterInsert<T>(x: T, s: seq<T>, key: T -> int, p: T -> bool)
    requires Descending(s, key)
    ensures Filter(Insert(x, s, key), p)
         == if p(x) then Insert(x, Filter(s, p), key) else Filter(s, p)
  {
    if s == [] {
      assert Filter(s, p) == [];
    } else if key(x) >= key(s[0]) {
      FilterCons(x, s, p);
      InsertInFront(x, s, Filter(s, p), key);
    } else {
      var t := Insert(x, s[1..], key);
      FilterInsert(x, s[1..], key, p);
      FilterCons(s[0], t, p);
      if p(s[0]) {
        InsertPast(x, s[0], Filter(s[1..], p), key);
      }
    }
  }

  lemma InsertInFront<T>(x: T, s: seq<T>, r: seq<T>, key: T -> int)
    requires s != [] && Descending(s, key) && key(x) >= key(s[0])
    requires forall y :: y in r ==> y in s
    ensures Insert(x, r, key) == [x] + r
  {
    if r != [] {
      assert r[0] in r;
    }
  }

  lemma InsertPast<T>(x: T, y: T, s: seq<T>, key: T -> int)
    requires key(x) < key(y)
    ensures Insert(x, [y] + s, key) == [y] + Insert(x, s, key)
  {
  }

  /** A stable sort commutes with every filter. */
  lemma {:induction false} FilterSort<T>(s: seq<T>, key: T -> int, p: T -> bool)
    ensures Filter(StableSort(s, key), p) == StableSort(Filter(s, p), key)
  {
    if s != [] {
      FilterSort(s[1..], key, p);
      SortDescending(s[1..], key);
      FilterInsert(s[0], StableSort(s[1..], key), key, p);
      if p(s[0]) {
        SortCons(s[0], Filter(s[1..], p), key);
      }
    }
  }

  lemma {:induction false} SortConstant<T>(s: seq<T>, key: T -> int, k: int)
    requires forall x :: x in s ==> key(x) == k
    ensures StableSort(s, key) == s
  {
    if s != [] {
      SortConstant(s[1..], key, k);
    }
  }

  lemma SortIsStable<T>(s: seq<T>, key: T -> int)
    ensures StableSortOf(StableSort(s, key), s, key)
  {
    SortDescending(s, key);
    forall k ensures WithKey(StableSort(s, key), key, k) == WithKey(s, key, k) {
      FilterSort(s, key, KeyIs(key, k));
      SortConstant(WithKey(s, key, k), key, k);
    }
  }

  lemma SameMembers<T>(a: seq<T>, b: seq<T>, key: T -> int)
    requires forall k :: WithKey(a, key, k) == WithKey(b, key, k)
    ensures forall x :: x in a ==> x in b
    ensures a != [] ==> b != []
  {
    forall x | x in a ensures x in b {
      assert WithKey(a, key, key(x)) == WithKey(b, key, key(x));
    }
    assert a != [] ==> a[0] in b;
  }

  lemma {:induction false} StableSortIsUnique<T>(a: seq<T>, b: seq<T>, key: T -> int)
    requires Descending(a, key) && Descending(b, key)
    requires forall k :: WithKey(a, key, k) == WithKey(b, key, k)
    ensures a == b
  {
    SameMembers(a, b, key);
    SameMembers(b, a, key);
    if a != [] && b != [] {
      assert a[0] in WithKey(b, key, key(a[0]));
      assert b[0] in WithKey(a, key, key(b[0]));
      assert key(a[0]) == key(b[0]);
      assert WithKey(a, key, key(a[0]))[0] == a[0];
      assert WithKey(b, key, key(b[0]))[0] == b[0];
      forall k ensures WithKey(a[1..], key, k) == WithKey(b[1..], key, k) {
        assert WithKey(a, key, k) == WithKey(b, key, k);
        if k == key(a[0]) {
          assert WithKey(a, key, k)[1..] == WithKey(a[1..], key, k);
          assert WithKey(b, key, k)[1..] == WithKey(b[1..], key, k);
        } else {
          assert WithKey(a, key, k) == WithKey(a[1..], key, k);
          assert WithKey(b, key, k) == WithKey(b[1..], key, k);
        }
      }
      StableSortIsUnique(a[1..], b[1..], key);
    }
  }

  /** A map that keeps keys commutes with the sort. */
  lemma {:induction false} SortMap<T>(s: seq<T>, key: T -> int, f: T -> T)
    requires forall x :: x in s ==> key(f(x)) == key(x)
    ensures StableSort(Map(s, f), key) == Map(StableSort(s, key), f)
  {
    if s != [] {
      SortMap(s[1..], key, f);
      SortPermutes(s[1..], key);
      assert Map(s, f)[1..] == Map(s[1..], f);
      var t := StableSort(s[1..], key);
      forall x | x in t ensures key(f(x)) == key(x) {
        assert x in multiset(t);
        assert x in s[1..];
      }
      InsertMap(s[0], t, key, f);
    }
  }

  lemma {:induction false} InsertMap<T>(x: T, s: seq<T>, key: T -> int, f: T -> T)
    requires key(f(x)) == key(x)
    requires forall y :: y in s ==> key(f(y)) == key(y)
    ensures Insert(f(x), Map(s, f), key) == Map(Insert(x, s, key), f)
  {
    if s != [] && key(x) < key(s[0]) {
      assert s[0] in s;
      assert Map(s, f)[1..] == Map(s[1..], f);
      InsertMap(x, s[1..], key, f);
    }
  }

  /** Membership in a sort is membership in its input. */
  lemma SortMembers<T>(s: seq<T>, key: T -> int)
    ensures forall x :: x in StableSort(s, key) <==> x in s
    ensures |StableSort(s, key)| == |s|
  {
    var r := StableSort(s, key);
    SortPermutes(s, key);
    forall x ensures x in r <==> x in s {
      assert x in r <==> x in multiset(r);
      assert x in s <==> x in multiset(s);
    }
    assert |multiset(r)| == |r| && |multiset(s)| == |s|;
  }

  // ---- elements told apart by a tag ---------------------------------------------------------------

  ghost predicate DistinctBy<T, L>(s: seq<T>, tag: T -> L) {
    forall i, j :: 0 <= i < j < |s| ==> tag(s[i]) != tag(s[j])
  }

  lemma {:induction false} DistinctFilter<T, L>(s: seq<T>, tag: T -> L, p: T -> bool)
    requires DistinctBy(s, tag)
    ensures DistinctBy(Filter(s, p), tag)
  {
    if s != [] {
      DistinctFilter(s[1..], tag, p);
      assert forall x :: x in Filter(s[1..], p) ==> x in s[1..] && tag(x) != tag(s[0]);
    }
  }

  lemma {:induction false} DistinctInsert<T, L>(x: T, s: seq<T>, tag: T -> L, key: T -> int)
    requires DistinctBy(s, tag) && forall y :: y in s ==> tag(y) != tag(x)
    ensures DistinctBy(Insert(x, s, key), tag)
  {
    if s != [] && key(x) < key(s[0]) {
      DistinctInsert(x, s[1..], tag, key);
      var t := Insert(x, s[1..], key);
      InsertPermutes(x, s[1..], key);
      forall y | y in t ensures tag(y) != tag(s[0]) {
        assert y in multiset(t);
        assert y == x || y in s[1..];
      }
    }
  }

  lemma {:induction false} DistinctSort<T, L>(s: seq<T>, tag: T -> L, key: T -> int)
    requires DistinctBy(s, tag)
    ensures DistinctBy(StableSort(s, key), tag)
  {
    if s != [] {
      DistinctSort(s[1..], tag, key);
      SortPermutes(s[1..], key);
      forall y | y in StableSort(s[1..], key) ensures tag(y) != tag(s[0]) {
        assert y in multiset(StableSort(s[1..], key));
        assert y in s[1..];
      }
      DistinctInsert(s[0], StableSort(s[1..], key), tag, key);
    }
  }

  lemma DropHead<T>(a: seq<T>, b: seq<T>, k: nat)
    requires b != [] && k < |a| && a[k] == b[0] && multiset(a) == multiset(b)
    ensures multiset(a[..k] + a[k + 1..]) == multiset(b[1..])
  {
    var rest := a[..k] + a[k + 1..];
    assert a == a[..k] + [b[0]] + a[k + 1..];
    assert b == [b[0]] + b[1..];
    assert multiset(a) == multiset{b[0]} + multiset(rest);
    assert multiset(b) == multiset{b[0]} + multiset(b[1..]);
    assert multiset(rest) == multiset(a) - multiset{b[0]};
    assert multiset(b[1..]) == multiset(b) - multiset{b[0]};
  }

  lemma DistinctDrop<T, L>(a: seq<T>, k: nat, tag: T -> L)
    requires k < |a| && DistinctBy(a, tag)
    ensures var rest := a[..k] + a[k + 1..];
            DistinctBy(rest, tag) && forall y :: y in rest ==> tag(y) != tag(a[k])
  {
  }

  lemma DistinctCons<T, L>(x: T, s: seq<T>, tag: T -> L)
    requires DistinctBy(s, tag) && forall j :: 0 <= j < |s| ==> tag(x) != tag(s[j])
    ensures DistinctBy([x] + s, tag)
  {
  }

  /** Tags of a rearranged sequence are as distinct. */
  lemma {:induction false} DistinctPermuted<T, L>(a: seq<T>, b: seq<T>, tag: T -> L)
    requires DistinctBy(a, tag) && multiset(a) == multiset(b)
    ensures DistinctBy(b, tag)
  {
    if b != [] {
      assert b[0] in multiset(b);
      var k :| 0 <= k < |a| && a[k] == b[0];
      DropHead(a, b, k);
      DistinctDrop(a, k, tag);
      var rest := a[..k] + a[k + 1..];
      DistinctPermuted(rest, b[1..], tag);
      forall j | 0 <= j < |b| - 1 ensures tag(b[0]) != tag(b[1..][j]) {
        assert b[1..][j] in multiset(rest);
        assert b[1..][j] in rest;
      }
      assert b == [b[0]] + b[1..];
      DistinctCons(b[0], b[1..], tag);
    }
  }

  /** The first `k` elements, or all of them. */
  function Prefix<T>(s: seq<T>, k: nat): seq<T> {
    if k <= |s| then s[..k] else s
  }

  lemma PrefixCons<T>(s: seq<T>, k: nat)
    requires s != [] && k > 0
    ensures [s[0]] + Prefix(s[1..], k - 1) == Prefix(s, k)
  {
  }

  // ---- loops as folds -------------------------------------------------------------------------------

  /** The state after `n` steps, each told its number. */
  function Fold<S>(s: S, step: (S, nat) -> S, n: nat): S {
    if n == 0 then s else step(Fold(s, step, n - 1), n - 1)
  }

  lemma {:induction false} FoldKeeps<S(!new)>(s: S, step: (S, nat) -> S, inv: (S, nat) -> bool, n: nat)
    requires inv(s, 0)
    requires forall t, i: nat :: i < n && inv(t, i) ==> inv(step(t, i), i + 1)
    ensures inv(Fold(s, step, n), n)
  {
    if n > 0 {
      FoldKeeps(s, step, inv, n - 1);
    }
  }
}
