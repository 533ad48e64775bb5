/** Python's `sorted(xs, key=...)` on string keys: a stable sort under the
    code-point lexicographic order Python uses to compare `str` values. */
module Sorting {

  /** `a < b` on Python strings. */
  predicate Less(a: string, b: string) {
    if |a| == 0 then |b| > 0
    else if |b| == 0 then false
    else if a[0] != b[0] then a[0] < b[0]
    else Less(a[1..], b[1..])
  }

  lemma {:induction false} LessIrreflexive(a: string)
    ensures !Less(a, a)
  {
    if |a| > 0 {
      LessIrreflexive(a[1..]);
    }
  }

  lemma {:induction false} LessAsymmetric(a: string, b: string)
    ensures Less(a, b) ==> !Less(b, a)
  {
    if |a| > 0 && |b| > 0 && a[0] == b[0] {
      LessAsymmetric(a[1..], b[1..]);
    }
  }

  lemma {:induction false} LessTransitive(a: string, b: string, c: string)
    ensures Less(a, b) && Less(b, c) ==> Less(a, c)
  {
    if |a| > 0 && |b| > 0 && |c| > 0 && a[0] == b[0] && b[0] == c[0] {
      LessTransitive(a[1..], b[1..], c[1..]);
    }
  }

  /** Any two different strings are ordered one way or the other. */
  lemma {:induction false} LessTotal(a: string, b: string)
    ensures a == b || Less(a, b) || Less(b, a)
  {
    if |a| > 0 && |b| > 0 && a[0] == b[0] {
      LessTotal(a[1..], b[1..]);
      if a[1..] == b[1..] {
        assert a == [a[0]] + a[1..] && b == [b[0]] + b[1..];
      }
    }
  }

  predicate SortedBy<T(!new)>(s: seq<T>, key: T -> string) {
    forall i, j :: 0 <= i < j < |s| ==> !Less(key(s[j]), key(s[i]))
  }

  /** Sorted with no two equal keys. */
  predicate StrictlySortedBy<T(!new)>(s: seq<T>, key: T -> string) {
    forall i, j :: 0 <= i < j < |s| ==> Less(key(s[i]), key(s[j]))
  }

  /** No two entries share a key. */
  predicate DistinctKeys<T(!new)>(s: seq<T>, key: T -> string) {
    forall i, j :: 0 <= i < j < |s| ==> key(s[i]) != key(s[j])
  }

  /** `x` placed after every entry whose key is not greater than its own. */
  function Insert<T(!new)>(s: seq<T>, x: T, key: T -> string): (r: seq<T>)
    ensures |r| == |s| + 1
    ensures forall y :: y in r <==> y in s || y == x
  {
    if s == [] then [x]
    else if !Less(key(x), key(s[|s| - 1])) then s + [x]
    else Insert(s[..|s| - 1], x, key) + [s[|s| - 1]]
  }

  /** `sorted(xs, key=key)`. */
  function SortBy<T(!new)>(xs: seq<T>, key: T -> string): (r: seq<T>)
    ensures |r| == |xs|
    ensures forall y :: y in r <==> y in xs
  {
    if xs == [] then [] else Insert(SortBy(xs[..|xs| - 1], key), xs[|xs| - 1], key)
  }

  lemma {:induction false} InsertSorted<T(!new)>(s: seq<T>, x: T, key: T -> string)
    requires SortedBy(s, key)
    ensures SortedBy(Insert(s, x, key), key)
  {
    if s != [] && Less(key(x), key(s[|s| - 1])) {
      var init, last := s[..|s| - 1], s[|s| - 1];
      InsertSorted(init, x, key);
      var r := Insert(init, x, key);
      forall y | y in r ensures !Less(key(last), key(y)) {
        if y == x {
          LessAsymmetric(key(x), key(last));
        } else {
          var i :| 0 <= i < |init| && init[i] == y;
          assert s[i] == y;
        }
      }
      assert r + [last] == Insert(s, x, key);
      forall i, j | 0 <= i < j < |r| + 1 ensures !Less(key((r + [last])[j]), key((r + [last])[i])) {
        if j == |r| {
          assert (r + [last])[i] in r;
        }
      }
    }
    if s != [] && !Less(key(x), key(s[|s| - 1])) {
      forall i, j | 0 <= i < j < |s| + 1 ensures !Less(key((s + [x])[j]), key((s + [x])[i])) {
        if j == |s| && i < |s| - 1 {
          LessTotal(key(s[i]), key(s[|s| - 1]));
          LessTransitive(key(x), key(s[i]), key(s[|s| - 1]));
          LessAsymmetric(key(s[i]), key(s[|s| - 1]));
        }
      }
    }
  }

  /** `sorted` returns its input in key order. */
  lemma {:induction false} SortBySorted<T(!new)>(xs: seq<T>, key: T -> string)
    ensures SortedBy(SortBy(xs, key), key)
  {
    if xs != [] {
      SortBySorted(xs[..|xs| - 1], key);
      InsertSorted(SortBy(xs[..|xs| - 1], key), xs[|xs| - 1], key);
    }
  }

  /** `sorted` returns a permutation of its input. */
  lemma {:induction false} SortByPermutes<T(!new)>(xs: seq<T>, key: T -> string)
    ensures multiset(SortBy(xs, key)) == multiset(xs)
  {
    if xs != [] {
      var init := xs[..|xs| - 1];
      SortByPermutes(init, key);
      InsertPermutes(SortBy(init, key), xs[|xs| - 1], key);
      assert xs == init + [xs[|xs| - 1]];
    }
  }

  lemma {:induction false} InsertPermutes<T(!new)>(s: seq<T>, x: T, key: T -> string)
    ensures multiset(Insert(s, x, key)) == multiset(s) + multiset{x}
  {
    if s != [] && Less(key(x), key(s[|s| - 1])) {
      InsertPermutes(s[..|s| - 1], x, key);
      assert s == s[..|s| - 1] + [s[|s| - 1]];
    }
  }

  /** With distinct keys, sorting leaves no two entries with equal keys. */
  lemma SortByStrict<T(!new)>(xs: seq<T>, key: T -> string)
    requires DistinctKeys(xs, key)
    ensures StrictlySortedBy(SortBy(xs, key), key)
  {
    var r := SortBy(xs, key);
    SortBySorted(xs, key);
    DistinctKeysSorted(xs, key);
    forall i, j | 0 <= i < j < |r| ensures Less(key(r[i]), key(r[j])) {
      LessTotal(key(r[i]), key(r[j]));
    }
  }

  lemma {:induction false} DistinctKeysSorted<T(!new)>(xs: seq<T>, key: T -> string)
    requires DistinctKeys(xs, key)
    ensures DistinctKeys(SortBy(xs, key), key)
  {
    if xs != [] {
      var init, last := xs[..|xs| - 1], xs[|xs| - 1];
      assert DistinctKeys(init, key);
      DistinctKeysSorted(init, key);
      forall y | y in SortBy(init, key) ensures key(y) != key(last) {
        var i :| 0 <= i < |init| && init[i] == y;
        assert xs[i] == y;
      }
      InsertDistinct(SortBy(init, key), last, key);
    }
  }

  lemma {:induction false} InsertDistinct<T(!new)>(s: seq<T>, x: T, key: T -> string)
    requires DistinctKeys(s, key) && forall y <- s :: key(y) != key(x)
    ensures DistinctKeys(Insert(s, x, key), key)
  {
    if s != [] && Less(key(x), key(s[|s| - 1])) {
      var init, last := s[..|s| - 1], s[|s| - 1];
      assert forall y :: y in init ==> y in s;
      InsertDistinct(init, x, key);
      var r := Insert(init, x, key);
      forall y | y in r ensures key(y) != key(last) {
        if y != x {
          var i :| 0 <= i < |init| && init[i] == y;
          assert s[i] == y;
        } else {
          assert last in s;
        }
      }
      forall i, j | 0 <= i < j < |r| + 1 ensures key((r + [last])[i]) != key((r + [last])[j]) {
        if j == |r| {
          assert (r + [last])[i] in r;
        }
      }
    } else if s != [] {
      forall i, j | 0 <= i < j < |s| + 1 ensures key((s + [x])[i]) != key((s + [x])[j]) {
        if j == |s| {
          assert s[i] in s;
        }
      }
    }
  }

  /** Two strictly sorted sequences holding the same entries are equal. */
  lemma {:induction false} StrictlySortedUnique<T(!new)>(a: seq<T>, b: seq<T>, key: T -> string)
    requires StrictlySortedBy(a, key) && StrictlySortedBy(b, key)
    requires forall y :: y in a <==> y in b
    ensures a == b
  {
    if a != [] {
      assert a[0] in b;
    }
    if b != [] {
      assert b[0] in a;
    }
    if a != [] && b != [] {
      var j :| 0 <= j < |a| && a[j] == b[0];
      var k :| 0 <= k < |b| && b[k] == a[0];
      if j > 0 && k > 0 {
        LessAsymmetric(key(a[0]), key(b[0]));
      }
      if j > 0 && k == 0 {
        LessIrreflexive(key(a[0]));
      }
      if j == 0 && k > 0 {
        LessIrreflexive(key(b[0]));
      }
      assert a[0] == b[0];
      forall y ensures y in a[1..] <==> y in b[1..] {
        if y in a[1..] {
          var i :| 1 <= i < |a| && a[i] == y;
          if y == a[0] { LessIrreflexive(key(y)); }
        }
        if y in b[1..] {
          var i :| 1 <= i < |b| && b[i] == y;
          if y == b[0] { LessIrreflexive(key(y)); }
        }
        assert y in a <==> y == a[0] || y in a[1..];
        assert y in b <==> y == b[0] || y in b[1..];
      }
      StrictlySortedUnique(a[1..], b[1..], key);
      assert a == [a[0]] + a[1..] && b == [b[0]] + b[1..];
    }
  }

  /** For inputs with distinct keys, the sorted order does not depend on the
      input order. */
  lemma SortByOrderFree<T(!new)>(xs: seq<T>, ys: seq<T>, key: T -> string)
    requires DistinctKeys(xs, key) && DistinctKeys(ys, key)
    requires forall y :: y in xs <==> y in ys
    ensures SortBy(xs, key) == SortBy(ys, key)
  {
    SortByStrict(xs, key);
    SortByStrict(ys, key);
    StrictlySortedUnique(SortBy(xs, key), SortBy(ys, key), key);
  }

  // ----- Stability -----

  /** The entries of `s` whose key is `k`, in their order in `s`. */
  function WithKey<T(!new)>(s: seq<T>, key: T -> string, k: string): (r: seq<T>)
    ensures forall y :: y in r <==> y in s && key(y) == k
  {
    if s == [] then []
    else WithKey(s[..|s| - 1], key, k) + (if key(s[|s| - 1]) == k then [s[|s| - 1]] else [])
  }

  lemma {:induction false} WithKeyAppend<T(!new)>(a: seq<T>, b: seq<T>, key: T -> string, k: string)
    ensures WithKey(a + b, key, k) == WithKey(a, key, k) + WithKey(b, key, k)
  {
    if b == [] {
      assert a + b == a;
    } else {
      var n := |b| - 1;
      assert (a + b)[..|a + b| - 1] == a + b[..n];
      assert (a + b)[|a + b| - 1] == b[n];
      WithKeyAppend(a, b[..n], key, k);
    }
  }

  lemma WithKeyOne<T(!new)>(x: T, key: T -> string, k: string)
    ensures WithKey([x], key, k) == if key(x) == k then [x] else []
  {
    assert [x][..0] == [];
  }

  /** Moving `x` in front of an entry with another key keeps each key's entries in order. */
  lemma InsertStableStep<T(!new)>(init: seq<T>, last: T, x: T, key: T -> string, k: string)
    requires key(x) != key(last)
    requires WithKey(Insert(init, x, key), key, k) == WithKey(init, key, k) + WithKey([x], key, k)
    ensures WithKey(Insert(init, x, key) + [last], key, k) == WithKey(init + [last], key, k) + WithKey([x], key, k)
  {
    var a, b := WithKey(Insert(init, x, key), key, k), WithKey(init, key, k);
    WithKeyAppend(Insert(init, x, key), [last], key, k);
    WithKeyAppend(init, [last], key, k);
    WithKeyOne(x, key, k);
    WithKeyOne(last, key, k);
    if key(x) == k {
      assert WithKey([last], key, k) == [];
      assert a + [] == a && b + [] == b;
    } else {
      assert WithKey([x], key, k) == [];
      assert a == b + [] == b;
    }
  }

  /** Inserting `x` adds it after the entries that share its key. */
  lemma {:induction false} InsertStable<T(!new)>(s: seq<T>, x: T, key: T -> string, k: string)
    ensures WithKey(Insert(s, x, key), key, k) == WithKey(s, key, k) + WithKey([x], key, k)
  {
    if s == [] {
      WithKeyAppend([], [x], key, k);
      assert [] + [x] == [x];
    } else {
      var n := |s| - 1;
      var init, last := s[..n], s[n];
      assert init + [last] == s;
      if !Less(key(x), key(last)) {
        WithKeyAppend(s, [x], key, k);
      } else {
        LessIrreflexive(key(x));
        InsertStable(init, x, key, k);
        InsertStableStep(init, last, x, key, k);
      }
    }
  }

  /** `sorted` is stable: the entries that share a key keep their input order. */
  lemma {:induction false} SortByStable<T(!new)>(xs: seq<T>, key: T -> string, k: string)
    ensures WithKey(SortBy(xs, key), key, k) == WithKey(xs, key, k)
  {
    if xs != [] {
      var n := |xs| - 1;
      var front, last := xs[..n], xs[n];
      assert front + [last] == xs;
      SortByStable(front, key, k);
      InsertStable(SortBy(front, key), last, key, k);
      WithKeyAppend(front, [last], key, k);
    }
  }

  /** Sorting a list that is already sorted leaves it as it is. */
  lemma {:induction false} SortBySortedSelf<T(!new)>(s: seq<T>, key: T -> string)
    requires SortedBy(s, key)
    ensures SortBy(s, key) == s
  {
    if s != [] {
      var n := |s| - 1;
      assert SortedBy(s[..n], key);
      SortBySortedSelf(s[..n], key);
      if n > 0 {
        assert !Less(key(s[n]), key(s[n - 1]));
      }
      assert s[..n] + [s[n]] == s;
    }
  }

  /** `sorted(sorted(xs))` is `sorted(xs)`. */
  lemma SortByIdempotent<T(!new)>(xs: seq<T>, key: T -> string)
    ensures SortBy(SortBy(xs, key), key) == SortBy(xs, key)
  {
    SortBySorted(xs, key);
    SortBySortedSelf(SortBy(xs, key), key);
  }

  // ----- Rewriting entries without changing their keys -----

  /** `f` applied to each entry. */
  function Apply<T>(f: T -> T, s: seq<T>): (r: seq<T>)
    ensures |r| == |s|
    ensures forall i :: 0 <= i < |s| ==> r[i] == f(s[i])
  {
    seq(|s|, i requires 0 <= i < |s| => f(s[i]))
  }

  lemma {:induction false} InsertApply<T(!new)>(s: seq<T>, x: T, key: T -> string, f: T -> T)
    requires forall y :: key(f(y)) == key(y)
    ensures Insert(Apply(f, s), f(x), key) == Apply(f, Insert(s, x, key))
  {
    if s == [] {
      assert Apply(f, [x]) == [f(x)];
    } else {
      var n := |s| - 1;
      assert Apply(f, s)[..n] == Apply(f, s[..n]);
      assert Apply(f, s)[n] == f(s[n]);
      if Less(key(x), key(s[n])) {
        InsertApply(s[..n], x, key, f);
        assert Apply(f, Insert(s[..n], x, key) + [s[n]]) == Apply(f, Insert(s[..n], x, key)) + [f(s[n])];
      } else {
        assert Apply(f, s + [x]) == Apply(f, s) + [f(x)];
      }
    }
  }

  /** Rewriting entries without changing their keys commutes with sorting. */
  lemma {:induction false} SortByApply<T(!new)>(xs: seq<T>, key: T -> string, f: T -> T)
    requires forall y :: key(f(y)) == key(y)
    ensures SortBy(Apply(f, xs), key) == Apply(f, SortBy(xs, key))
  {
    if xs != [] {
      var n := |xs| - 1;
      assert Apply(f, xs)[..n] == Apply(f, xs[..n]);
      assert Apply(f, xs)[n] == f(xs[n]);
      SortByApply(xs[..n], key, f);
      InsertApply(SortBy(xs[..n], key), xs[n], key, f);
    }
  }
}
