/** Facts about ordered collections used by the fail-fast scans of the model:
    pairwise distinctness, the first repeated element, the first failing check. */
module Seqs {
  import opened Wrappers

  predicate Distinct<T(==)>(s: seq<T>) {
    forall i, j :: 0 <= i < j < |s| ==> s[i] != s[j]
  }

  /** `j` is the first position whose element already occurred before it. */
  predicate IsFirstRepeat<T(==)>(s: seq<T>, j: nat) {
    j < |s| && s[j] in s[..j] && Distinct(s[..j])
  }

  /** The first position at which a scan that remembers what it has seen stops. */
  function FirstRepeat<T(==)>(s: seq<T>): (r: Option<nat>)
    ensures r.None? <==> Distinct(s)
    ensures r.Some? ==> IsFirstRepeat(s, r.value)
  {
    if |s| == 0 then None
    else
      var init := s[..|s| - 1];
      match FirstRepeat(init)
      case Some(j) =>
        assert s[..j] == init[..j];
        Some(j)
      case None =>
        if s[|s| - 1] in init then
          assert s[..|s| - 1] == init;
          Some(|s| - 1)
        else
          assert forall i :: 0 <= i < |s| - 1 ==> s[i] == init[i];
          None
  }

  /** There is at most one first repeat, so a scan can stop only at one place. */
  lemma FirstRepeatUnique<T>(s: seq<T>, i: nat, j: nat)
    requires IsFirstRepeat(s, i) && IsFirstRepeat(s, j)
    ensures i == j
  {
  }

  /** A scan that stops at the first repeat stops at `i` once `i` is a first repeat. */
  lemma FirstRepeatIs<T>(s: seq<T>, i: nat)
    requires IsFirstRepeat(s, i)
    ensures FirstRepeat(s) == Some(i)
  {
    FirstRepeatUnique(s, i, FirstRepeat(s).value);
  }

  /** A repeat-free prefix of length `i` pushes the first repeat to `i` or later. */
  lemma FirstRepeatAfter<T>(s: seq<T>, i: nat)
    requires i <= |s| && Distinct(s[..i])
    ensures FirstRepeat(s).None? || FirstRepeat(s).value >= i
  {
  }

  /** The first position holding `x`. */
  function IndexOf<T(==)>(s: seq<T>, x: T): (i: nat)
    requires x in s
    ensures i < |s| && s[i] == x && x !in s[..i]
  {
    if s[0] == x then 0
    else
      var i := 1 + IndexOf(s[1..], x);
      assert s[..i] == [s[0]] + s[1..][..i - 1];
      i
  }

  /** Runs `check` on every element in order and reports the first failure. */
  function FirstFailure<T, E>(xs: seq<T>, check: T -> Outcome<E>): (r: Outcome<E>)
    ensures r.Pass? <==> forall i :: 0 <= i < |xs| ==> check(xs[i]).Pass?
    ensures r.Fail? ==>
      exists i :: 0 <= i < |xs| && r == check(xs[i]) && forall k :: 0 <= k < i ==> check(xs[k]).Pass?
  {
    if xs == [] then Pass
    else if check(xs[0]).Fail? then check(xs[0])
    else
      var r := FirstFailure(xs[1..], check);
      assert forall i :: 1 <= i < |xs| ==> xs[i] == xs[1..][i - 1];
      r
  }

  /** When every element before `i` passes and `xs[i]` fails, the scan reports `xs[i]`. */
  lemma {:induction false} FirstFailureAt<T, E>(xs: seq<T>, check: T -> Outcome<E>, i: nat)
    requires i < |xs| && check(xs[i]).Fail?
    requires forall k :: 0 <= k < i ==> check(xs[k]).Pass?
    ensures FirstFailure(xs, check) == check(xs[i])
  {
    if i > 0 {
      FirstFailureAt(xs[1..], check, i - 1);
    }
  }

  /** A property every failure of `check` has, the scan's failure has too. */
  lemma FirstFailureWithin<T, E>(xs: seq<T>, check: T -> Outcome<E>, p: E -> bool)
    requires forall x :: check(x).Fail? ==> p(check(x).error)
    ensures FirstFailure(xs, check).Fail? ==> p(FirstFailure(xs, check).error)
  {
  }

  /** The elements of `s` as a set. */
  function Elems<T(!new)>(s: seq<T>): (r: set<T>)
    ensures forall x :: x in r <==> x in s
  {
    set x | x in s
  }

  /** The dictionary `{keys[k]: values[k] for k in range(|keys|)}`, built by
      assigning the pairs in order. */
  ghost function Claims<K, V>(keys: seq<K>, values: seq<V>): map<K, V>
    requires |keys| == |values|
  {
    if keys == [] then map[]
    else Claims(keys[..|keys| - 1], values[..|values| - 1])[keys[|keys| - 1] := values[|values| - 1]]
  }

  lemma {:induction false} ClaimsDomain<K, V>(keys: seq<K>, values: seq<V>)
    requires |keys| == |values|
    ensures forall x :: x in Claims(keys, values) <==> x in keys
  {
    if keys != [] {
      ClaimsDomain(keys[..|keys| - 1], values[..|values| - 1]);
      assert keys == keys[..|keys| - 1] + [keys[|keys| - 1]];
    }
  }

  /** With distinct keys, every key maps to the value at its own position. */
  lemma {:induction false} ClaimsAt<K, V>(keys: seq<K>, values: seq<V>, j: nat)
    requires |keys| == |values| && Distinct(keys) && j < |keys|
    ensures keys[j] in Claims(keys, values) && Claims(keys, values)[keys[j]] == values[j]
  {
    var n := |keys| - 1;
    if j < n {
      ClaimsAt(keys[..n], values[..n], j);
    }
  }

  /** Assigning the next key, when it is new, extends the dictionary by one pair
      and keeps the keys distinct. */
  lemma ClaimNew<K, V>(keys: seq<K>, values: seq<V>, n: nat, m: map<K, V>)
    requires n < |keys| == |values| && m == Claims(keys[..n], values[..n])
    requires Distinct(keys[..n]) && keys[n] !in m
    ensures m[keys[n] := values[n]] == Claims(keys[..n + 1], values[..n + 1])
    ensures Distinct(keys[..n + 1])
  {
    ClaimsDomain(keys[..n], values[..n]);
    assert keys[..n + 1][..n] == keys[..n];
    assert values[..n + 1][..n] == values[..n];
    assert keys[..n + 1] == keys[..n] + [keys[n]];
  }

  /** Finding the next key already present means it repeats for the first time, and
      the dictionary holds the value of its first occurrence. */
  lemma ClaimFound<K, V>(keys: seq<K>, values: seq<V>, n: nat, m: map<K, V>)
    requires n < |keys| == |values| && m == Claims(keys[..n], values[..n])
    requires Distinct(keys[..n]) && keys[n] in m
    ensures IsFirstRepeat(keys, n)
    ensures m[keys[n]] == values[IndexOf(keys[..n], keys[n])]
  {
    ClaimsDomain(keys[..n], values[..n]);
    var first := IndexOf(keys[..n], keys[n]);
    ClaimsAt(keys[..n], values[..n], first);
  }

  /** A `for` loop that runs `check` on each element and stops at the first failure. */
  method CheckEach<T, E>(xs: seq<T>, check: T -> Outcome<E>) returns (r: Outcome<E>)
    ensures r == FirstFailure(xs, check)
  {
    for i := 0 to |xs|
      invariant forall k :: 0 <= k < i ==> check(xs[k]).Pass?
    {
      var o := check(xs[i]);
      if o.Fail? {
        FirstFailureAt(xs, check, i);
        return o;
      }
    }
    return Pass;
  }
  /** The state a loop reaches by applying `step` to each element in order. */
  function Scan<S, T>(s: S, xs: seq<T>, step: (S, T) -> S): S {
    if xs == [] then s else step(Scan(s, xs[..|xs| - 1], step), xs[|xs| - 1])
  }

  /** Two steps that agree everywhere reach the same state. */
  lemma {:induction false} ScanSameSteps<S, T>(s: S, xs: seq<T>, f: (S, T) -> S, g: (S, T) -> S)
    requires forall t, x :: f(t, x) == g(t, x)
    ensures Scan(s, xs, f) == Scan(s, xs, g)
  {
    if xs != [] {
      ScanSameSteps(s, xs[..|xs| - 1], f, g);
    }
  }

  /** A property every step preserves holds of the state the loop ends in. */
  lemma {:induction false} ScanKeeps<S, T>(s: S, xs: seq<T>, step: (S, T) -> S, inv: S -> bool)
    requires inv(s)
    requires forall t, x :: x in xs && inv(t) ==> inv(step(t, x))
    ensures inv(Scan(s, xs, step))
  {
    if xs != [] {
      assert forall x :: x in xs[..|xs| - 1] ==> x in xs;
      ScanKeeps(s, xs[..|xs| - 1], step, inv);
    }
  }

  /** A fact each step establishes about its element, and later steps keep,
      holds for every element at the end. */
  lemma {:induction false} ScanReaches<S, T>(s: S, xs: seq<T>, step: (S, T) -> S, inv: S -> bool, post: (S, T) -> bool)
    requires inv(s)
    requires forall t, x :: x in xs && inv(t) ==> inv(step(t, x)) && post(step(t, x), x)
    requires forall t, x, y :: y in xs && inv(t) && post(t, x) ==> post(step(t, y), x)
    ensures forall x <- xs :: post(Scan(s, xs, step), x)
  {
    if xs != [] {
      var init := xs[..|xs| - 1];
      assert forall x :: x in init ==> x in xs;
      ScanReaches(s, init, step, inv, post);
      ScanKeeps(s, init, step, inv);
      assert forall x :: x in xs ==> x in init || x == xs[|xs| - 1];
    }
  }
}
