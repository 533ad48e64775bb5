/** Python dictionaries as the source uses them: entries kept in insertion order,
    assigning to a present key replaces its value in place, assigning to a new key
    appends it. */
module Dicts {
  import opened Wrappers
  import opened Seqs

  type Dict<K, V> = seq<(K, V)>

  function KeysOf<K, V>(d: Dict<K, V>): (ks: seq<K>)
    ensures |ks| == |d| && forall i :: 0 <= i < |d| ==> ks[i] == d[i].0
  {
    seq(|d|, i requires 0 <= i < |d| => d[i].0)
  }

  /** `d.values()`, in insertion order. */
  function ValuesOf<K, V>(d: Dict<K, V>): (vs: seq<V>)
    ensures |vs| == |d| && forall i :: 0 <= i < |d| ==> vs[i] == d[i].1
  {
    seq(|d|, i requires 0 <= i < |d| => d[i].1)
  }

  /** Every key is stored once. */
  predicate WellFormed<K(==), V>(d: Dict<K, V>) {
    Distinct(KeysOf(d))
  }

  /** `d.get(k)`. */
  function Get<K(==), V>(d: Dict<K, V>, k: K): (r: Option<V>)
    ensures r.Some? <==> k in KeysOf(d)
  {
    if d == [] then None
    else if d[0].0 == k then Some(d[0].1)
    else
      assert KeysOf(d) == [d[0].0] + KeysOf(d[1..]);
      Get(d[1..], k)
  }

  /** `d[k] = v`. */
  function Put<K(==,!new), V>(d: Dict<K, V>, k: K, v: V): (r: Dict<K, V>)
    ensures WellFormed(d) ==> WellFormed(r)
    ensures KeysOf(r) == if k in KeysOf(d) then KeysOf(d) else KeysOf(d) + [k]
    ensures forall x :: Get(r, x) == if x == k then Some(v) else Get(d, x)
  {
    if k in KeysOf(d) then
      var i := IndexOf(KeysOf(d), k);
      var r := d[i := (k, v)];
      assert KeysOf(r) == KeysOf(d);
      PutAtGet(d, i, k, v, r);
      r
    else
      var r := d + [(k, v)];
      assert KeysOf(r) == KeysOf(d) + [k];
      AppendGet(d, k, v, r);
      r
  }

  lemma {:induction false} PutAtGet<K(!new), V>(d: Dict<K, V>, i: nat, k: K, v: V, r: Dict<K, V>)
    requires i < |d| && d[i].0 == k && k !in KeysOf(d)[..i] && r == d[i := (k, v)]
    ensures forall x :: Get(r, x) == if x == k then Some(v) else Get(d, x)
  {
    if i == 0 {
      assert r[1..] == d[1..];
      forall x ensures Get(r, x) == if x == k then Some(v) else Get(d, x) {
        if x != k {
          assert Get(r, x) == Get(r[1..], x);
          assert Get(d, x) == Get(d[1..], x);
        }
      }
    } else {
      assert KeysOf(d)[0] == d[0].0;
      assert d[0].0 != k;
      assert KeysOf(d[1..])[..i - 1] == KeysOf(d)[1..i];
      PutAtGet(d[1..], i - 1, k, v, r[1..]);
      assert r[1..] == d[1..][i - 1 := (k, v)];
      assert r[0] == d[0];
      forall x ensures Get(r, x) == if x == k then Some(v) else Get(d, x) {
        if x != d[0].0 {
          assert Get(r, x) == Get(r[1..], x);
          assert Get(d, x) == Get(d[1..], x);
        }
      }
    }
  }

  lemma {:induction false} AppendGet<K(!new), V>(d: Dict<K, V>, k: K, v: V, r: Dict<K, V>)
    requires k !in KeysOf(d) && r == d + [(k, v)]
    ensures forall x :: Get(r, x) == if x == k then Some(v) else Get(d, x)
  {
    if d != [] {
      assert KeysOf(d) == [d[0].0] + KeysOf(d[1..]);
      assert r[1..] == d[1..] + [(k, v)];
      AppendGet(d[1..], k, v, r[1..]);
    }
  }

  /** `{key(x): value(x) for x in xs}`, as a sequence of assignments. */
  function FromPairs<K(==,!new), V>(ps: seq<(K, V)>): (d: Dict<K, V>)
    ensures WellFormed(d)
  {
    if ps == [] then [] else Put(FromPairs(ps[..|ps| - 1]), ps[|ps| - 1].0, ps[|ps| - 1].1)
  }

  /** The value the last pair with key `k` carries. */
  function LastValue<K(==), V>(ps: seq<(K, V)>, k: K): Option<V> {
    if ps == [] then None
    else if ps[|ps| - 1].0 == k then Some(ps[|ps| - 1].1)
    else LastValue(ps[..|ps| - 1], k)
  }

  /** The keys in order of first appearance. */
  function FirstOccurrences<K(==)>(s: seq<K>): seq<K> {
    if s == [] then []
    else
      var prefix := FirstOccurrences(s[..|s| - 1]);
      if s[|s| - 1] in prefix then prefix else prefix + [s[|s| - 1]]
  }

  /** Building a dict keeps the later value of a repeated key, at the position its
      first occurrence took. */
  lemma {:induction false} FromPairsSpec<K(!new), V>(ps: seq<(K, V)>)
    ensures forall k :: Get(FromPairs(ps), k) == LastValue(ps, k)
    ensures KeysOf(FromPairs(ps)) == FirstOccurrences(KeysOf(ps))
  {
    if ps != [] {
      var init := ps[..|ps| - 1];
      FromPairsSpec(init);
      assert KeysOf(ps)[..|ps| - 1] == KeysOf(init);
    }
  }

  lemma {:induction false} FirstOccurrencesElems<K>(s: seq<K>)
    ensures forall x :: x in FirstOccurrences(s) <==> x in s
  {
    if s != [] {
      FirstOccurrencesElems(s[..|s| - 1]);
      assert s == s[..|s| - 1] + [s[|s| - 1]];
    }
  }

  /** Building a dict keeps exactly the keys of its pairs. */
  lemma FromPairsKeys<K(!new), V>(ps: seq<(K, V)>)
    ensures forall x :: x in KeysOf(FromPairs(ps)) <==> x in KeysOf(ps)
  {
    FromPairsSpec(ps);
    FirstOccurrencesElems(KeysOf(ps));
  }

  /** A pair that no later pair overrides is the last value of its key. */
  lemma {:induction false} LastValueAt<K, V>(ps: seq<(K, V)>, i: nat)
    requires i < |ps| && forall j :: i < j < |ps| ==> ps[j].0 != ps[i].0
    ensures LastValue(ps, ps[i].0) == Some(ps[i].1)
  {
    if i < |ps| - 1 {
      LastValueAt(ps[..|ps| - 1], i);
    }
  }

  /** With distinct keys, building the dict changes nothing: entries stay in order. */
  lemma {:induction false} FromDistinctPairs<K(!new), V>(ps: seq<(K, V)>)
    requires Distinct(KeysOf(ps))
    ensures FromPairs(ps) == ps
  {
    if ps != [] {
      var init := ps[..|ps| - 1];
      assert KeysOf(init) == KeysOf(ps)[..|ps| - 1];
      FromDistinctPairs(init);
      assert ps[|ps| - 1].0 !in KeysOf(init);
      assert init + [ps[|ps| - 1]] == ps;
    }
  }
}
