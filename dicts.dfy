/** Python dictionaries where their insertion order can be observed: an
    association list whose keys are distinct, in the order they were first
    stored.  Storing under a key that is already present replaces the value
    where it stands, as `d[k] = v` does. */
module Dicts {

  predicate Distinct<T(==)>(xs: seq<T>) {
    forall i, j :: 0 <= i < j < |xs| ==> xs[i] != xs[j]
  }

  /** The elements of `xs` in the order of their first occurrence, each once. */
  function FirstOccurrences<T(==,!new)>(xs: seq<T>): (r: seq<T>)
    ensures Distinct(r)
    ensures forall x :: x in r <==> x in xs
  {
    if xs == [] then []
    else
      var r := FirstOccurrences(xs[..|xs| - 1]);
      var x := xs[|xs| - 1];
      assert xs == xs[..|xs| - 1] + [x];
      if x in r then r else r + [x]
  }

  function Keys<K, V>(d: seq<(K, V)>): (ks: seq<K>)
    ensures |ks| == |d|
    ensures forall i :: 0 <= i < |d| ==> ks[i] == d[i].0
  {
    if d == [] then [] else [d[0].0] + Keys(d[1..])
  }

  /** `d[k]` for a key that is present. */
  function Get<K(==), V>(d: seq<(K, V)>, k: K): V
    requires k in Keys(d)
  {
    if d[0].0 == k then d[0].1 else Get(d[1..], k)
  }

  /** `d[k] = v`. */
  function Put<K(==), V>(d: seq<(K, V)>, k: K, v: V): (r: seq<(K, V)>)
    ensures Keys(r) == if k in Keys(d) then Keys(d) else Keys(d) + [k]
    ensures k in Keys(r) && Get(r, k) == v
    ensures forall j :: j in Keys(d) && j != k ==> Get(r, j) == Get(d, j)
  {
    if d == [] then
      KeysCons((k, v), []);
      [(k, v)]
    else
      KeysCons(d[0], d[1..]);
      assert [d[0]] + d[1..] == d;
      if d[0].0 == k then
        KeysCons((k, v), d[1..]);
        [(k, v)] + d[1..]
      else
        var rest := Put(d[1..], k, v);
        KeysCons(d[0], rest);
        [d[0]] + rest
  }

  /** The keys and lookups of a list with one more pair in front. */
  lemma KeysCons<K, V>(p: (K, V), d: seq<(K, V)>)
    ensures Keys([p] + d) == [p.0] + Keys(d)
    ensures forall j :: j in Keys([p] + d) && j != p.0 ==> j in Keys(d) && Get([p] + d, j) == Get(d, j)
    ensures p.0 in Keys([p] + d) && Get([p] + d, p.0) == p.1
  {
    assert ([p] + d)[0] == p;
    assert ([p] + d)[1..] == d;
  }

  /** The first occurrences of a longer prefix. */
  lemma FirstOccurrencesPrefix<T(!new)>(xs: seq<T>, i: nat)
    requires i < |xs|
    ensures FirstOccurrences(xs[..i + 1]) ==
              if xs[i] in FirstOccurrences(xs[..i]) then FirstOccurrences(xs[..i])
              else FirstOccurrences(xs[..i]) + [xs[i]]
  {
    assert xs[..i + 1][..i] == xs[..i];
  }
}
