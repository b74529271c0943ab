/** The two collection lookups the core borrows from its utility libraries:
    underscore's `_.indexBy` (later elements overwrite earlier ones with the
    same key) and `Array.prototype.find` (the first match wins). */
module Indexing {
  import opened Js

  /** No element after position `i` has the same key as `xs[i]`. */
  predicate LastWithKey<T>(xs: seq<T>, key: T -> string, i: int)
    requires 0 <= i < |xs|
  {
    forall j :: i < j < |xs| ==> key(xs[j]) != key(xs[i])
  }

  /** `_.indexBy(xs, key)`: one entry per key, holding the LAST element with it. */
  function IndexBy<T(==)>(xs: seq<T>, key: T -> string): (m: map<string, T>)
    ensures forall k :: k in m ==> key(m[k]) == k && m[k] in xs
    ensures forall i :: 0 <= i < |xs| ==> key(xs[i]) in m
    ensures forall i :: 0 <= i < |xs| && LastWithKey(xs, key, i) ==> m[key(xs[i])] == xs[i]
    decreases |xs|
  {
    if |xs| == 0 then map[]
    else
      var init := xs[..|xs| - 1];
      var m := IndexBy(init, key);
      assert forall i :: 0 <= i < |init| ==> init[i] == xs[i];
      m[key(xs[|xs| - 1]) := xs[|xs| - 1]]
  }

  /** A key that no element carries is absent from the index. */
  lemma IndexByKeys<T>(xs: seq<T>, key: T -> string, k: string)
    ensures k in IndexBy(xs, key) <==> exists i :: 0 <= i < |xs| && key(xs[i]) == k
  {
  }

  /** `xs.find(x => key(x) === k)`: the first element with key `k`, if any. */
  function Find<T>(xs: seq<T>, key: T -> string, k: string): (r: Option<T>)
    ensures r.None? <==> forall i :: 0 <= i < |xs| ==> key(xs[i]) != k
    ensures r.Some? ==> exists i :: 0 <= i < |xs| && xs[i] == r.value && key(xs[i]) == k
                                   && forall j :: 0 <= j < i ==> key(xs[j]) != k
    decreases |xs|
  {
    if |xs| == 0 then None
    else if key(xs[0]) == k then Some(xs[0])
    else
      var r := Find(xs[1..], key, k);
      assert forall i :: 0 < i < |xs| ==> xs[1..][i - 1] == xs[i];
      r
  }
}
