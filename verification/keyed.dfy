/**
 Operations on ordered sequences of records identified by a string key: the
 `map`-replace, `filter`-remove and `find` patterns the store and the editor
 apply to projects and to components.
 */
module Keyed {
  import opened Wrappers

  /** Every element whose key equals `x`'s key becomes `x`; the rest stay in place. */
  function Replace<T>(xs: seq<T>, key: T -> string, x: T): (r: seq<T>)
    ensures |r| == |xs|
    ensures forall i :: 0 <= i < |xs| ==> r[i] == if key(xs[i]) == key(x) then x else xs[i]
    ensures (forall i :: 0 <= i < |xs| ==> key(xs[i]) != key(x)) ==> r == xs
  {
    if xs == [] then []
    else [if key(xs[0]) == key(x) then x else xs[0]] + Replace(xs[1..], key, x)
  }

  /** Drops every element whose key is `k`, keeping the others. */
  function Remove<T(==,!new)>(xs: seq<T>, key: T -> string, k: string): (r: seq<T>)
    ensures forall y :: y in r <==> y in xs && key(y) != k
    ensures |r| <= |xs|
    ensures |r| == |xs| <==> forall i :: 0 <= i < |xs| ==> key(xs[i]) != k
    ensures (forall i :: 0 <= i < |xs| ==> key(xs[i]) != k) ==> r == xs
  {
    if xs == [] then []
    else (if key(xs[0]) == k then [] else [xs[0]]) + Remove(xs[1..], key, k)
  }

  /** Removal works piecewise, so the survivors keep their relative order. */
  lemma {:induction false} RemoveAppend<T(!new)>(a: seq<T>, b: seq<T>, key: T -> string, k: string)
    ensures Remove(a + b, key, k) == Remove(a, key, k) + Remove(b, key, k)
  {
    if a == [] {
      assert a + b == b;
    } else {
      assert (a + b)[1..] == a[1..] + b;
      RemoveAppend(a[1..], b, key, k);
    }
  }

  /** The first element whose key is `k`, if any. */
  function Find<T>(xs: seq<T>, key: T -> string, k: string): (r: Option<T>)
    ensures r.None? <==> forall i :: 0 <= i < |xs| ==> key(xs[i]) != k
    ensures r.Some? ==> exists i :: 0 <= i < |xs| && xs[i] == r.value && key(xs[i]) == k
                                    && forall j :: 0 <= j < i ==> key(xs[j]) != k
  {
    if xs == [] then None
    else if key(xs[0]) == k then Some(xs[0])
    else
      var rest := Find(xs[1..], key, k);
      assert forall j :: 1 <= j < |xs| ==> xs[j] == xs[1..][j - 1];
      rest
  }

  /** No two elements share a key. */
  predicate UniqueKeys<T>(xs: seq<T>, key: T -> string) {
    forall i, j :: 0 <= i < j < |xs| ==> key(xs[i]) != key(xs[j])
  }

  /** Removal keeps keys unique. */
  lemma {:induction false} RemoveKeepsUnique<T(!new)>(xs: seq<T>, key: T -> string, k: string)
    requires UniqueKeys(xs, key)
    ensures UniqueKeys(Remove(xs, key, k), key)
  {
    if xs != [] {
      RemoveKeepsUnique(xs[1..], key, k);
      var rest := Remove(xs[1..], key, k);
      if key(xs[0]) != k {
        forall y | y in rest ensures key(y) != key(xs[0]) {
          var j :| 0 <= j < |xs[1..]| && xs[1..][j] == y;
          assert xs[j + 1] == y;
        }
        assert Remove(xs, key, k) == [xs[0]] + rest;
      }
    }
  }
}
