/** `Array.prototype.findIndex` with an equality test on a key, as the reducers use it. */
module Lists {
  import opened Js

  /** The first position whose key equals `key`; `None` stands for findIndex's -1. */
  function FirstIndex<T, K(==)>(s: seq<T>, keyOf: T -> K, key: K): (r: Option<nat>)
    ensures r.None? <==> forall j :: 0 <= j < |s| ==> keyOf(s[j]) != key
    ensures r.Some? ==> r.value < |s| && keyOf(s[r.value]) == key
    ensures r.Some? ==> forall j :: 0 <= j < r.value ==> keyOf(s[j]) != key
  {
    if s == [] then None
    else if keyOf(s[0]) == key then Some(0)
    else
      match FirstIndex(s[1..], keyOf, key)
      case None => None
      case Some(i) => Some(i + 1)
  }

  /** The scan findIndex performs: the first index whose key matches, or -1. */
  method FindIndex<T, K(==)>(s: seq<T>, keyOf: T -> K, key: K) returns (index: int)
    ensures index == -1 ==> FirstIndex(s, keyOf, key) == None
    ensures index != -1 ==> FirstIndex(s, keyOf, key) == Some(index)
  {
    var i := 0;
    while i < |s|
      invariant 0 <= i <= |s|
      invariant forall j :: 0 <= j < i ==> keyOf(s[j]) != key
    {
      if keyOf(s[i]) == key {
        return i;
      }
      i := i + 1;
    }
    return -1;
  }

  /** A position holding the key with no earlier match is the first match. */
  lemma FirstIndexIs<T, K>(s: seq<T>, keyOf: T -> K, key: K, i: nat)
    requires i < |s| && keyOf(s[i]) == key
    requires forall j :: 0 <= j < i ==> keyOf(s[j]) != key
    ensures FirstIndex(s, keyOf, key) == Some(i)
  {
  }

  /** The first match depends only on the keys: two lists with the same keys position by position share it. */
  lemma {:induction false} FirstIndexByKeys<T, U, K>(s: seq<T>, keyOf: T -> K, t: seq<U>, keyOf': U -> K, key: K)
    requires |s| == |t|
    requires forall i :: 0 <= i < |s| ==> keyOf(s[i]) == keyOf'(t[i])
    ensures FirstIndex(s, keyOf, key) == FirstIndex(t, keyOf', key)
  {
    if s != [] && keyOf(s[0]) != key {
      FirstIndexByKeys(s[1..], keyOf, t[1..], keyOf', key);
    }
  }
}
