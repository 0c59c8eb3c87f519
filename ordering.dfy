/** `Array.prototype.sort` with the comparator `(a, b) => key(b) - key(a)`: a stable sort
    into non-increasing key order, written as an insertion sort over sequences. */
module Ordering {

  /** Every element's key is at least the key of every element after it. */
  predicate SortedDesc<T>(s: seq<T>, key: T -> real) {
    forall i, j :: 0 <= i < j < |s| ==> key(s[i]) >= key(s[j])
  }

  /** An element whose key is at least that of the head of a sorted sequence can be put
      in front of it. */
  lemma ConsSorted<T>(h: T, t: seq<T>, key: T -> real)
    requires SortedDesc(t, key)
    requires t != [] ==> key(h) >= key(t[0])
    ensures SortedDesc([h] + t, key)
  {
    forall i, j | 0 <= i < j < |[h] + t|
      ensures key(([h] + t)[i]) >= key(([h] + t)[j])
    {
      if i > 0 {
        assert ([h] + t)[i] == t[i - 1];
      } else if j > 1 {
        assert key(t[0]) >= key(t[j - 1]);
      }
    }
  }

  /** Puts `x` in front of the first element whose key is smaller than its own. */
  function Insert<T(==)>(x: T, s: seq<T>, key: T -> real): (r: seq<T>)
    requires SortedDesc(s, key)
    ensures SortedDesc(r, key)
    ensures multiset(r) == multiset(s) + multiset{x}
    ensures r[0] == x || (s != [] && r[0] == s[0])
    decreases |s|
  {
    if s == [] || key(x) >= key(s[0]) then
      ConsSorted(x, s, key);
      [x] + s
    else
      assert s == [s[0]] + s[1..];
      var rest := Insert(x, s[1..], key);
      ConsSorted(s[0], rest, key);
      [s[0]] + rest
  }

  function SortDesc<T(==)>(s: seq<T>, key: T -> real): (r: seq<T>)
    ensures SortedDesc(r, key)
    ensures multiset(r) == multiset(s)
    decreases |s|
  {
    if s == [] then []
    else
      assert s == [s[0]] + s[1..];
      Insert(s[0], SortDesc(s[1..], key), key)
  }

  /** A sorted permutation keeps the length, and an element is in it exactly when it is
      in the input. */
  lemma SortDescMembers<T>(s: seq<T>, key: T -> real, x: T)
    ensures |SortDesc(s, key)| == |s|
    ensures x in SortDesc(s, key) <==> x in s
  {
    var r := SortDesc(s, key);
    assert |multiset(r)| == |r| && |multiset(s)| == |s|;
    assert x in r <==> x in multiset(r);
  }
}
