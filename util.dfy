/** Generic helpers shared by the three components. */
module Util {

  datatype Option<T> = None | Some(value: T)

  predicate NoDuplicates<T(==)>(s: seq<T>)
  {
    forall i, j :: 0 <= i < j < |s| ==> s[i] != s[j]
  }

  /**
   * `keys` lists every key of `m` exactly once, in whatever order the
   * environment enumerates them (`Object.keys`, `caches.keys()`).
   */
  predicate IsKeyOrder<K(==), V>(keys: seq<K>, m: map<K, V>)
  {
    NoDuplicates(keys) && m.Keys == set k | k in keys
  }

  /** `sub` is `s` with some elements left out, the rest in their order. */
  predicate IsSubsequence<T(==)>(sub: seq<T>, s: seq<T>)
  {
    if sub == [] then true
    else if s == [] then false
    else if sub[0] == s[0] then IsSubsequence(sub[1..], s[1..])
    else IsSubsequence(sub, s[1..])
  }

  /** What is kept from the tail of a sequence is kept from the whole. */
  lemma {:induction false} SubsequenceOfTail<T>(sub: seq<T>, s: seq<T>)
    requires s != [] && IsSubsequence(sub, s[1..])
    ensures IsSubsequence(sub, s)
    decreases |s|, 0
  {
    if sub != [] && sub[0] == s[0] {
      DropFirst(sub, s[1..]);
    }
  }

  /** Leaving out the first kept element still leaves a subsequence. */
  lemma {:induction false} DropFirst<T>(sub: seq<T>, s: seq<T>)
    requires sub != [] && IsSubsequence(sub, s)
    ensures IsSubsequence(sub[1..], s)
    decreases |s|, 1
  {
    if sub[0] == s[0] {
      if sub[1..] != [] {
        SubsequenceOfTail(sub[1..], s);
      }
    } else {
      DropFirst(sub, s[1..]);
      if sub[1..] != [] {
        SubsequenceOfTail(sub[1..], s);
      }
    }
  }

  /** A sequence without duplicates has as many distinct elements as entries. */
  lemma {:induction false} DistinctCount<T>(s: seq<T>)
    requires NoDuplicates(s)
    ensures |set x | x in s| == |s|
  {
    if s != [] {
      var init, last := s[..|s| - 1], s[|s| - 1];
      assert NoDuplicates(init);
      DistinctCount(init);
      assert (set x | x in s) == (set x | x in init) + {last};
      assert last !in (set x | x in init);
    }
  }

  /** A key enumeration is exactly as long as the map is large. */
  lemma {:induction false} KeyOrderLength<K, V>(keys: seq<K>, m: map<K, V>)
    requires IsKeyOrder(keys, m)
    ensures |keys| == |m|
  {
    DistinctCount(keys);
  }
}
