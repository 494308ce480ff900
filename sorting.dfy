/**
 * Python's `sorted(xs, key=k)` for string keys: a stable sort by `<=` on the
 * keys. It is written as an insertion sort that puts each element before the
 * elements of equal key that came after it in the input.
 */
module Sorting {
  import opened Strings

  /** Every element's key is `<=` the key of every element after it. */
  ghost predicate SortedBy<T>(s: seq<T>, key: T -> string)
  {
    forall i, j :: 0 <= i < j < |s| ==> Le(key(s[i]), key(s[j]))
  }

  /** Places `x` in the sorted `s` before the first element whose key is not below `x`'s. */
  function Insert<T>(x: T, s: seq<T>, key: T -> string): (r: seq<T>)
    ensures multiset(r) == multiset(s) + multiset{x}
    ensures SortedBy(s, key) ==> SortedBy(r, key)
  {
    if s == [] then [x]
    else if Le(key(x), key(s[0])) then
      InsertFront(x, s, key);
      [x] + s
    else
      var tail := Insert(x, s[1..], key);
      assert s == [s[0]] + s[1..];
      InsertBehind(x, s, tail, key);
      [s[0]] + tail
  }

  /** An element whose key is `<=` the first key can go in front of a sorted sequence. */
  lemma InsertFront<T>(x: T, s: seq<T>, key: T -> string)
    requires s != [] && Le(key(x), key(s[0]))
    ensures SortedBy(s, key) ==> SortedBy([x] + s, key)
  {
    var r := [x] + s;
    if SortedBy(s, key) {
      forall j | 0 < j < |r| ensures Le(key(x), key(r[j])) {
        if j > 1 { LeTransitive(key(x), key(s[0]), key(s[j - 1])); }
      }
    }
  }

  /** An element whose key is above the first key goes into the rest, behind the first element. */
  lemma InsertBehind<T>(x: T, s: seq<T>, tail: seq<T>, key: T -> string)
    requires s != [] && !Le(key(x), key(s[0]))
    requires multiset(tail) == multiset(s[1..]) + multiset{x}
    requires SortedBy(s[1..], key) ==> SortedBy(tail, key)
    ensures SortedBy(s, key) ==> SortedBy([s[0]] + tail, key)
  {
    if SortedBy(s, key) {
      var r := [s[0]] + tail;
      assert SortedBy(s[1..], key) by {
        forall i, j | 0 <= i < j < |s[1..]| ensures Le(key(s[1..][i]), key(s[1..][j])) {
          assert s[1..][i] == s[i + 1] && s[1..][j] == s[j + 1];
        }
      }
      LeTotal(key(x), key(s[0]));
      forall j | 0 <= j < |tail| ensures Le(key(s[0]), key(tail[j])) {
        assert tail[j] in multiset(tail);
        if tail[j] != x {
          assert tail[j] in multiset(s[1..]);
          var k :| 0 <= k < |s[1..]| && s[1..][k] == tail[j];
          assert s[k + 1] == tail[j];
        }
      }
      forall i, j | 0 <= i < j < |r| ensures Le(key(r[i]), key(r[j])) {
        if i == 0 {
          assert r[j] == tail[j - 1];
        } else {
          assert r[i] == tail[i - 1] && r[j] == tail[j - 1];
        }
      }
    }
  }

  /** `sorted(s, key=key)`: a sorted permutation of `s`. */
  function SortBy<T>(s: seq<T>, key: T -> string): (r: seq<T>)
    ensures multiset(r) == multiset(s)
    ensures |r| == |s|
    ensures SortedBy(r, key)
  {
    if s == [] then []
    else
      assert s == [s[0]] + s[1..];
      Insert(s[0], SortBy(s[1..], key), key)
  }
}
