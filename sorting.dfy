/** `Array.prototype.sort` with a numeric comparator `(a, b) => key(a) - key(b)`.
    The sort is stable (ties keep their original order), so it is modelled by
    insertion sort: each element goes after every element whose key is not
    greater than its own. */
module Sorting {
  import opened Seqs

  predicate SortedBy<T>(s: seq<T>, key: T -> real) {
    forall i, j :: 0 <= i < j < |s| ==> key(s[i]) <= key(s[j])
  }

  /** Inserts `x` before the first element whose key is greater than its own. */
  function InsertBy<T>(s: seq<T>, x: T, key: T -> real): (r: seq<T>)
    ensures |r| == |s| + 1
  {
    if s == [] then [x]
    else if key(x) < key(s[0]) then [x] + s
    else
      assert s == [s[0]] + s[1..];
      [s[0]] + InsertBy(s[1..], x, key)
  }

  lemma {:induction false} InsertMultiset<T>(s: seq<T>, x: T, key: T -> real)
    ensures multiset(InsertBy(s, x, key)) == multiset(s) + multiset{x}
  {
    if s != [] && key(x) >= key(s[0]) {
      InsertMultiset(s[1..], x, key);
      assert s == [s[0]] + s[1..];
    }
  }

  lemma {:induction false} InsertElements<T>(s: seq<T>, x: T, key: T -> real)
    ensures forall i :: 0 <= i < |InsertBy(s, x, key)| ==>
      InsertBy(s, x, key)[i] == x || InsertBy(s, x, key)[i] in s
  {
    if s != [] && key(x) >= key(s[0]) {
      InsertElements(s[1..], x, key);
    }
  }

  lemma {:induction false} InsertSorted<T>(s: seq<T>, x: T, key: T -> real)
    requires SortedBy(s, key)
    ensures SortedBy(InsertBy(s, x, key), key)
  {
    if s != [] {
      if key(x) < key(s[0]) {
        var r := [x] + s;
        forall i, j | 0 <= i < j < |r| ensures key(r[i]) <= key(r[j]) {
          if i > 0 {
            assert r[i] == s[i - 1] && r[j] == s[j - 1];
          } else {
            assert r[j] == s[j - 1];
          }
        }
      } else {
        var t := InsertBy(s[1..], x, key);
        InsertSorted(s[1..], x, key);
        InsertElements(s[1..], x, key);
        var r := [s[0]] + t;
        forall i, j | 0 <= i < j < |r| ensures key(r[i]) <= key(r[j]) {
          if i > 0 {
            assert r[i] == t[i - 1] && r[j] == t[j - 1];
          } else {
            assert r[j] == t[j - 1];
            if t[j - 1] != x {
              var m :| 0 <= m < |s[1..]| && s[1..][m] == t[j - 1];
              assert s[1..][m] == s[m + 1];
            }
          }
        }
      }
    }
  }

  /** The sorted copy, stably ordered by `key`. */
  function SortBy<T>(s: seq<T>, key: T -> real): (r: seq<T>)
    ensures |r| == |s|
    ensures SortedBy(r, key)
    ensures multiset(r) == multiset(s)
  {
    if s == [] then []
    else
      assert s == s[..|s| - 1] + [s[|s| - 1]];
      var init := SortBy(s[..|s| - 1], key);
      InsertSorted(init, s[|s| - 1], key);
      InsertMultiset(init, s[|s| - 1], key);
      InsertBy(init, s[|s| - 1], key)
  }

  /** The elements of `s` whose key is `k`, in their order in `s`. */
  function KeyFilter<T>(s: seq<T>, key: T -> real, k: real): seq<T> {
    if s == [] then []
    else (if key(s[0]) == k then [s[0]] else []) + KeyFilter(s[1..], key, k)
  }

  lemma {:induction false} KeyFilterAppend<T>(s: seq<T>, x: T, key: T -> real, k: real)
    ensures KeyFilter(s + [x], key, k) == KeyFilter(s, key, k) + (if key(x) == k then [x] else [])
  {
    if s != [] {
      KeyFilterAppend(s[1..], x, key, k);
      assert (s + [x])[1..] == s[1..] + [x];
    } else {
      assert s + [x] == [x];
    }
  }

  lemma {:induction false} KeyFilterAbove<T>(s: seq<T>, key: T -> real, k: real)
    requires forall i :: 0 <= i < |s| ==> key(s[i]) > k
    ensures KeyFilter(s, key, k) == []
  {
    if s != [] {
      KeyFilterAbove(s[1..], key, k);
    }
  }

  /** When `x` goes in front, it is the last element with its key. */
  lemma InsertStableFront<T>(s: seq<T>, x: T, key: T -> real, k: real)
    requires SortedBy(s, key) && s != [] && key(x) < key(s[0])
    ensures KeyFilter([x] + s, key, k) == KeyFilter(s, key, k) + (if key(x) == k then [x] else [])
  {
    assert ([x] + s)[1..] == s;
    if key(x) == k {
      forall i | 0 <= i < |s| ensures key(s[i]) > k {
        if i > 0 {
          assert key(s[0]) <= key(s[i]);
        }
      }
      KeyFilterAbove(s, key, k);
    }
  }

  /** When `x` goes after the first element, the first element keeps its
      place in front of the filtered rest. */
  lemma InsertStableLater<T>(s: seq<T>, x: T, key: T -> real, k: real)
    requires s != [] && key(x) >= key(s[0])
    requires KeyFilter(InsertBy(s[1..], x, key), key, k)
          == KeyFilter(s[1..], key, k) + (if key(x) == k then [x] else [])
    ensures KeyFilter(InsertBy(s, x, key), key, k)
         == KeyFilter(s, key, k) + (if key(x) == k then [x] else [])
  {
    var t := InsertBy(s[1..], x, key);
    assert ([s[0]] + t)[1..] == t;
    var h := if key(s[0]) == k then [s[0]] else [];
    AppendAssoc(h, KeyFilter(s[1..], key, k), if key(x) == k then [x] else []);
  }

  lemma {:induction false} InsertStable<T>(s: seq<T>, x: T, key: T -> real, k: real)
    requires SortedBy(s, key)
    ensures KeyFilter(InsertBy(s, x, key), key, k)
         == KeyFilter(s, key, k) + (if key(x) == k then [x] else [])
  {
    if s == [] {
    } else if key(x) < key(s[0]) {
      InsertStableFront(s, x, key, k);
    } else {
      InsertStable(s[1..], x, key, k);
      InsertStableLater(s, x, key, k);
    }
  }

  /** Stability: for every key value, the elements carrying it appear in the
      sorted copy in the same order as in the input. */
  lemma {:induction false} SortStable<T>(s: seq<T>, key: T -> real, k: real)
    ensures KeyFilter(SortBy(s, key), key, k) == KeyFilter(s, key, k)
  {
    if s != [] {
      var init, last := s[..|s| - 1], s[|s| - 1];
      SortStable(init, key, k);
      InsertStable(SortBy(init, key), last, key, k);
      KeyFilterAppend(init, last, key, k);
      assert s == init + [last];
    }
  }

  lemma {:induction false} InsertAtEnd<T>(s: seq<T>, x: T, key: T -> real)
    requires forall i :: 0 <= i < |s| ==> key(s[i]) <= key(x)
    ensures InsertBy(s, x, key) == s + [x]
  {
    if s != [] {
      InsertAtEnd(s[1..], x, key);
      assert s == [s[0]] + s[1..];
    }
  }

  /** Sorting a sequence that is already in order leaves it unchanged. */
  lemma {:induction false} SortSorted<T>(s: seq<T>, key: T -> real)
    requires SortedBy(s, key)
    ensures SortBy(s, key) == s
  {
    if s != [] {
      var init := s[..|s| - 1];
      assert SortedBy(init, key);
      SortSorted(init, key);
      InsertAtEnd(init, s[|s| - 1], key);
      assert s == init + [s[|s| - 1]];
    }
  }
}
