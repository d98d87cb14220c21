/** `[...xs].sort(cmp)` as the components use it: a copy of the input sorted
    by a key under a strict order, and stable (ECMAScript 2019 requires
    `Array.prototype.sort` to keep elements the comparator calls equal in
    their original order). The sort is modelled as insertion sort, which has
    exactly these properties; the lemmas below prove them. */
module Sorting {

  /** `lt` is a strict total order on keys: irreflexive, transitive, and any
      two different keys are comparable. */
  ghost predicate StrictTotalOrder<K(!new)>(lt: (K, K) -> bool)
  {
    && (forall a :: !lt(a, a))
    && (forall a, b, c :: lt(a, b) && lt(b, c) ==> lt(a, c))
    && (forall a, b :: a != b ==> lt(a, b) || lt(b, a))
  }

  /** No element is strictly before an element to its left. */
  ghost predicate SortedBy<T, K>(s: seq<T>, key: T -> K, lt: (K, K) -> bool)
  {
    forall i, j :: 0 <= i < j < |s| ==> !lt(key(s[j]), key(s[i]))
  }

  /** Insert `x` into `sorted` after every element that is not strictly
      after it, so `x` follows the elements with an equal key. */
  function Insert<T(==), K>(sorted: seq<T>, x: T, key: T -> K, lt: (K, K) -> bool): (r: seq<T>)
    ensures |r| == |sorted| + 1
    ensures multiset(r) == multiset(sorted) + multiset{x}
    ensures forall i :: 0 <= i < |r| ==> r[i] in sorted || r[i] == x
  {
    if sorted == [] then [x]
    else if lt(key(x), key(sorted[0])) then [x] + sorted
    else
      var rest := Insert(sorted[1..], x, key, lt);
      assert sorted == [sorted[0]] + sorted[1..];
      [sorted[0]] + rest
  }

  /** The copy-and-sort: the input inserted element by element, left to
      right. It is a permutation of its input. */
  function SortBy<T(==), K>(s: seq<T>, key: T -> K, lt: (K, K) -> bool): (r: seq<T>)
    ensures multiset(r) == multiset(s)
    ensures |r| == |s|
  {
    if s == [] then []
    else
      var init := s[..|s| - 1];
      assert s == init + [s[|s| - 1]];
      Insert(SortBy(init, key, lt), s[|s| - 1], key, lt)
  }

  lemma {:induction false} InsertSorted<T, K(!new)>(sorted: seq<T>, x: T, key: T -> K, lt: (K, K) -> bool)
    requires StrictTotalOrder(lt)
    requires SortedBy(sorted, key, lt)
    ensures SortedBy(Insert(sorted, x, key, lt), key, lt)
  {
    if sorted != [] {
      var r := Insert(sorted, x, key, lt);
      if lt(key(x), key(sorted[0])) {
        forall i, j | 0 <= i < j < |r| ensures !lt(key(r[j]), key(r[i])) {
          if i == 0 {
            assert j > 1 ==> !lt(key(sorted[j - 1]), key(sorted[0]));
          }
        }
      } else {
        var rest := Insert(sorted[1..], x, key, lt);
        InsertSorted(sorted[1..], x, key, lt);
        forall j | 0 < j < |r| ensures !lt(key(r[j]), key(sorted[0])) {
          assert r[j] == rest[j - 1];
          if rest[j - 1] != x {
            var k :| 0 <= k < |sorted[1..]| && sorted[1..][k] == rest[j - 1];
            assert sorted[k + 1] == r[j];
          }
        }
      }
    }
  }

  /** The copy-and-sort returns its elements in order. */
  lemma {:induction false} SortBySorted<T, K(!new)>(s: seq<T>, key: T -> K, lt: (K, K) -> bool)
    requires StrictTotalOrder(lt)
    ensures SortedBy(SortBy(s, key, lt), key, lt)
  {
    if s != [] {
      SortBySorted(s[..|s| - 1], key, lt);
      InsertSorted(SortBy(s[..|s| - 1], key, lt), s[|s| - 1], key, lt);
    }
  }

  /** The elements whose key is `k`, in order. */
  function KeyClass<T, K(==)>(s: seq<T>, key: T -> K, k: K): (r: seq<T>)
    ensures |r| <= |s|
  {
    if s == [] then [] else (if key(s[0]) == k then [s[0]] else []) + KeyClass(s[1..], key, k)
  }

  lemma {:induction false} KeyClassAppend<T, K>(a: seq<T>, b: seq<T>, key: T -> K, k: K)
    ensures KeyClass(a + b, key, k) == KeyClass(a, key, k) + KeyClass(b, key, k)
  {
    if a == [] {
      assert a + b == b;
    } else {
      var head := if key(a[0]) == k then [a[0]] else [];
      assert (a + b)[0] == a[0];
      assert (a + b)[1..] == a[1..] + b;
      calc {
        KeyClass(a + b, key, k);
        head + KeyClass(a[1..] + b, key, k);
        { KeyClassAppend(a[1..], b, key, k); }
        head + (KeyClass(a[1..], key, k) + KeyClass(b, key, k));
        (head + KeyClass(a[1..], key, k)) + KeyClass(b, key, k);
        KeyClass(a, key, k) + KeyClass(b, key, k);
      }
    }
  }

  lemma {:induction false} KeyClassEmpty<T, K>(s: seq<T>, key: T -> K, k: K)
    requires forall i :: 0 <= i < |s| ==> key(s[i]) != k
    ensures KeyClass(s, key, k) == []
  {
    if s != [] {
      KeyClassEmpty(s[1..], key, k);
    }
  }

  lemma KeyClassCons<T, K>(x: T, s: seq<T>, key: T -> K, k: K)
    ensures KeyClass([x] + s, key, k) == (if key(x) == k then [x] else []) + KeyClass(s, key, k)
  {
    assert ([x] + s)[1..] == s;
  }

  /** An element placed in front of a sorted sequence, strictly before all
      of it, ends up in its key class alone or not at all. */
  lemma InsertFrontKeyClass<T, K(!new)>(sorted: seq<T>, x: T, key: T -> K, lt: (K, K) -> bool, k: K)
    requires StrictTotalOrder(lt)
    requires SortedBy(sorted, key, lt)
    requires sorted != [] && lt(key(x), key(sorted[0]))
    ensures KeyClass([x] + sorted, key, k)
         == KeyClass(sorted, key, k) + (if key(x) == k then [x] else [])
  {
    KeyClassCons(x, sorted, key, k);
    if key(x) == k {
      forall i | 0 <= i < |sorted| ensures key(sorted[i]) != k {
        if i > 0 {
          assert !lt(key(sorted[i]), key(sorted[0]));
        }
      }
      KeyClassEmpty(sorted, key, k);
    }
  }

  lemma SortedTail<T, K>(s: seq<T>, key: T -> K, lt: (K, K) -> bool)
    requires s != [] && SortedBy(s, key, lt)
    ensures SortedBy(s[1..], key, lt)
  {
    forall i, j | 0 <= i < j < |s| - 1 ensures !lt(key(s[1..][j]), key(s[1..][i])) {
      assert s[1..][j] == s[j + 1] && s[1..][i] == s[i + 1];
    }
  }

  /** Inserting `x` appends it to its own key class and leaves every other
      class as it was. */
  lemma {:induction false} InsertKeyClass<T, K(!new)>(sorted: seq<T>, x: T, key: T -> K, lt: (K, K) -> bool, k: K)
    requires StrictTotalOrder(lt)
    requires SortedBy(sorted, key, lt)
    ensures KeyClass(Insert(sorted, x, key, lt), key, k)
         == KeyClass(sorted, key, k) + (if key(x) == k then [x] else [])
  {
    if sorted == [] {
      KeyClassCons(x, [], key, k);
      assert [x] + [] == [x];
    } else if lt(key(x), key(sorted[0])) {
      InsertFrontKeyClass(sorted, x, key, lt, k);
    } else {
      SortedTail(sorted, key, lt);
      InsertKeyClass(sorted[1..], x, key, lt, k);
      InsertBehindKeyClass(sorted, x, key, lt, k);
    }
  }

  /** The step of `InsertKeyClass` where `x` goes behind the first element. */
  lemma InsertBehindKeyClass<T, K>(sorted: seq<T>, x: T, key: T -> K, lt: (K, K) -> bool, k: K)
    requires sorted != [] && !lt(key(x), key(sorted[0]))
    requires KeyClass(Insert(sorted[1..], x, key, lt), key, k)
          == KeyClass(sorted[1..], key, k) + (if key(x) == k then [x] else [])
    ensures KeyClass(Insert(sorted, x, key, lt), key, k)
         == KeyClass(sorted, key, k) + (if key(x) == k then [x] else [])
  {
    var tail := if key(x) == k then [x] else [];
    var head := if key(sorted[0]) == k then [sorted[0]] else [];
    var rest := Insert(sorted[1..], x, key, lt);
    calc {
      KeyClass(Insert(sorted, x, key, lt), key, k);
      KeyClass([sorted[0]] + rest, key, k);
      { KeyClassCons(sorted[0], rest, key, k); }
      head + KeyClass(rest, key, k);
      head + (KeyClass(sorted[1..], key, k) + tail);
      (head + KeyClass(sorted[1..], key, k)) + tail;
      KeyClass(sorted, key, k) + tail;
    }
  }

  /** Stability: for every key, the elements with that key appear in the
      sorted copy in the same relative order as in the input. */
  lemma {:induction false} SortByStable<T, K(!new)>(s: seq<T>, key: T -> K, lt: (K, K) -> bool, k: K)
    requires StrictTotalOrder(lt)
    ensures KeyClass(SortBy(s, key, lt), key, k) == KeyClass(s, key, k)
  {
    if s != [] {
      var init, x := s[..|s| - 1], s[|s| - 1];
      var tail := if key(x) == k then [x] else [];
      assert KeyClass([x], key, k) == tail + KeyClass([], key, k);
      calc {
        KeyClass(SortBy(s, key, lt), key, k);
        KeyClass(Insert(SortBy(init, key, lt), x, key, lt), key, k);
        { SortBySorted(init, key, lt);
          InsertKeyClass(SortBy(init, key, lt), x, key, lt, k); }
        KeyClass(SortBy(init, key, lt), key, k) + tail;
        { SortByStable(init, key, lt, k); }
        KeyClass(init, key, k) + tail;
        { KeyClassAppend(init, [x], key, k); }
        KeyClass(init + [x], key, k);
        { assert s == init + [x]; }
        KeyClass(s, key, k);
      }
    }
  }

  /** Code-unit lexicographic order on strings. */
  predicate StrLess(a: string, b: string)
  {
    if a == [] then b != []
    else if b == [] then false
    else if a[0] < b[0] then true
    else a[0] == b[0] && StrLess(a[1..], b[1..])
  }

  lemma {:induction false} StrLessIrreflexive(a: string)
    ensures !StrLess(a, a)
  {
    if a != [] {
      StrLessIrreflexive(a[1..]);
    }
  }

  lemma {:induction false} StrLessTransitive(a: string, b: string, c: string)
    requires StrLess(a, b) && StrLess(b, c)
    ensures StrLess(a, c)
  {
    if a != [] && b != [] && c != [] && a[0] == b[0] && b[0] == c[0] {
      StrLessTransitive(a[1..], b[1..], c[1..]);
    }
  }

  lemma {:induction false} StrLessTotal(a: string, b: string)
    requires a != b
    ensures StrLess(a, b) || StrLess(b, a)
  {
    if a != [] && b != [] && a[0] == b[0] {
      assert a == [a[0]] + a[1..] && b == [b[0]] + b[1..];
      StrLessTotal(a[1..], b[1..]);
    }
  }

  lemma StrLessIsStrictTotalOrder()
    ensures StrictTotalOrder(StrLess)
  {
    forall a: string ensures !StrLess(a, a) {
      StrLessIrreflexive(a);
    }
    forall a: string, b: string, c: string | StrLess(a, b) && StrLess(b, c) ensures StrLess(a, c) {
      StrLessTransitive(a, b, c);
    }
    forall a: string, b: string | a != b ensures StrLess(a, b) || StrLess(b, a) {
      StrLessTotal(a, b);
    }
  }
}
