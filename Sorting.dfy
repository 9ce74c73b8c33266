/** `Array.prototype.sort` with a comparator, which ECMAScript requires to be
    stable. A comparator of the form `(a, b) => key(a) - key(b)` orders by a key
    and leaves elements with equal keys in their input order; `SortBy` is that
    sort, written as an insertion sort over values. */
module Sorting {

  /** `lt` is a strict total order on keys: irreflexive, transitive and total. */
  ghost predicate StrictTotalOrder<K(!new)>(lt: (K, K) -> bool)
  {
    && (forall a :: !lt(a, a))
    && (forall a, b, c :: lt(a, b) && lt(b, c) ==> lt(a, c))
    && (forall a, b :: a != b ==> lt(a, b) || lt(b, a))
  }

  /** Numbers in ascending order (`a - b`). */
  const RealAsc: (real, real) -> bool := (a: real, b: real) => a < b
  /** Numbers in descending order (`b - a`). */
  const RealDesc: (real, real) -> bool := (a: real, b: real) => a > b
  /** Integers in descending order (`b.id - a.id`). */
  const IntDesc: (int, int) -> bool := (a: int, b: int) => a > b

  /** No element is placed after one whose key is strictly greater under `lt`. */
  ghost predicate SortedBy<T, K>(r: seq<T>, key: T -> K, lt: (K, K) -> bool)
  {
    forall i, j :: 0 <= i < j < |r| ==> !lt(key(r[j]), key(r[i]))
  }

  /** Places `x` after the elements of `t` whose keys are strictly smaller. */
  function Insert<T, K>(x: T, t: seq<T>, key: T -> K, lt: (K, K) -> bool): (r: seq<T>)
    ensures |r| == |t| + 1
    ensures multiset(r) == multiset(t) + multiset{x}
  {
    if t == [] then [x]
    else if lt(key(t[0]), key(x)) then
      assert t == [t[0]] + t[1..];
      [t[0]] + Insert(x, t[1..], key, lt)
    else [x] + t
  }

  /** The stable sort of `s` by `key` under `lt`. */
  function SortBy<T, K>(s: seq<T>, key: T -> K, lt: (K, K) -> bool): (r: seq<T>)
    ensures |r| == |s|
    ensures multiset(r) == multiset(s)
  {
    if s == [] then []
    else
      assert s == [s[0]] + s[1..];
      Insert(s[0], SortBy(s[1..], key, lt), key, lt)
  }

  /** The elements of `s` whose key is `k`, in order. */
  ghost function KeyClass<T, K>(s: seq<T>, key: T -> K, k: K): seq<T>
  {
    if s == [] then [] else (if key(s[0]) == k then [s[0]] else []) + KeyClass(s[1..], key, k)
  }

  lemma {:induction false} InsertSorted<T, K(!new)>(x: T, t: seq<T>, key: T -> K, lt: (K, K) -> bool)
    requires StrictTotalOrder(lt) && SortedBy(t, key, lt)
    ensures SortedBy(Insert(x, t, key, lt), key, lt)
  {
    if t == [] {
    } else if lt(key(t[0]), key(x)) {
      var u := Insert(x, t[1..], key, lt);
      SortedTail(t, key, lt);
      InsertSorted(x, t[1..], key, lt);
      forall j | 0 <= j < |u| ensures !lt(key(u[j]), key(t[0])) {
        assert u[j] in multiset(u);
        if u[j] != x {
          assert u[j] in multiset(t[1..]);
          var m :| 0 <= m < |t[1..]| && t[1..][m] == u[j];
          assert t[m + 1] == u[j];
        }
      }
      ConsSorted(t[0], u, key, lt);
    } else {
      forall j | 0 <= j < |t| ensures !lt(key(t[j]), key(x)) {
        if j > 0 {
          assert !lt(key(t[j]), key(t[0]));
        }
      }
      ConsSorted(x, t, key, lt);
    }
  }

  lemma SortedTail<T, K>(t: seq<T>, key: T -> K, lt: (K, K) -> bool)
    requires t != [] && SortedBy(t, key, lt)
    ensures SortedBy(t[1..], key, lt)
  {
    forall i, j | 0 <= i < j < |t[1..]| ensures !lt(key(t[1..][j]), key(t[1..][i])) {
      assert t[1..][i] == t[i + 1] && t[1..][j] == t[j + 1];
    }
  }

  /** A head no later element's key is below keeps a sorted list sorted. */
  lemma ConsSorted<T, K>(h: T, u: seq<T>, key: T -> K, lt: (K, K) -> bool)
    requires SortedBy(u, key, lt) && forall j :: 0 <= j < |u| ==> !lt(key(u[j]), key(h))
    ensures SortedBy([h] + u, key, lt)
  {
    var r := [h] + u;
    forall i, j | 0 <= i < j < |r| ensures !lt(key(r[j]), key(r[i])) {
      if i > 0 {
        assert r[i] == u[i - 1] && r[j] == u[j - 1];
      } else {
        assert r[j] == u[j - 1];
      }
    }
  }

  /** The sort's output is ordered by `key`. */
  lemma {:induction false} SortBySorted<T, K(!new)>(s: seq<T>, key: T -> K, lt: (K, K) -> bool)
    requires StrictTotalOrder(lt)
    ensures SortedBy(SortBy(s, key, lt), key, lt)
  {
    if s != [] {
      SortBySorted(s[1..], key, lt);
      InsertSorted(s[0], SortBy(s[1..], key, lt), key, lt);
    }
  }

  lemma KeyClassCons<T, K>(h: T, t: seq<T>, key: T -> K, k: K)
    ensures KeyClass([h] + t, key, k) == (if key(h) == k then [h] else []) + KeyClass(t, key, k)
  {
    assert ([h] + t)[1..] == t;
  }

  lemma {:induction false} InsertKeyClass<T, K(!new)>(x: T, t: seq<T>, key: T -> K, lt: (K, K) -> bool, k: K)
    requires forall a :: !lt(a, a)
    ensures KeyClass(Insert(x, t, key, lt), key, k) == (if key(x) == k then [x] else []) + KeyClass(t, key, k)
  {
    if t == [] {
      KeyClassCons(x, [], key, k);
    } else if lt(key(t[0]), key(x)) {
      var u := Insert(x, t[1..], key, lt);
      var rest := KeyClass(t[1..], key, k);
      assert Insert(x, t, key, lt) == [t[0]] + u;
      InsertKeyClass(x, t[1..], key, lt, k);
      KeyClassCons(t[0], u, key, k);
      if key(x) == k {
        assert key(t[0]) != k;
        assert KeyClass(u, key, k) == [x] + rest;
        assert KeyClass(t, key, k) == rest;
      } else {
        assert KeyClass(u, key, k) == rest;
      }
    } else {
      assert Insert(x, t, key, lt) == [x] + t;
      KeyClassCons(x, t, key, k);
    }
  }

  /** Stability: for every key, the elements carrying that key keep their input order. */
  lemma {:induction false} SortByStable<T, K(!new)>(s: seq<T>, key: T -> K, lt: (K, K) -> bool, k: K)
    requires StrictTotalOrder(lt)
    ensures KeyClass(SortBy(s, key, lt), key, k) == KeyClass(s, key, k)
  {
    if s != [] {
      SortByStable(s[1..], key, lt, k);
      InsertKeyClass(s[0], SortBy(s[1..], key, lt), key, lt, k);
    }
  }

  lemma NumericOrders()
    ensures StrictTotalOrder(RealAsc) && StrictTotalOrder(RealDesc) && StrictTotalOrder(IntDesc)
  {
  }

  /** Code-point lexicographic order on strings. */
  predicate StrLt(a: string, b: string)
  {
    if a == [] then b != []
    else if b == [] then false
    else a[0] < b[0] || (a[0] == b[0] && StrLt(a[1..], b[1..]))
  }

  const StrAsc: (string, string) -> bool := (a: string, b: string) => StrLt(a, b)

  lemma {:induction false} StrLtIrreflexive(a: string)
    ensures !StrLt(a, a)
  {
    if a != [] {
      StrLtIrreflexive(a[1..]);
    }
  }

  lemma {:induction false} StrLtTransitive(a: string, b: string, c: string)
    requires StrLt(a, b) && StrLt(b, c)
    ensures StrLt(a, c)
  {
    if a != [] && a[0] == b[0] && b[0] == c[0] {
      StrLtTransitive(a[1..], b[1..], c[1..]);
    }
  }

  lemma {:induction false} StrLtTotal(a: string, b: string)
    requires a != b
    ensures StrLt(a, b) || StrLt(b, a)
  {
    if a != [] && b != [] && a[0] == b[0] {
      assert a == [a[0]] + a[1..] && b == [b[0]] + b[1..];
      StrLtTotal(a[1..], b[1..]);
    }
  }

  lemma StrAscTotal()
    ensures StrictTotalOrder(StrAsc)
  {
    forall a ensures !StrAsc(a, a) {
      StrLtIrreflexive(a);
    }
    forall a, b, c | StrAsc(a, b) && StrAsc(b, c) ensures StrAsc(a, c) {
      StrLtTransitive(a, b, c);
    }
    forall a, b | a != b ensures StrAsc(a, b) || StrAsc(b, a) {
      StrLtTotal(a, b);
    }
  }
}
