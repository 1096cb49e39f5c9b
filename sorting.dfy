/** Python's `sorted` (a stable sort under a comparison), `sorted(set(xs))`,
    set-like filtering of lists, and the orders the repository sorts by:
    strings by code point, pairs of strings, integers and reals. */
module Sorting {

  ghost predicate Total<T(!new)>(le: (T, T) -> bool) {
    forall x, y :: le(x, y) || le(y, x)
  }

  ghost predicate Transitive<T(!new)>(le: (T, T) -> bool) {
    forall x, y, z :: le(x, y) && le(y, z) ==> le(x, z)
  }

  ghost predicate Antisymmetric<T(!new)>(le: (T, T) -> bool) {
    forall x, y :: le(x, y) && le(y, x) ==> x == y
  }

  ghost predicate TotalPreorder<T(!new)>(le: (T, T) -> bool) {
    Total(le) && Transitive(le)
  }

  ghost predicate TotalOrder<T(!new)>(le: (T, T) -> bool) {
    TotalPreorder(le) && Antisymmetric(le)
  }

  ghost predicate SortedBy<T>(s: seq<T>, le: (T, T) -> bool) {
    forall i, j :: 0 <= i < j < |s| ==> le(s[i], s[j])
  }

  predicate NoDups<T(==)>(s: seq<T>) {
    forall i, j :: 0 <= i < j < |s| ==> s[i] != s[j]
  }

  /** Inserts `x` before the first element it is not after; equal elements
      keep their relative order. */
  function Insert<T>(x: T, s: seq<T>, le: (T, T) -> bool): (r: seq<T>)
    ensures multiset(r) == multiset(s) + multiset{x}
  {
    if s == [] then [x]
    else if le(x, s[0]) then [x] + s
    else
      assert s == [s[0]] + s[1..];
      [s[0]] + Insert(x, s[1..], le)
  }

  /** Insertion sort from the back, so that of two equivalent elements the
      one that came first stays first, as Python's stable `sorted` does. */
  function Sort<T>(s: seq<T>, le: (T, T) -> bool): (r: seq<T>)
    ensures multiset(r) == multiset(s)
    ensures |r| == |s|
  {
    if s == [] then []
    else
      assert s == [s[0]] + s[1..];
      Insert(s[0], Sort(s[1..], le), le)
  }

  lemma {:induction false} InsertSorted<T(!new)>(x: T, s: seq<T>, le: (T, T) -> bool)
    requires TotalPreorder(le)
    requires SortedBy(s, le)
    ensures SortedBy(Insert(x, s, le), le)
  {
    if s != [] && !le(x, s[0]) {
      InsertSorted(x, s[1..], le);
      var r := Insert(x, s[1..], le);
      assert le(s[0], x);
      forall k | 0 <= k < |r| ensures le(s[0], r[k]) {
        assert r[k] in multiset(r);
        assert r[k] in multiset(s[1..]) + multiset{x};
        if r[k] != x {
          assert r[k] in s[1..];
        }
      }
    }
  }

  /** `sorted(s)` is ordered under any total preorder. */
  lemma {:induction false} SortSorted<T(!new)>(s: seq<T>, le: (T, T) -> bool)
    requires TotalPreorder(le)
    ensures SortedBy(Sort(s, le), le)
  {
    if s != [] {
      SortSorted(s[1..], le);
      InsertSorted(s[0], Sort(s[1..], le), le);
    }
  }

  lemma SameElements<T>(a: seq<T>, b: seq<T>)
    requires multiset(a) == multiset(b)
    ensures forall x :: x in a <==> x in b
  {
    forall x ensures x in a <==> x in b {
      assert x in a <==> x in multiset(a);
      assert x in b <==> x in multiset(b);
    }
  }

  /** `list(set(s))` in some order: each element once. */
  function Dedup<T(==,!new)>(s: seq<T>): (r: seq<T>)
    ensures NoDups(r)
    ensures forall x :: x in r <==> x in s
  {
    if s == [] then []
    else if s[0] in s[1..] then Dedup(s[1..])
    else [s[0]] + Dedup(s[1..])
  }

  /** `sorted(set(s))` */
  function SortedSet<T(==,!new)>(s: seq<T>, le: (T, T) -> bool): seq<T> {
    Sort(Dedup(s), le)
  }

  lemma MultisetOfNoDups<T>(s: seq<T>, x: T)
    requires NoDups(s)
    requires x in s
    ensures multiset(s)[x] == 1
  {
    var i :| 0 <= i < |s| && s[i] == x;
    assert s == s[..i] + [x] + s[i + 1..];
    assert x !in s[..i] && x !in s[i + 1..];
    assert multiset(s[..i])[x] == 0 && multiset(s[i + 1..])[x] == 0;
  }

  lemma {:induction false} NoDupsOfPermutation<T>(a: seq<T>, b: seq<T>)
    requires multiset(a) == multiset(b)
    requires NoDups(a)
    ensures NoDups(b)
  {
    forall i, j | 0 <= i < j < |b| ensures b[i] != b[j] {
      if b[i] == b[j] {
        assert b == b[..i] + [b[i]] + b[i + 1..j] + [b[j]] + b[j + 1..];
        assert multiset(b)[b[i]] >= 2;
        SameElements(a, b);
        MultisetOfNoDups(a, b[i]);
      }
    }
  }

  /** `sorted(set(s))` holds each element of `s` exactly once, in order. */
  lemma SortedSetSpec<T(!new)>(s: seq<T>, le: (T, T) -> bool)
    requires TotalPreorder(le)
    ensures SortedBy(SortedSet(s, le), le)
    ensures NoDups(SortedSet(s, le))
    ensures forall x :: x in SortedSet(s, le) <==> x in s
  {
    SortSorted(Dedup(s), le);
    NoDupsOfPermutation(Dedup(s), Sort(Dedup(s), le));
    SameElements(Dedup(s), Sort(Dedup(s), le));
  }

  /** Under a total order a duplicate-free sorted list is determined by its
      elements. */
  lemma {:induction false} SortedUnique<T(!new)>(a: seq<T>, b: seq<T>, le: (T, T) -> bool)
    requires TotalOrder(le)
    requires SortedBy(a, le) && NoDups(a)
    requires SortedBy(b, le) && NoDups(b)
    requires forall x :: x in a <==> x in b
    ensures a == b
  {
    assert b == [] || b[0] in b;
    if a != [] {
      assert a[0] in b;
      assert b != [];
      assert b[0] in a;
      var i :| 0 <= i < |a| && a[i] == b[0];
      var j :| 0 <= j < |b| && b[j] == a[0];
      assert le(a[0], a[i]);
      forall x ensures x in a[1..] <==> x in b[1..] {
        if x in a[1..] {
          assert x != a[0];
          assert x in b;
        }
        if x in b[1..] {
          assert x != b[0];
          assert x in a;
        }
      }
      SortedUnique(a[1..], b[1..], le);
      assert a == [a[0]] + a[1..];
      assert b == [b[0]] + b[1..];
    }
  }

  // ---------------------------------------------------------------------------
  // Set-like list operations

  /** `[x for x in s if x not in excl]` */
  function Without<T(==,!new)>(s: seq<T>, excl: seq<T>): (r: seq<T>)
    ensures forall x :: x in r <==> x in s && x !in excl
    ensures |r| <= |s|
  {
    if s == [] then []
    else if s[0] in excl then Without(s[1..], excl)
    else [s[0]] + Without(s[1..], excl)
  }

  lemma {:induction false} WithoutAll<T(!new)>(s: seq<T>, excl: seq<T>)
    requires forall x :: x in s ==> x in excl
    ensures Without(s, excl) == []
  {
    if s != [] {
      WithoutAll(s[1..], excl);
    }
  }

  /** `[x for x in s if x in incl]` */
  function Within<T(==,!new)>(s: seq<T>, incl: seq<T>): (r: seq<T>)
    ensures forall x :: x in r <==> x in s && x in incl
    ensures |r| <= |s|
  {
    if s == [] then []
    else if s[0] in incl then [s[0]] + Within(s[1..], incl)
    else Within(s[1..], incl)
  }

  // ---------------------------------------------------------------------------
  // Orders

  /** Python's `<=` on strings: lexicographic by code point. */
  predicate StrLe(a: string, b: string) {
    |a| == 0 || (|b| > 0 && (a[0] < b[0] || (a[0] == b[0] && StrLe(a[1..], b[1..]))))
  }

  lemma {:induction false} StrLeTotal(a: string, b: string)
    ensures StrLe(a, b) || StrLe(b, a)
  {
    if |a| > 0 && |b| > 0 && a[0] == b[0] {
      StrLeTotal(a[1..], b[1..]);
    }
  }

  lemma {:induction false} StrLeTrans(a: string, b: string, c: string)
    requires StrLe(a, b) && StrLe(b, c)
    ensures StrLe(a, c)
  {
    if |a| > 0 && a[0] == b[0] && b[0] == c[0] {
      StrLeTrans(a[1..], b[1..], c[1..]);
    }
  }

  lemma {:induction false} StrLeAntisym(a: string, b: string)
    requires StrLe(a, b) && StrLe(b, a)
    ensures a == b
  {
    if |a| > 0 {
      StrLeAntisym(a[1..], b[1..]);
      assert a == [a[0]] + a[1..];
      assert b == [b[0]] + b[1..];
    }
  }

  lemma StrLeTotalOrder()
    ensures TotalOrder(StrLe)
  {
    forall a, b ensures StrLe(a, b) || StrLe(b, a) { StrLeTotal(a, b); }
    forall a, b, c | StrLe(a, b) && StrLe(b, c) ensures StrLe(a, c) { StrLeTrans(a, b, c); }
    forall a, b | StrLe(a, b) && StrLe(b, a) ensures a == b { StrLeAntisym(a, b); }
  }

  /** Python's `<=` on tuples of two strings. */
  predicate PairLe(p: (string, string), q: (string, string)) {
    if p.0 == q.0 then StrLe(p.1, q.1) else StrLe(p.0, q.0)
  }

  lemma PairLeTotalOrder()
    ensures TotalOrder(PairLe)
  {
    StrLeTotalOrder();
  }

  predicate IntLe(a: int, b: int) { a <= b }

  predicate RealLe(a: real, b: real) { a <= b }

  lemma IntLeTotalOrder()
    ensures TotalOrder(IntLe)
  {
  }

  /** A sorted, duplicate-free list of strings: the on-disk form of every
      symbol and name list in the repository. */
  function SortedStrings(s: seq<string>): seq<string> {
    SortedSet(s, StrLe)
  }

  predicate StrictlySortedStrings(s: seq<string>) {
    forall i, j :: 0 <= i < j < |s| ==> StrLe(s[i], s[j]) && s[i] != s[j]
  }

  /** `sorted(set(s))` on strings is strictly increasing, holds exactly the
      elements of `s`, and is the only list with both properties. */
  lemma SortedStringsSpec(s: seq<string>)
    ensures StrictlySortedStrings(SortedStrings(s))
    ensures forall x :: x in SortedStrings(s) <==> x in s
  {
    StrLeTotalOrder();
    SortedSetSpec(s, StrLe);
  }

  lemma SortedStringsUnique(s: seq<string>, t: seq<string>)
    requires StrictlySortedStrings(t)
    requires forall x :: x in t <==> x in s
    ensures SortedStrings(s) == t
  {
    StrLeTotalOrder();
    SortedSetSpec(s, StrLe);
    SortedUnique(SortedStrings(s), t, StrLe);
  }
}
