/** Stable sorting by an order on elements, the way Python's and JavaScript's library sorts promise it. */
module Sorting {

  ghost predicate TotalPreorder<T(!new)>(leq: (T, T) -> bool) {
    && (forall a, b :: leq(a, b) || leq(b, a))
    && (forall a, b, c :: leq(a, b) && leq(b, c) ==> leq(a, c))
  }

  predicate Ordered<T>(s: seq<T>, leq: (T, T) -> bool) {
    forall j, k :: 0 <= j < k < |s| ==> leq(s[j], s[k])
  }

  predicate Distinct<T(==)>(s: seq<T>) {
    forall j, k :: 0 <= j < k < |s| ==> s[j] != s[k]
  }

  function Insert<T>(x: T, s: seq<T>, leq: (T, T) -> bool): seq<T> {
    if s == [] || leq(x, s[0]) then [x] + s else [s[0]] + Insert(x, s[1..], leq)
  }

  /** Insertion from the right keeps equal elements in the order they came in. */
  function StableSort<T>(s: seq<T>, leq: (T, T) -> bool): seq<T> {
    if s == [] then [] else Insert(s[0], StableSort(s[1..], leq), leq)
  }

  lemma {:induction false} InsertElements<T>(x: T, s: seq<T>, leq: (T, T) -> bool)
    ensures multiset(Insert(x, s, leq)) == multiset(s) + multiset{x}
  {
    if s != [] && !leq(x, s[0]) {
      InsertElements(x, s[1..], leq);
      assert s == [s[0]] + s[1..];
    }
  }

  lemma {:induction false} SortElements<T>(s: seq<T>, leq: (T, T) -> bool)
    ensures multiset(StableSort(s, leq)) == multiset(s)
  {
    if s != [] {
      SortElements(s[1..], leq);
      InsertElements(s[0], StableSort(s[1..], leq), leq);
      assert s == [s[0]] + s[1..];
    }
  }

  lemma {:induction false} InsertOrdered<T(!new)>(x: T, s: seq<T>, leq: (T, T) -> bool)
    requires TotalPreorder(leq) && Ordered(s, leq)
    ensures Ordered(Insert(x, s, leq), leq)
  {
    if s != [] && !leq(x, s[0]) {
      InsertOrdered(x, s[1..], leq);
      InsertElements(x, s[1..], leq);
      var r := Insert(x, s[1..], leq);
      forall k | 0 <= k < |r| ensures leq(s[0], r[k]) {
        assert r[k] in multiset(r);
        assert r[k] == x || r[k] in s[1..];
      }
    }
  }

  lemma {:induction false} SortOrdered<T(!new)>(s: seq<T>, leq: (T, T) -> bool)
    requires TotalPreorder(leq)
    ensures Ordered(StableSort(s, leq), leq)
  {
    if s != [] {
      SortOrdered(s[1..], leq);
      InsertOrdered(s[0], StableSort(s[1..], leq), leq);
    }
  }

  lemma SameElements<T>(s: seq<T>, r: seq<T>)
    requires multiset(s) == multiset(r)
    ensures |s| == |r|
    ensures forall x :: x in s <==> x in r
  {
    assert |multiset(s)| == |s| && |multiset(r)| == |r|;
    forall x ensures x in s <==> x in r {
      assert x in s <==> x in multiset(s);
      assert x in r <==> x in multiset(r);
    }
  }

  lemma CountInDistinct<T>(s: seq<T>, x: T)
    ensures Distinct(s) ==> multiset(s)[x] <= 1
  {
    if s != [] && Distinct(s) {
      assert s == [s[0]] + s[1..];
      CountInDistinct(s[1..], x);
      if s[0] == x {
        assert x !in s[1..];
      }
    }
  }

  lemma DistinctJoin<T>(a: seq<T>, b: seq<T>)
    requires Distinct(a) && Distinct(b) && forall x :: x in a ==> x !in b
    ensures Distinct(a + b)
  {
    forall j, k | 0 <= j < k < |a + b| ensures (a + b)[j] != (a + b)[k] {
      if j < |a| && k >= |a| {
        assert a[j] in a && b[k - |a|] in b;
      }
    }
  }

  lemma RepeatedCounts<T>(s: seq<T>, j: nat, k: nat)
    requires j < k < |s|
    ensures s[j] == s[k] ==> multiset(s)[s[j]] >= 2
  {
    assert s == s[..k] + [s[k]] + s[k + 1..];
    assert s[..k][j] == s[j];
    assert multiset(s[..k])[s[j]] >= 1;
  }

  lemma DistinctByCount<T>(s: seq<T>)
    requires forall x :: multiset(s)[x] <= 1
    ensures Distinct(s)
  {
    forall j, k | 0 <= j < k < |s| ensures s[j] != s[k] { RepeatedCounts(s, j, k); }
  }

  lemma SameElementsDistinct<T>(s: seq<T>, r: seq<T>)
    requires multiset(s) == multiset(r) && Distinct(s)
    ensures Distinct(r)
  {
    forall x ensures multiset(r)[x] <= 1 { CountInDistinct(s, x); }
    DistinctByCount(r);
  }

  // ---------------------------------------------------------------- strings, by code unit

  predicate LexLeq(a: string, b: string) {
    a == "" || (b != "" && (a[0] < b[0] || (a[0] == b[0] && LexLeq(a[1..], b[1..]))))
  }

  lemma {:induction false} LexTotal(a: string, b: string)
    ensures LexLeq(a, b) || LexLeq(b, a)
    ensures LexLeq(a, b) && LexLeq(b, a) ==> a == b
  {
    if a != "" && b != "" {
      LexTotal(a[1..], b[1..]);
      assert a == [a[0]] + a[1..] && b == [b[0]] + b[1..];
    }
  }

  lemma {:induction false} LexTransitive(a: string, b: string, c: string)
    requires LexLeq(a, b) && LexLeq(b, c)
    ensures LexLeq(a, c)
  {
    if a != "" && a[0] == b[0] && b[0] == c[0] {
      LexTransitive(a[1..], b[1..], c[1..]);
    }
  }

  /** Strings go by the first code unit they differ in, a prefix before what it begins. */
  lemma {:induction false} LexByFirstDifference(shared: string, a: string, b: string)
    ensures a == "" ==> LexLeq(shared + a, shared + b)
    ensures a != "" && b != "" && a[0] < b[0] ==> LexLeq(shared + a, shared + b) && !LexLeq(shared + b, shared + a)
  {
    if shared == "" {
      assert shared + a == a && shared + b == b;
    } else {
      assert (shared + a)[1..] == shared[1..] + a && (shared + b)[1..] == shared[1..] + b;
      LexByFirstDifference(shared[1..], a, b);
    }
  }
}
