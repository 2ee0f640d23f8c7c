/** The order of exam candidates: two stable passes on the server, one comparator in the browser. */
module Ranking {
  import opened Sorting
  import opened Selection

  datatype SortBy = BySelectionScore | ByAddDate | BySuccessCount | ByFailureCount

  type Row = Candidate

  function Key(r: Row, column: SortBy): real {
    match column
    case BySelectionScore => r.1
    case ByAddDate => r.0.createdAt as real
    case BySuccessCount => r.0.tracking.correct as real
    case ByFailureCount => r.0.tracking.failed as real
  }

  /** The browser reads a date through its millisecond clock. */
  function BrowserKey(r: Row, column: SortBy): real {
    match column
    case ByAddDate => (r.0.createdAt / 1000) as real
    case _ => Key(r, column)
  }

  function IdLeq(): (Row, Row) -> bool {
    (a: Row, b: Row) => LexLeq(a.0.id, b.0.id)
  }

  function KeyLeq(key: Row -> real, desc: bool): (Row, Row) -> bool {
    (a, b) => if desc then key(a) >= key(b) else key(a) <= key(b)
  }

  /** Ascending ids among equal keys, keys in the requested direction. */
  function Lexicographic<T>(first: (T, T) -> bool, second: (T, T) -> bool): (T, T) -> bool {
    (a, b) => first(a, b) && (first(b, a) ==> second(a, b))
  }

  // ---------------------------------------------------------------- two stable passes make one order

  lemma {:induction false} InsertLexicographic<T(!new)>(x: T, s: seq<T>, first: (T, T) -> bool, second: (T, T) -> bool)
    requires TotalPreorder(first) && Ordered(s, Lexicographic(first, second))
    requires forall y :: y in s ==> second(x, y)
    ensures Ordered(Insert(x, s, first), Lexicographic(first, second))
  {
    if s == [] {
    } else if first(x, s[0]) {
      forall k | 0 <= k < |s| ensures Lexicographic(first, second)(x, s[k]) {
        assert k > 0 ==> Lexicographic(first, second)(s[0], s[k]);
        assert s[k] in s;
      }
    } else {
      InsertLexicographic(x, s[1..], first, second);
      InsertElements(x, s[1..], first);
      var r := Insert(x, s[1..], first);
      forall k | 0 <= k < |r| ensures Lexicographic(first, second)(s[0], r[k]) {
        assert r[k] in multiset(r);
        if r[k] != x {
          assert r[k] in s[1..];
          var j :| 0 <= j < |s| - 1 && s[1..][j] == r[k];
          assert Lexicographic(first, second)(s[0], s[j + 1]);
        }
      }
    }
  }

  /** Sorting a list already in `second` order stably by `first` orders it by both. */
  lemma {:induction false} SecondPassKeepsFirst<T(!new)>(s: seq<T>, first: (T, T) -> bool, second: (T, T) -> bool)
    requires TotalPreorder(first) && Ordered(s, second)
    ensures Ordered(StableSort(s, first), Lexicographic(first, second))
  {
    if s != [] {
      assert forall j, k :: 0 <= j < k < |s| - 1 ==> second(s[1..][j], s[1..][k]) by {
        assert forall j :: 0 <= j < |s| - 1 ==> s[1..][j] == s[j + 1];
      }
      SecondPassKeepsFirst(s[1..], first, second);
      var rest := StableSort(s[1..], first);
      SortElements(s[1..], first);
      SameElements(rest, s[1..]);
      InsertLexicographic(s[0], rest, first, second);
    }
  }

  predicate Antisymmetric<T(==)>(s: seq<T>, leq: (T, T) -> bool) {
    forall a, b | a in s && b in s && leq(a, b) && leq(b, a) :: a == b
  }

  lemma FirstIsLeast<T>(s: seq<T>, x: T, leq: (T, T) -> bool)
    requires Ordered(s, leq) && x in s
    ensures x == s[0] || leq(s[0], x)
  {
  }

  lemma RestElements<T>(s: seq<T>)
    requires s != []
    ensures multiset(s[1..]) == multiset(s) - multiset{s[0]}
    ensures forall x :: x in s[1..] ==> x in s
  {
    assert s == [s[0]] + s[1..];
  }

  /** There is only one way to put given elements in an antisymmetric order. */
  lemma {:induction false} OneOrder<T>(s: seq<T>, r: seq<T>, leq: (T, T) -> bool)
    requires multiset(s) == multiset(r) && Ordered(s, leq) && Ordered(r, leq) && Antisymmetric(s, leq)
    ensures s == r
  {
    SameElements(s, r);
    if s != [] {
      FirstIsLeast(s, r[0], leq);
      FirstIsLeast(r, s[0], leq);
      assert s[0] == r[0];
      RestElements(s);
      RestElements(r);
      OneOrder(s[1..], r[1..], leq);
      assert s == [s[0]] + s[1..] && r == [r[0]] + r[1..];
    }
  }

  // ---------------------------------------------------------------- the server

  function Scored(problems: seq<Problem>, keep: Problem -> bool, cfg: Config, now: int, root: nat -> real): seq<Row> {
    var eligible := Filter(Filter(problems, keep), p => Eligible(p, cfg, now));
    seq(|eligible|, k requires 0 <= k < |eligible| => (eligible[k], Score(eligible[k], cfg, now, root)))
  }

  function Rank(rows: seq<Row>, column: SortBy, desc: bool): seq<Row> {
    StableSort(StableSort(rows, IdLeq()), KeyLeq(r => Key(r, column), desc))
  }

  predicate DistinctRows(rows: seq<Row>) {
    forall j, k :: 0 <= j < k < |rows| ==> rows[j].0.id != rows[k].0.id
  }

  function RowOrder(key: Row -> real, desc: bool): (Row, Row) -> bool {
    Lexicographic(KeyLeq(key, desc), IdLeq())
  }

  lemma OrdersAreTotal(key: Row -> real, desc: bool)
    ensures TotalPreorder(KeyLeq(key, desc)) && TotalPreorder(IdLeq())
  {
    forall a: Row, b: Row ensures IdLeq()(a, b) || IdLeq()(b, a) { LexTotal(a.0.id, b.0.id); }
    forall a: Row, b: Row, c: Row | IdLeq()(a, b) && IdLeq()(b, c) ensures IdLeq()(a, c) {
      LexTransitive(a.0.id, b.0.id, c.0.id);
    }
  }

  lemma RowsApart(rows: seq<Row>, key: Row -> real, desc: bool)
    requires DistinctRows(rows)
    ensures Antisymmetric(rows, RowOrder(key, desc))
  {
    forall a, b | a in rows && b in rows && RowOrder(key, desc)(a, b) && RowOrder(key, desc)(b, a) ensures a == b {
      LexTotal(a.0.id, b.0.id);
    }
  }

  /** The ranking is the one arrangement of the rows by key in the requested direction and, among equal
      keys, by ascending id. */
  lemma RankIsTheOrder(rows: seq<Row>, column: SortBy, desc: bool, other: seq<Row>)
    requires DistinctRows(rows)
    ensures multiset(Rank(rows, column, desc)) == multiset(rows)
    ensures Ordered(Rank(rows, column, desc), RowOrder(r => Key(r, column), desc))
    ensures multiset(other) == multiset(rows) && Ordered(other, RowOrder(r => Key(r, column), desc)) ==>
            other == Rank(rows, column, desc)
  {
    var key := (r: Row) => Key(r, column);
    var first := StableSort(rows, IdLeq());
    OrdersAreTotal(key, desc);
    SortOrdered(rows, IdLeq());
    SortElements(rows, IdLeq());
    SortElements(first, KeyLeq(key, desc));
    SecondPassKeepsFirst(first, KeyLeq(key, desc), IdLeq());
    RowsApart(rows, key, desc);
    if multiset(other) == multiset(rows) && Ordered(other, RowOrder(key, desc)) {
      SameElements(other, rows);
      OneOrder(other, Rank(rows, column, desc), RowOrder(key, desc));
    }
  }

  /** What the columns sort by: of two rows of the ranking the one in front has the smaller value, or the
      larger in descending order, and of equal values the smaller id. */
  lemma RankedByColumn(rows: seq<Row>, column: SortBy, desc: bool, j: nat, k: nat)
    requires DistinctRows(rows) && j < k < |rows|
    ensures |Rank(rows, column, desc)| == |rows|
    ensures var (p, score), (q, other) := Rank(rows, column, desc)[j], Rank(rows, column, desc)[k];
            && (column == BySelectionScore ==>
                  (if desc then score >= other else score <= other) && (score == other ==> LexLeq(p.id, q.id)))
            && (column == ByAddDate ==>
                  && (if desc then p.createdAt >= q.createdAt else p.createdAt <= q.createdAt)
                  && (p.createdAt == q.createdAt ==> LexLeq(p.id, q.id)))
            && (column == BySuccessCount ==>
                  && (if desc then p.tracking.correct >= q.tracking.correct
                      else p.tracking.correct <= q.tracking.correct)
                  && (p.tracking.correct == q.tracking.correct ==> LexLeq(p.id, q.id)))
            && (column == ByFailureCount ==>
                  && (if desc then p.tracking.failed >= q.tracking.failed else p.tracking.failed <= q.tracking.failed)
                  && (p.tracking.failed == q.tracking.failed ==> LexLeq(p.id, q.id)))
  {
    hide Rank, LexLeq;
    RankIsTheOrder(rows, column, desc, []);
    SameElements(Rank(rows, column, desc), rows);
    assert RowOrder(r => Key(r, column), desc)(Rank(rows, column, desc)[j], Rank(rows, column, desc)[k]);
  }

  predicate DistinctProblems(problems: seq<Problem>) {
    forall j, k :: 0 <= j < k < |problems| ==> problems[j].id != problems[k].id
  }

  lemma ScoredRows(problems: seq<Problem>, keep: Problem -> bool, cfg: Config, now: int, root: nat -> real)
    requires DistinctProblems(problems)
    ensures var rows := Scored(problems, keep, cfg, now, root);
            && DistinctRows(rows)
            && forall r :: r in rows <==>
                 r.0 in problems && keep(r.0) && Eligible(r.0, cfg, now) && r.1 == Score(r.0, cfg, now, root)
  {
    hide Eligible, Score;
    var kept := Filter(problems, keep);
    var eligible := Filter(kept, p => Eligible(p, cfg, now));
    FilterKeeps(problems, keep);
    FilterKeeps(kept, p => Eligible(p, cfg, now));
    assert Distinct(problems);
    forall j, k | 0 <= j < k < |eligible| ensures eligible[j].id != eligible[k].id {
      assert eligible[j] in eligible && eligible[k] in eligible;
      var a :| 0 <= a < |problems| && problems[a] == eligible[j];
      var b :| 0 <= b < |problems| && problems[b] == eligible[k];
    }
    var rows := Scored(problems, keep, cfg, now, root);
    forall r: Row | r.0 in eligible && r.1 == Score(r.0, cfg, now, root) ensures r in rows {
      var k :| 0 <= k < |eligible| && eligible[k] == r.0;
      assert rows[k] == r;
    }
  }

  /** Exactly the eligible problems the keyword keeps, each with its score, in the one order. */
  method RankEligible(problems: seq<Problem>, keep: Problem -> bool, cfg: Config, now: int, root: nat -> real,
                      column: SortBy, desc: bool)
    returns (ranked: seq<Row>)
    requires DistinctProblems(problems)
    ensures ranked == Rank(Scored(problems, keep, cfg, now, root), column, desc)
    ensures Ordered(ranked, RowOrder(r => Key(r, column), desc))
    ensures forall r :: r in ranked <==>
              r.0 in problems && keep(r.0) && Eligible(r.0, cfg, now) && r.1 == Score(r.0, cfg, now, root)
  {
    hide Eligible, Score, Ordered;
    var rows := Scored(problems, keep, cfg, now, root);
    ScoredRows(problems, keep, cfg, now, root);
    ranked := StableSort(rows, IdLeq());
    ranked := StableSort(ranked, KeyLeq(r => Key(r, column), desc));
    RankIsTheOrder(rows, column, desc, ranked);
    SameElements(ranked, rows);
  }

  // ---------------------------------------------------------------- the browser

  /** The comparator handed to `Array.sort`: negative when the first row comes first. */
  function Compare(a: Row, b: Row, column: SortBy, desc: bool): int {
    var av, bv := BrowserKey(a, column), BrowserKey(b, column);
    if av != bv then
      var compared := if av < bv then -1 else 1;
      if desc then -compared else compared
    else if LexLeq(a.0.id, b.0.id) && a.0.id != b.0.id then -1 else 1
  }

  function Comparator(column: SortBy, desc: bool): (Row, Row) -> bool {
    (a, b) => a == b || Compare(a, b, column, desc) < 0
  }

  lemma ComparatorIsOrder(a: Row, b: Row, column: SortBy, desc: bool)
    requires a == b || a.0.id != b.0.id
    ensures Comparator(column, desc)(a, b) <==> RowOrder(r => BrowserKey(r, column), desc)(a, b)
  {
    LexTotal(a.0.id, b.0.id);
  }

  predicate Sorted(rows: seq<Row>, column: SortBy, desc: bool) {
    forall j, k :: 0 <= j < k < |rows| ==> Compare(rows[j], rows[k], column, desc) < 0
  }

  lemma SortedIsOrdered(rows: seq<Row>, column: SortBy, desc: bool)
    requires DistinctRows(rows) && Sorted(rows, column, desc)
    ensures Ordered(rows, RowOrder(r => BrowserKey(r, column), desc))
  {
    forall j, k | 0 <= j < k < |rows| ensures RowOrder(r => BrowserKey(r, column), desc)(rows[j], rows[k]) {
      ComparatorIsOrder(rows[j], rows[k], column, desc);
    }
  }

  lemma {:induction false} FilterOrdered(s: seq<Row>, f: Row -> bool, leq: (Row, Row) -> bool)
    requires Ordered(s, leq)
    ensures Ordered(Filter(s, f), leq)
  {
    if s != [] {
      FilterOrdered(s[1..], f, leq);
      FilterKeeps(s[1..], f);
      var rest := Filter(s[1..], f);
      forall k | 0 <= k < |rest| ensures leq(s[0], rest[k]) {
        assert rest[k] in rest;
        var j :| 0 <= j < |s| - 1 && s[1..][j] == rest[k];
        assert s[j + 1] == rest[k];
      }
    }
  }

  /** Both sides see the same dates: what a store with millisecond dates holds. */
  predicate WholeMilliseconds(rows: seq<Row>) {
    forall r | r in rows :: r.0.createdAt % 1000 == 0
  }

  /** Rows added within one millisecond have their ids in the order of their dates, or, for a descending
      list, in the opposite one. */
  predicate ClocksAgree(rows: seq<Row>, desc: bool) {
    forall a, b | a in rows && b in rows && WithinMillisecond(a, b) :: LexLeq(a.0.id, b.0.id) <==> !desc
  }

  predicate WithinMillisecond(a: Row, b: Row) {
    a.0.createdAt < b.0.createdAt && a.0.createdAt / 1000 == b.0.createdAt / 1000
  }

  lemma WholeMillisecondsAgree(rows: seq<Row>, desc: bool)
    requires WholeMilliseconds(rows)
    ensures ClocksAgree(rows, desc)
  {
    forall a, b | a in rows && b in rows ensures !WithinMillisecond(a, b) {}
  }

  /** The comparator in terms of the browser's keys. */
  lemma CompareMeans(x: Row, y: Row, column: SortBy, desc: bool)
    requires x.0.id != y.0.id
    ensures var kx, ky := BrowserKey(x, column), BrowserKey(y, column);
            Compare(x, y, column, desc) < 0 <==>
              if kx == ky then LexLeq(x.0.id, y.0.id) else if desc then kx > ky else kx < ky
  {
    hide LexLeq, BrowserKey;
  }

  lemma OrderMeans(x: Row, y: Row, column: SortBy, desc: bool)
    requires RowOrder(r => Key(r, column), desc)(x, y)
    ensures var kx, ky := Key(x, column), Key(y, column);
            (if desc then kx >= ky else kx <= ky) && (kx == ky ==> LexLeq(x.0.id, y.0.id))
  {
    hide LexLeq, Key;
  }

  lemma ClockKeys(x: Row, y: Row)
    ensures var kx, ky := Key(x, ByAddDate), Key(y, ByAddDate);
            var b, c := BrowserKey(x, ByAddDate), BrowserKey(y, ByAddDate);
            && (kx <= ky ==> b <= c)
            && (WithinMillisecond(x, y) <==> kx < ky && b == c)
  {
  }

  /** Of two rows in the server's order, the browser keeps that order unless the millisecond hides it. */
  lemma PairKept(x: Row, y: Row, column: SortBy, desc: bool)
    requires x.0.id != y.0.id && RowOrder(r => Key(r, column), desc)(x, y)
    ensures Compare(x, y, column, desc) < 0
            <==> (column.ByAddDate? ==> && (WithinMillisecond(x, y) ==> LexLeq(x.0.id, y.0.id))
                                        && (WithinMillisecond(y, x) ==> !LexLeq(y.0.id, x.0.id)))
  {
    hide LexLeq, Compare, RowOrder, WithinMillisecond;
    LexTotal(x.0.id, y.0.id);
    CompareMeans(x, y, column, desc);
    OrderMeans(x, y, column, desc);
    if column.ByAddDate? {
      hide Key, BrowserKey;
      ClockKeys(x, y);
      ClockKeys(y, x);
    }
  }

  /** A date that increases comes first in an ascending list and second in a descending one. */
  lemma DirectionOf(x: Row, y: Row, desc: bool)
    requires RowOrder(r => Key(r, ByAddDate), desc)(x, y)
    ensures WithinMillisecond(x, y) ==> !desc
    ensures WithinMillisecond(y, x) ==> desc
  {
    hide LexLeq;
  }

  /** Two places of the server's list. */
  lemma PlacesKept(rows: seq<Row>, column: SortBy, desc: bool, j: nat, k: nat)
    requires DistinctRows(rows) && j < k < |rows|
    ensures |Rank(rows, column, desc)| == |rows|
    ensures var x, y := Rank(rows, column, desc)[j], Rank(rows, column, desc)[k];
            && x in rows && y in rows
            && (Compare(x, y, column, desc) < 0 <==>
                  (column.ByAddDate? ==>
                     && (WithinMillisecond(x, y) ==> LexLeq(x.0.id, y.0.id))
                     && (WithinMillisecond(y, x) ==> !LexLeq(y.0.id, x.0.id))))
            && (column.ByAddDate? ==> (WithinMillisecond(x, y) ==> !desc) && (WithinMillisecond(y, x) ==> desc))
  {
    hide Compare, LexLeq, RowOrder, WithinMillisecond, Rank;
    var list := Rank(rows, column, desc);
    RankIsTheOrder(rows, column, desc, []);
    DistinctPermutation(rows, list);
    SameElements(list, rows);
    assert list[j] in list && list[k] in list;
    PairKept(list[j], list[k], column, desc);
    if column.ByAddDate? { DirectionOf(list[j], list[k], desc); }
  }

  lemma SortedMeansAgree(rows: seq<Row>, desc: bool)
    requires DistinctRows(rows) && Sorted(Rank(rows, ByAddDate, desc), ByAddDate, desc)
    ensures ClocksAgree(rows, desc)
  {
    hide Compare, LexLeq, RowOrder, WithinMillisecond, Rank;
    var list := Rank(rows, ByAddDate, desc);
    RankIsTheOrder(rows, ByAddDate, desc, []);
    SameElements(list, rows);
    forall a, b | a in rows && b in rows && WithinMillisecond(a, b) ensures LexLeq(a.0.id, b.0.id) <==> !desc {
      assert a in list && b in list;
      var j: nat :| j < |list| && list[j] == a;
      var k: nat :| k < |list| && list[k] == b;
      assert j != k by { NeverWithinItself(a); }
      if j < k {
        PlacesKept(rows, ByAddDate, desc, j, k);
        assert Compare(list[j], list[k], ByAddDate, desc) < 0;
      } else {
        PlacesKept(rows, ByAddDate, desc, k, j);
        assert Compare(list[k], list[j], ByAddDate, desc) < 0;
      }
    }
  }

  /** The server's list is in the browser's order exactly when, sorting by date, the rows of each
      millisecond have their ids in the order of the list. */
  lemma ServerListSortedIff(rows: seq<Row>, column: SortBy, desc: bool)
    requires DistinctRows(rows)
    ensures Sorted(Rank(rows, column, desc), column, desc) <==> (column.ByAddDate? ==> ClocksAgree(rows, desc))
  {
    hide Compare, LexLeq, RowOrder, WithinMillisecond, Rank;
    var list := Rank(rows, column, desc);
    if column.ByAddDate? && Sorted(list, column, desc) {
      SortedMeansAgree(rows, desc);
    }
    if column.ByAddDate? ==> ClocksAgree(rows, desc) {
      RankIsTheOrder(rows, column, desc, []);
      SameElements(list, rows);
      forall j, k | 0 <= j < k < |list| ensures Compare(list[j], list[k], column, desc) < 0 {
        PlacesKept(rows, column, desc, j, k);
      }
    }
  }

  lemma NeverWithinItself(a: Row)
    ensures !WithinMillisecond(a, a)
  {
  }

  lemma DistinctPermutation(rows: seq<Row>, s: seq<Row>)
    requires DistinctRows(rows) && multiset(s) == multiset(rows)
    ensures DistinctRows(s)
  {
    assert Distinct(rows);
    SameElements(s, rows);
    SameElementsDistinct(rows, s);
    forall j, k | 0 <= j < k < |s| ensures s[j].0.id != s[k].0.id {
      assert s[j] in s && s[k] in s;
      var a :| 0 <= a < |rows| && rows[a] == s[j];
      var b :| 0 <= b < |rows| && rows[b] == s[k];
    }
  }

  lemma FilteredRows(rows: seq<Row>, f: Row -> bool)
    requires DistinctRows(rows)
    ensures DistinctRows(Filter(rows, f)) && forall r :: r in Filter(rows, f) ==> r in rows
  {
    FilterKeeps(rows, f);
    assert Distinct(rows);
    var kept := Filter(rows, f);
    forall j, k | 0 <= j < k < |kept| ensures kept[j].0.id != kept[k].0.id {
      assert kept[j] in kept && kept[k] in kept;
      var a :| 0 <= a < |rows| && rows[a] == kept[j];
      var b :| 0 <= b < |rows| && rows[b] == kept[k];
    }
  }

  /** Whatever rows are ticked and in whatever order, sorting them with the browser's comparator gives
      the corresponding part of the server's list. By date this takes what `ServerListSortedIff` asks,
      which dates of whole milliseconds grant. */
  lemma BrowserOrderIsServerOrder(rows: seq<Row>, column: SortBy, desc: bool, ticked: Row -> bool, sorted: seq<Row>)
    requires DistinctRows(rows) && (column.ByAddDate? ==> ClocksAgree(rows, desc))
    requires multiset(sorted) == multiset(Filter(Rank(rows, column, desc), ticked)) && Sorted(sorted, column, desc)
    ensures sorted == Filter(Rank(rows, column, desc), ticked)
  {
    hide Ordered, Distinct, ClocksAgree, Antisymmetric, Sorted;
    var list := Rank(rows, column, desc);
    var part := Filter(list, ticked);
    RankIsTheOrder(rows, column, desc, []);
    DistinctPermutation(rows, list);
    FilteredRows(list, ticked);
    DistinctPermutation(part, sorted);
    SameElements(sorted, part);
    ServerListSortedIff(rows, column, desc);
    SortedIsOrdered(list, column, desc);
    SortedIsOrdered(sorted, column, desc);
    FilterOrdered(list, ticked, RowOrder(r => BrowserKey(r, column), desc));
    RowsApart(sorted, r => BrowserKey(r, column), desc);
    OneOrder(sorted, part, RowOrder(r => BrowserKey(r, column), desc));
  }

  /** Two rows added within one millisecond: the browser goes by id alone, so the two sides disagree
      exactly when the date and the id point different ways. */
  lemma WithinOneMillisecond(a: Row, b: Row, desc: bool)
    requires a.0.createdAt < b.0.createdAt && a.0.createdAt / 1000 == b.0.createdAt / 1000 && a.0.id != b.0.id
    ensures Rank([a, b], ByAddDate, desc) == (if desc then [b, a] else [a, b])
    ensures (Compare(a, b, ByAddDate, desc) < 0) <==> LexLeq(a.0.id, b.0.id)
    ensures Sorted(Rank([a, b], ByAddDate, desc), ByAddDate, desc) <==> (LexLeq(a.0.id, b.0.id) <==> !desc)
  {
    hide Rank, LexLeq;
    LexTotal(a.0.id, b.0.id);
    RankOfTwo(a, b, desc);
    var ranked := Rank([a, b], ByAddDate, desc);
    assert Sorted(ranked, ByAddDate, desc) <==> Compare(ranked[0], ranked[1], ByAddDate, desc) < 0;
  }

  lemma RankOfTwo(a: Row, b: Row, desc: bool)
    requires a.0.createdAt < b.0.createdAt && a.0.id != b.0.id
    ensures Rank([a, b], ByAddDate, desc) == (if desc then [b, a] else [a, b])
  {
    hide Rank, LexLeq;
    var expected := if desc then [b, a] else [a, b];
    assert RowOrder(r => Key(r, ByAddDate), desc)(expected[0], expected[1]);
    assert multiset(expected) == multiset([a, b]);
    RankIsTheOrder([a, b], ByAddDate, desc, expected);
  }
}
