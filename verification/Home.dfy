/** The home page's aggregates over practice attempts and submitted exams. */
module Home {
  import opened Prelude
  import opened Sorting

  type Id = string

  datatype Verdict = Correct | Incorrect | Undecided

  /** One attempt at a problem; the time may be missing from a malformed document. */
  datatype Attempt = Attempt(problem: Id, time: Option<int>, verdict: Verdict)

  /** A submitted exam: every item was attempted when the exam was submitted. */
  datatype ExamDoc = ExamDoc(submittedAt: Option<int>, items: seq<(Id, Verdict)>)

  function ItemAttempts(x: ExamDoc): (r: seq<Attempt>)
    ensures |r| == |x.items|
  {
    seq(|x.items|, k requires 0 <= k < |x.items| => Attempt(x.items[k].0, x.submittedAt, x.items[k].1))
  }

  function ExamAttempts(xs: seq<ExamDoc>): seq<Attempt> {
    if xs == [] then [] else ItemAttempts(xs[0]) + ExamAttempts(xs[1..])
  }

  function OfActive(es: seq<Attempt>, active: set<Id>): seq<Attempt> {
    if es == [] then []
    else (if es[0].problem in active then [es[0]] else []) + OfActive(es[1..], active)
  }

  lemma {:induction false} OfActiveJoins(a: seq<Attempt>, b: seq<Attempt>, active: set<Id>)
    ensures OfActive(a + b, active) == OfActive(a, active) + OfActive(b, active)
  {
    if a == [] {
      assert a + b == b;
    } else {
      assert (a + b)[1..] == a[1..] + b;
      OfActiveJoins(a[1..], b, active);
    }
  }

  lemma {:induction false} ExamAttemptsJoin(xs: seq<ExamDoc>, x: ExamDoc)
    ensures ExamAttempts(xs + [x]) == ExamAttempts(xs) + ItemAttempts(x)
  {
    if xs == [] {
      assert xs + [x] == [x] && [x][1..] == [];
    } else {
      assert (xs + [x])[1..] == xs[1..] + [x];
      ExamAttemptsJoin(xs[1..], x);
    }
  }

  type Marks = map<Id, (int, bool)>

  // ---------------------------------------------------------------- the folds

  function ConsiderMastery(m: Marks, e: Attempt): Marks {
    if e.verdict.Undecided? || e.time.None? then m
    else if e.problem !in m || e.time.value > m[e.problem].0 then m[e.problem := (e.time.value, e.verdict.Correct?)]
    else m
  }

  function ConsiderFirstPass(m: Marks, e: Attempt): Marks {
    if e.time.None? then m
    else if e.problem !in m || e.time.value < m[e.problem].0 then m[e.problem := (e.time.value, e.verdict.Correct?)]
    else if e.time.value == m[e.problem].0 then m[e.problem := (e.time.value, m[e.problem].1 || e.verdict.Correct?)]
    else m
  }

  function Mastery(es: seq<Attempt>): Marks {
    if es == [] then map[] else ConsiderMastery(Mastery(es[..|es| - 1]), es[|es| - 1])
  }

  function FirstPass(es: seq<Attempt>): Marks {
    if es == [] then map[] else ConsiderFirstPass(FirstPass(es[..|es| - 1]), es[|es| - 1])
  }

  function Tried(es: seq<Attempt>): set<Id> {
    set k | 0 <= k < |es| :: es[k].problem
  }

  // ---------------------------------------------------------------- first pass

  predicate Timed(e: Attempt, p: Id) {
    e.problem == p && e.time.Some?
  }

  /** The earliest time the problem was attempted, and whether any attempt at that time was correct. */
  predicate IsFirstPass(es: seq<Attempt>, p: Id, mark: (int, bool)) {
    && (exists e :: e in es && Timed(e, p) && e.time.value == mark.0)
    && (forall e :: e in es && Timed(e, p) ==> mark.0 <= e.time.value)
    && (mark.1 <==> exists e :: e in es && Timed(e, p) && e.time.value == mark.0 && e.verdict.Correct?)
  }

  /** Whatever the order of the attempts. */
  lemma {:induction false} FirstPassIs(es: seq<Attempt>, p: Id)
    ensures p in FirstPass(es) <==> exists e :: e in es && Timed(e, p)
    ensures p in FirstPass(es) ==> IsFirstPass(es, p, FirstPass(es)[p])
  {
    if es != [] {
      var before, last := es[..|es| - 1], es[|es| - 1];
      FirstPassIs(before, p);
      assert es == before + [last];
      assert forall e :: e in es <==> e in before || e == last;
      FirstPassExtends(before, last, p);
    }
  }

  lemma FirstPassExtends(before: seq<Attempt>, last: Attempt, p: Id)
    requires p in FirstPass(before) <==> exists e :: e in before && Timed(e, p)
    requires p in FirstPass(before) ==> IsFirstPass(before, p, FirstPass(before)[p])
    ensures var m := ConsiderFirstPass(FirstPass(before), last);
            && (p in m <==> exists e :: (e in before || e == last) && Timed(e, p))
            && (p in m ==>
                  && (exists e :: (e in before || e == last) && Timed(e, p) && e.time.value == m[p].0)
                  && (forall e :: (e in before || e == last) && Timed(e, p) ==> m[p].0 <= e.time.value)
                  && (m[p].1 <==> exists e :: && (e in before || e == last) && Timed(e, p) && e.time.value == m[p].0
                                              && e.verdict.Correct?))
  {
    hide FirstPass;
    var m := ConsiderFirstPass(FirstPass(before), last);
    if Timed(last, p) && p in FirstPass(before) {
      var e :| e in before && Timed(e, p) && e.time.value == FirstPass(before)[p].0;
      assert m[p].0 == if last.time.value < FirstPass(before)[p].0 then last.time.value else FirstPass(before)[p].0;
    }
  }

  lemma OneFirstPass(es: seq<Attempt>, fs: seq<Attempt>, p: Id, a: (int, bool), b: (int, bool))
    requires IsFirstPass(es, p, a) && IsFirstPass(fs, p, b) && forall e :: e in es <==> e in fs
    ensures a == b
  {
  }

  /** The first-pass marks do not depend on the order in which attempts are read. */
  lemma FirstPassIgnoresOrder(es: seq<Attempt>, fs: seq<Attempt>)
    requires multiset(es) == multiset(fs)
    ensures FirstPass(es) == FirstPass(fs)
  {
    hide IsFirstPass, FirstPass;
    SameElements(es, fs);
    forall p ensures p in FirstPass(es) <==> p in FirstPass(fs) { FirstPassIs(es, p); FirstPassIs(fs, p); }
    forall p | p in FirstPass(es) ensures FirstPass(es)[p] == FirstPass(fs)[p] {
      FirstPassIs(es, p);
      FirstPassIs(fs, p);
      OneFirstPass(es, fs, p, FirstPass(es)[p], FirstPass(fs)[p]);
    }
  }

  // ---------------------------------------------------------------- mastery

  predicate Decides(e: Attempt, p: Id) {
    e.problem == p && e.time.Some? && !e.verdict.Undecided?
  }

  /** The latest decided attempt; of several at that time the one read first. */
  ghost predicate IsMastery(es: seq<Attempt>, p: Id, mark: (int, bool)) {
    exists k :: 0 <= k < |es| && LatestAt(es, p, k) && mark == (es[k].time.value, es[k].verdict.Correct?)
  }

  predicate LatestAt(es: seq<Attempt>, p: Id, k: nat)
    requires k < |es|
  {
    && Decides(es[k], p)
    && forall j :: 0 <= j < |es| && Decides(es[j], p) ==>
         es[j].time.value <= es[k].time.value && (es[j].time.value == es[k].time.value ==> k <= j)
  }

  lemma {:induction false} MasteryIs(es: seq<Attempt>, p: Id)
    ensures p in Mastery(es) <==> exists k :: 0 <= k < |es| && Decides(es[k], p)
    ensures p in Mastery(es) ==> IsMastery(es, p, Mastery(es)[p])
  {
    if es != [] {
      var n := |es| - 1;
      var before, last := es[..n], es[n];
      MasteryIs(before, p);
      assert es == before + [last];
      if p in Mastery(before) {
        var k :| 0 <= k < n && LatestAt(before, p, k)
          && Mastery(before)[p] == (before[k].time.value, before[k].verdict.Correct?);
        assert Decides(before[k], p);
        LatestExtends(before, last, p, k);
      } else {
        FirstDecided(before, last, p);
      }
    }
  }

  /** One more attempt after one that decides so far. */
  lemma LatestExtends(before: seq<Attempt>, last: Attempt, p: Id, k: nat)
    requires k < |before| && LatestAt(before, p, k) && p in Mastery(before)
    requires Mastery(before)[p] == (before[k].time.value, before[k].verdict.Correct?)
    ensures var m := ConsiderMastery(Mastery(before), last);
            p in m && IsMastery(before + [last], p, m[p])
            && exists j :: 0 <= j < |before + [last]| && Decides((before + [last])[j], p)
  {
    hide Mastery;
    var es, n := before + [last], |before|;
    assert es[k] == before[k] && es[n] == last;
    if Decides(last, p) && last.time.value > before[k].time.value {
      assert LatestAt(es, p, n);
    } else {
      assert LatestAt(es, p, k);
    }
  }

  lemma FirstDecided(before: seq<Attempt>, last: Attempt, p: Id)
    requires p !in Mastery(before) && forall k :: 0 <= k < |before| ==> !Decides(before[k], p)
    ensures var m, es := ConsiderMastery(Mastery(before), last), before + [last];
            && (p in m <==> exists j :: 0 <= j < |es| && Decides(es[j], p))
            && (p in m ==> IsMastery(es, p, m[p]))
  {
    hide Mastery;
    var es, n := before + [last], |before|;
    assert es[n] == last;
    if Decides(last, p) {
      assert LatestAt(es, p, n);
    }
  }

  lemma OneMastery(es: seq<Attempt>, p: Id, j: nat, k: nat)
    requires j < |es| && k < |es| && LatestAt(es, p, j) && LatestAt(es, p, k)
    ensures j == k
  {
  }

  /** All decided attempts at the latest time agree. */
  predicate LatestAgree(es: seq<Attempt>, p: Id) {
    forall e, f :: e in es && f in es && Decides(e, p) && Decides(f, p) && e.time == f.time && LatestOf(es, p, e) ==>
      e.verdict == f.verdict
  }

  predicate LatestOf(es: seq<Attempt>, p: Id, e: Attempt) {
    Decides(e, p) && forall g :: g in es && Decides(g, p) ==> g.time.value <= e.time.value
  }

  function MasteryOf(es: seq<Attempt>, p: Id): Option<(int, bool)> {
    var m := Mastery(es);
    if p in m then Some(m[p]) else None
  }

  lemma MasteryOfLatest(es: seq<Attempt>, p: Id)
    requires p in Mastery(es)
    ensures exists e :: e in es && LatestOf(es, p, e) && Mastery(es)[p] == (e.time.value, e.verdict.Correct?)
  {
    MasteryIs(es, p);
    var k :| 0 <= k < |es| && LatestAt(es, p, k) && Mastery(es)[p] == (es[k].time.value, es[k].verdict.Correct?);
    assert es[k] in es && LatestOf(es, p, es[k]);
  }

  /** An attempt at the latest time decides the mark once it is read first. */
  lemma ReadFirst(es: seq<Attempt>, p: Id, k: nat)
    requires k < |es| && LatestOf(es, p, es[k])
    ensures var fs := [es[k]] + es[..k] + es[k + 1..];
            multiset(fs) == multiset(es) && MasteryOf(fs, p) == Some((es[k].time.value, es[k].verdict.Correct?))
  {
    var fs := [es[k]] + es[..k] + es[k + 1..];
    assert es == es[..k] + [es[k]] + es[k + 1..];
    SameElements(fs, es);
    assert fs[0] == es[k];
    forall j | 0 <= j < |fs| ensures fs[j] in es { assert fs[j] in fs; }
    assert LatestAt(fs, p, 0);
    MasteryIs(fs, p);
    var i :| 0 <= i < |fs| && LatestAt(fs, p, i) && Mastery(fs)[p] == (fs[i].time.value, fs[i].verdict.Correct?);
    OneMastery(fs, p, 0, i);
  }

  /** Unlike the first pass, mastery of a problem is independent of the reading order exactly when the
      decided attempts at its latest time agree. */
  lemma MasteryIgnoresOrderIff(es: seq<Attempt>, p: Id)
    ensures (forall fs :: multiset(fs) == multiset(es) ==> MasteryOf(fs, p) == MasteryOf(es, p)) <==> LatestAgree(es, p)
  {
    if LatestAgree(es, p) {
      forall fs | multiset(fs) == multiset(es) ensures MasteryOf(fs, p) == MasteryOf(es, p) {
        SameElements(fs, es);
        MasteryIs(es, p);
        MasteryIs(fs, p);
        SameDecided(es, fs, p);
        if p in Mastery(es) {
          MasteryOfLatest(es, p);
          MasteryOfLatest(fs, p);
        }
      }
    } else {
      var e, f :| e in es && f in es && Decides(e, p) && Decides(f, p) && e.time == f.time && LatestOf(es, p, e)
        && e.verdict != f.verdict;
      var j :| 0 <= j < |es| && es[j] == e;
      var k :| 0 <= k < |es| && es[k] == f;
      ReadFirst(es, p, j);
      ReadFirst(es, p, k);
    }
  }

  lemma SameDecided(es: seq<Attempt>, fs: seq<Attempt>, p: Id)
    requires forall e :: e in es <==> e in fs
    ensures (exists k :: 0 <= k < |es| && Decides(es[k], p)) <==> (exists k :: 0 <= k < |fs| && Decides(fs[k], p))
  {
    if k :| 0 <= k < |es| && Decides(es[k], p) {
      assert es[k] in fs;
      var j :| 0 <= j < |fs| && fs[j] == es[k];
    }
    if k :| 0 <= k < |fs| && Decides(fs[k], p) {
      assert fs[k] in es;
      var j :| 0 <= j < |es| && es[j] == fs[k];
    }
  }

  // ---------------------------------------------------------------- the counting loops

  function Events(attempts: seq<Attempt>, exams: seq<ExamDoc>, active: set<Id>): seq<Attempt> {
    OfActive(attempts, active) + OfActive(ExamAttempts(exams), active)
  }

  function Passed(m: Marks): set<Id> {
    set p | p in m && m[p].1
  }

  lemma Extend(es: seq<Attempt>, e: Attempt)
    ensures Mastery(es + [e]) == ConsiderMastery(Mastery(es), e)
    ensures FirstPass(es + [e]) == ConsiderFirstPass(FirstPass(es), e)
    ensures Tried(es + [e]) == Tried(es) + {e.problem}
  {
    assert (es + [e])[..|es|] == es;
    forall p ensures p in Tried(es + [e]) <==> p in Tried(es) + {e.problem} {
      if p in Tried(es) {
        var k :| 0 <= k < |es| && es[k].problem == p;
        assert (es + [e])[k].problem == p;
      }
      assert (es + [e])[|es|].problem == e.problem;
    }
  }

  class Tally {
    var tried: set<Id>
    var mastery: Marks
    var firstPass: Marks
    ghost var seen: seq<Attempt>

    ghost predicate Valid()
      reads this
    {
      tried == Tried(seen) && mastery == Mastery(seen) && firstPass == FirstPass(seen)
    }

    constructor ()
      ensures Valid() && seen == []
    {
      tried, mastery, firstPass, seen := {}, map[], map[], [];
    }

    method Consider(e: Attempt, active: set<Id>)
      requires Valid()
      modifies this
      ensures Valid() && seen == old(seen) + OfActive([e], active)
    {
      assert [e][1..] == [];
      if e.problem !in active {
        assert seen + [] == seen;
        return;
      }
      Extend(seen, e);
      tried := tried + {e.problem};
      mastery := ConsiderMastery(mastery, e);
      firstPass := ConsiderFirstPass(firstPass, e);
      seen := seen + [e];
    }

    method ConsiderAll(es: seq<Attempt>, active: set<Id>)
      requires Valid()
      modifies this
      ensures Valid() && seen == old(seen) + OfActive(es, active)
    {
      for k := 0 to |es|
        invariant Valid() && seen == old(seen) + OfActive(es[..k], active)
      {
        OfActiveJoins(es[..k], [es[k]], active);
        assert es[..k + 1] == es[..k] + [es[k]];
        Consider(es[k], active);
      }
      assert es[..|es|] == es;
    }
  }

  datatype Counts = Counts(total: nat, tried: nat, mastered: nat, firstPassed: nat)

  /** Coverage, conquest and first pass over both kinds of attempts. */
  method CountAttempts(attempts: seq<Attempt>, exams: seq<ExamDoc>, active: set<Id>) returns (r: Counts)
    ensures var es := Events(attempts, exams, active);
            r == Counts(|active|, |Tried(es)|, |Passed(Mastery(es))|, |Passed(FirstPass(es))|)
    ensures r.mastered <= r.tried <= r.total && r.firstPassed <= r.tried
  {
    assert OfActive(ExamAttempts([]), active) == [];
    hide OfActive, Mastery, FirstPass, Tried, Passed, ExamAttempts;
    var tally := new Tally();
    tally.ConsiderAll(attempts, active);
    ghost var first := OfActive(attempts, active);
    assert tally.seen == first + [] && exams[..0] == [];
    for k := 0 to |exams|
      invariant tally.Valid() && tally.seen == first + OfActive(ExamAttempts(exams[..k]), active)
    {
      ExamAttemptsJoin(exams[..k], exams[k]);
      OfActiveJoins(ExamAttempts(exams[..k]), ItemAttempts(exams[k]), active);
      assert exams[..k + 1] == exams[..k] + [exams[k]];
      tally.ConsiderAll(ItemAttempts(exams[k]), active);
    }
    assert exams[..|exams|] == exams;
    CountsNest(Events(attempts, exams, active), attempts, exams, active);
    r := Counts(|active|, |tally.tried|, |Passed(tally.mastery)|, |Passed(tally.firstPass)|);
  }

  lemma {:induction false} ActiveOnly(es: seq<Attempt>, active: set<Id>)
    ensures forall e :: e in OfActive(es, active) ==> e.problem in active
  {
    if es != [] {
      ActiveOnly(es[1..], active);
    }
  }

  lemma SubsetCount(a: set<Id>, b: set<Id>)
    requires a <= b
    ensures |a| <= |b|
  {
    assert b == a + (b - a);
    assert |b| == |a| + |b - a|;
  }

  lemma CountsNest(es: seq<Attempt>, attempts: seq<Attempt>, exams: seq<ExamDoc>, active: set<Id>)
    requires es == Events(attempts, exams, active)
    ensures |Passed(Mastery(es))| <= |Tried(es)| <= |active| && |Passed(FirstPass(es))| <= |Tried(es)|
  {
    ActiveOnly(attempts, active);
    ActiveOnly(ExamAttempts(exams), active);
    forall p | p in Tried(es) ensures p in active {
      var k :| 0 <= k < |es| && es[k].problem == p;
      assert es[k] in es;
    }
    forall p | p in Mastery(es) ensures p in Tried(es) { MasteryIs(es, p); }
    forall p | p in FirstPass(es) ensures p in Tried(es) {
      FirstPassIs(es, p);
      var e :| e in es && Timed(e, p);
      var k :| 0 <= k < |es| && es[k] == e;
      assert es[k].problem == p;
    }
    SubsetCount(Tried(es), active);
    SubsetCount(Passed(Mastery(es)), Tried(es));
    SubsetCount(Passed(FirstPass(es)), Tried(es));
  }
}
