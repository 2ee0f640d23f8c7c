/** Exam papers, their grading and their summary. */
module Exams {
  import opened Prelude

  type Id = string

  datatype Status = Ungraded | Correct | Incorrect | PendingReview

  datatype Method = NormalizedMatch | Vlm | SelfReport

  datatype Grading = Grading(
    status: Status, how: Option<Method>, isCorrect: Option<bool>, score: Option<real>,
    retryCount: nat, selfReported: Option<bool>)

  const UNGRADED := Grading(Ungraded, None, None, None, 0, None)

  datatype Kind = Objective | ShortAnswer

  /** An exam item: the question as it was when the exam was made, the stored answer, the grading. */
  datatype Item = Item(id: Id, problem: Id, kind: Kind, key: string, raw: Option<string>, grading: Grading)

  datatype Summary = Summary(
    total: nat, answered: nat, graded: nat, pending: nat, correct: nat, failed: nat, score: Option<real>)

  datatype State = InProgress | BeingGraded | Submitted | Discarded

  datatype Exam = Exam(state: State, items: seq<Item>, summary: Summary)

  datatype Tracking = Tracking(exposures: nat, correct: nat, failed: nat, lastCorrect: Option<bool>)

  /** Whether a raw answer, normalized for the problem, matches the answer key. */
  type Judge = (string, string) -> bool

  // ---------------------------------------------------------------- summary

  function CountStatus(items: seq<Item>, s: Status): nat {
    if items == [] then 0
    else (if items[0].grading.status == s then 1 else 0) + CountStatus(items[1..], s)
  }

  function CountAnswered(items: seq<Item>): nat {
    if items == [] then 0 else (if items[0].raw.Some? then 1 else 0) + CountAnswered(items[1..])
  }

  function ComputeSummary(items: seq<Item>): Summary {
    var correct, failed := CountStatus(items, Correct), CountStatus(items, Incorrect);
    var graded := correct + failed;
    Summary(|items|, CountAnswered(items), graded, CountStatus(items, PendingReview), correct, failed,
            if graded > 0 then Some(correct as real / graded as real) else None)
  }

  // ---------------------------------------------------------------- grading one item

  /** The outcome of one call to the grading model: a verdict, a failure it reports, or anything else. */
  datatype Reply = Verdict(correct: bool) | Failed(retryable: bool) | Broken

  function Judged(correct: bool, how: Method, retries: nat): Grading {
    Grading(if correct then Correct else Incorrect, Some(how), Some(correct), Some(if correct then 1.0 else 0.0),
            retries, None)
  }

  function ForReview(retries: nat): Grading {
    Grading(PendingReview, Some(Vlm), None, None, retries, None)
  }

  /** One retry, and only after a failure that says it can be retried. */
  function ShortAnswerGrading(raw: Option<string>, first: Reply, second: Reply): Grading {
    if raw.None? then Judged(false, NormalizedMatch, 0)
    else match first
      case Verdict(c) => Judged(c, Vlm, 0)
      case Failed(true) => (match second case Verdict(c) => Judged(c, Vlm, 1) case _ => ForReview(1))
      case _ => ForReview(0)
  }

  /** A verdict, and all that goes with it: a right answer scores one, a wrong one nothing. */
  predicate Says(g: Grading, correct: bool) {
    && g.isCorrect == Some(correct) && g.selfReported.None?
    && g.status == (if correct then Correct else Incorrect) && g.score == Some(if correct then 1.0 else 0.0)
  }

  /** No verdict: the student is to compare with the key. */
  predicate LeftForReview(g: Grading) {
    g.status == PendingReview && g.isCorrect.None? && g.score.None? && g.selfReported.None?
  }

  /** Which replies decide a short answer, and how. */
  lemma ShortAnswerIsGradedBy(raw: string, first: Reply, second: Reply, c: bool)
    ensures var g := ShortAnswerGrading(Some(raw), first, second);
            var retried := first == Failed(true);
            && (first == Verdict(c) || (retried && second == Verdict(c)) <==> Says(g, c))
            && (LeftForReview(g) <==> !first.Verdict? && !(retried && second.Verdict?))
            && g.retryCount == (if retried then 1 else 0) && g.how == Some(Vlm)
    ensures Says(ShortAnswerGrading(None, first, second), false)
  {
  }

  method GradeShortAnswer(raw: Option<string>, replies: nat -> Reply) returns (g: Grading, calls: nat)
    ensures g == ShortAnswerGrading(raw, replies(0), replies(1))
    ensures calls <= 2 && (raw.None? ==> calls == 0) && (raw.Some? ==> calls == g.retryCount + 1)
    ensures raw.Some? && replies(calls - 1).Verdict? ==> Says(g, replies(calls - 1).correct) && g.how == Some(Vlm)
    ensures raw.Some? && !replies(calls - 1).Verdict? ==> LeftForReview(g)
    ensures raw.None? ==> Says(g, false) && g.how == Some(NormalizedMatch) && g.retryCount == 0
  {
    calls := 0;
    if raw.None? {
      return Judged(false, NormalizedMatch, 0), 0;
    }
    var retryCount := 0;
    while true
      invariant retryCount <= 1 && calls == retryCount
      invariant retryCount == 1 ==> replies(0) == Failed(true)
      decreases 1 - retryCount
    {
      var reply := replies(calls);
      calls := calls + 1;
      match reply {
        case Verdict(c) => return Judged(c, Vlm, retryCount), calls;
        case Failed(retryable) =>
          if retryable && retryCount < 1 {
            retryCount := retryCount + 1;
          } else {
            return ForReview(retryCount), calls;
          }
        case Broken => return ForReview(retryCount), calls;
      }
    }
  }

  function GradeItem(judge: Judge, i: Item, first: Reply, second: Reply): Item {
    if i.kind.ShortAnswer? then i.(grading := ShortAnswerGrading(i.raw, first, second))
    else i.(grading := Judged(i.raw.Some? && judge(i.raw.value, i.key), NormalizedMatch, 0))
  }

  /** What the student resolves by comparing with the key. */
  function Reported(g: Grading, correct: bool): Grading {
    g.(status := if correct then Correct else Incorrect, how := Some(SelfReport), isCorrect := Some(correct),
       score := Some(if correct then 1.0 else 0.0), selfReported := Some(correct))
  }

  /** Status and verdict agree. */
  predicate Coherent(g: Grading) {
    && (g.status.Correct? <==> g.isCorrect == Some(true))
    && (g.status.Incorrect? <==> g.isCorrect == Some(false))
  }

  predicate RequiresVlm(items: seq<Item>) {
    exists k :: 0 <= k < |items| && items[k].kind.ShortAnswer? && items[k].raw.Some?
  }

  function GradeAll(judge: Judge, items: seq<Item>): (r: seq<Item>) {
    seq(|items|, k requires 0 <= k < |items| => GradeItem(judge, items[k], Broken, Broken))
  }

  /** An exam that needs no model is graded in full: nothing is left open, and no reply matters. */
  lemma SynchronousGradingIsComplete(judge: Judge, items: seq<Item>, k: nat, first: Reply, second: Reply)
    requires !RequiresVlm(items) && k < |items|
    ensures var g := GradeAll(judge, items)[k].grading;
            && (g.status.Correct? || g.status.Incorrect?) && Coherent(g) && Says(g, g.status.Correct?)
            && g.how == Some(NormalizedMatch) && g.retryCount == 0
            && GradeAll(judge, items)[k] == GradeItem(judge, items[k], first, second)
            && (g.status.Correct? <==>
                  items[k].kind.Objective? && items[k].raw.Some? && judge(items[k].raw.value, items[k].key))
  {
  }

  // ---------------------------------------------------------------- what a summary says

  /** The positions of the items of a kind. */
  function Where(items: seq<Item>, f: Item -> bool): set<nat> {
    set k: nat | k < |items| && f(items[k])
  }

  lemma {:induction false} CountsJoin(a: seq<Item>, i: Item, s: Status)
    ensures CountStatus(a + [i], s) == CountStatus(a, s) + (if i.grading.status == s then 1 else 0)
    ensures CountAnswered(a + [i]) == CountAnswered(a) + (if i.raw.Some? then 1 else 0)
  {
    if a == [] {
      assert [] + [i] == [i] && [i][1..] == [];
    } else {
      assert (a + [i])[1..] == a[1..] + [i];
      CountsJoin(a[1..], i, s);
    }
  }

  lemma OneMoreWhere(a: seq<Item>, i: Item, f: Item -> bool)
    ensures |Where(a + [i], f)| == |Where(a, f)| + (if f(i) then 1 else 0)
  {
    assert forall k: nat :: k < |a| ==> (a + [i])[k] == a[k];
    assert (a + [i])[|a|] == i;
    assert Where(a + [i], f) == Where(a, f) + (if f(i) then {|a|} else {});
  }

  lemma {:induction false} CountsAreSizes(items: seq<Item>, s: Status)
    ensures CountStatus(items, s) == |Where(items, (i: Item) => i.grading.status == s)|
    ensures CountAnswered(items) == |Where(items, (i: Item) => i.raw.Some?)|
  {
    if items != [] {
      var before, last := items[..|items| - 1], items[|items| - 1];
      assert items == before + [last];
      CountsAreSizes(before, s);
      CountsJoin(before, last, s);
      OneMoreWhere(before, last, (i: Item) => i.grading.status == s);
      OneMoreWhere(before, last, (i: Item) => i.raw.Some?);
    }
  }

  /** The summary counts positions: all of them, those answered, those in each status; the score is the
      share of correct results among those resolved, and there is none before any is. */
  lemma SummaryCounts(items: seq<Item>)
    ensures var s := ComputeSummary(items);
            && s.total == |items| && s.answered == |Where(items, (i: Item) => i.raw.Some?)|
            && s.correct == |Where(items, (i: Item) => i.grading.status == Correct)|
            && s.failed == |Where(items, (i: Item) => i.grading.status == Incorrect)|
            && s.pending == |Where(items, (i: Item) => i.grading.status == PendingReview)|
            && s.graded == s.correct + s.failed
            && (s.score.None? <==> s.graded == 0)
            && (s.score.Some? ==> s.score.value * s.graded as real == s.correct as real)
  {
    CountsAreSizes(items, Correct);
    CountsAreSizes(items, Incorrect);
    CountsAreSizes(items, PendingReview);
  }

  // ---------------------------------------------------------------- the paper

  /** The fixed part of an item. */
  function Question(i: Item): Item {
    i.(raw := None, grading := UNGRADED)
  }

  /** The same questions in the same order. */
  predicate SamePaper(a: seq<Item>, b: seq<Item>) {
    |a| == |b| && forall k :: 0 <= k < |a| ==> Question(a[k]) == Question(b[k])
  }

  /** The same questions with the same raw answers. */
  predicate SameAnswers(a: seq<Item>, b: seq<Item>) {
    |a| == |b| && forall k :: 0 <= k < |a| ==> a[k].(grading := UNGRADED) == b[k].(grading := UNGRADED)
  }

  predicate DistinctIds(items: seq<Item>) {
    forall j, k :: 0 <= j < k < |items| ==> items[j].id != items[k].id
  }

  /** The position of an item, or the length when it is not there. */
  function Find(items: seq<Item>, id: Id): (k: nat)
    ensures k <= |items| && (k < |items| ==> items[k].id == id)
    ensures k == |items| ==> forall j :: 0 <= j < |items| ==> items[j].id != id
  {
    if items == [] then 0 else if items[0].id == id then 0 else Find(items[1..], id) + 1
  }

  function WithAnswer(items: seq<Item>, id: Id, raw: Option<string>): seq<Item> {
    var k := Find(items, id);
    if k < |items| then items[k := items[k].(raw := raw)] else items
  }

  function WithGrading(items: seq<Item>, id: Id, g: Grading): seq<Item> {
    var k := Find(items, id);
    if k < |items| then items[k := items[k].(grading := g)] else items
  }

  /** Every item the submission was graded from is still there with the answer it was graded on. */
  predicate AnswersUnchanged(read: seq<Item>, current: seq<Item>) {
    forall k :: 0 <= k < |read| ==>
      var j := Find(current, read[k].id); j < |current| && current[j].raw == read[k].raw
  }

  // ---------------------------------------------------------------- tracking

  function BuildTracking(t: Tracking, correct: bool): Tracking {
    Tracking(t.exposures + 1, t.correct + (if correct then 1 else 0), t.failed + (if correct then 0 else 1),
             Some(correct))
  }

  function TrackOne(ps: map<Id, Tracking>, problem: Id, correct: bool): map<Id, Tracking> {
    if problem in ps then ps[problem := BuildTracking(ps[problem], correct)] else ps
  }

  /** The loop over graded items: those left for review are skipped, and problems no longer stored. */
  function TrackAll(ps: map<Id, Tracking>, items: seq<Item>): map<Id, Tracking> {
    if items == [] then ps
    else
      var i := items[0];
      TrackAll(if i.grading.status.PendingReview? then ps
               else TrackOne(ps, i.problem, i.grading.isCorrect == Some(true)), items[1..])
  }

  /** Items of one problem in one status. */
  function Tally(items: seq<Item>, p: Id, s: Status): nat {
    if items == [] then 0
    else (if items[0].problem == p && items[0].grading.status == s then 1 else 0) + Tally(items[1..], p, s)
  }

  predicate AllCoherent(items: seq<Item>) {
    forall k :: 0 <= k < |items| ==> Coherent(items[k].grading)
  }

  predicate NoneUngraded(items: seq<Item>) {
    forall k :: 0 <= k < |items| ==> !items[k].grading.status.Ungraded?
  }

  /** The tracking loop adds to every stored problem exactly its correct and incorrect items. */
  lemma {:induction false} TrackingAddsTallies(ps: map<Id, Tracking>, items: seq<Item>, p: Id)
    requires p in ps && AllCoherent(items) && NoneUngraded(items)
    ensures p in TrackAll(ps, items) && TrackAll(ps, items).Keys == ps.Keys
    ensures var t := TrackAll(ps, items)[p];
            && t.correct == ps[p].correct + Tally(items, p, Correct)
            && t.failed == ps[p].failed + Tally(items, p, Incorrect)
            && t.exposures == ps[p].exposures + Tally(items, p, Correct) + Tally(items, p, Incorrect)
  {
    if items != [] {
      var i := items[0];
      assert Coherent(i.grading) && !i.grading.status.Ungraded?;
      var next := if i.grading.status.PendingReview? then ps
        else TrackOne(ps, i.problem, i.grading.isCorrect == Some(true));
      assert AllCoherent(items[1..]) && NoneUngraded(items[1..]);
      TrackingAddsTallies(next, items[1..], p);
    }
  }

  /** The verdict kept for a problem is that of its last resolved item; without one it stays. */
  lemma {:induction false} TrackingKeepsLast(ps: map<Id, Tracking>, items: seq<Item>, p: Id)
    requires p in ps
    ensures p in TrackAll(ps, items)
    ensures var last := TrackAll(ps, items)[p].lastCorrect;
            && ((forall k :: 0 <= k < |items| ==> !Resolves(items[k], p)) ==> last == ps[p].lastCorrect)
            && (forall k :: 0 <= k < |items| && Resolves(items[k], p)
                            && (forall j :: k < j < |items| ==> !Resolves(items[j], p)) ==>
                  last == Some(items[k].grading.isCorrect == Some(true)))
  {
    if items != [] {
      var i, rest := items[0], items[1..];
      var next := if i.grading.status.PendingReview? then ps
        else TrackOne(ps, i.problem, i.grading.isCorrect == Some(true));
      TrackingKeepsLast(next, rest, p);
      assert forall k :: 0 <= k < |rest| ==> rest[k] == items[k + 1];
      forall k | 0 <= k < |items| && Resolves(items[k], p) && (forall j :: k < j < |items| ==> !Resolves(items[j], p))
        ensures TrackAll(ps, items)[p].lastCorrect == Some(items[k].grading.isCorrect == Some(true))
      {
        if k > 0 { assert Resolves(rest[k - 1], p); }
      }
    }
  }

  predicate Resolves(i: Item, p: Id) {
    i.problem == p && i.grading.status != PendingReview
  }

  // ---------------------------------------------------------------- counting after one change

  lemma {:induction false} TallyUpdate(items: seq<Item>, k: nat, i: Item, p: Id, s: Status)
    requires k < |items|
    ensures Tally(items[k := i], p, s) + (if items[k].problem == p && items[k].grading.status == s then 1 else 0)
            == Tally(items, p, s) + (if i.problem == p && i.grading.status == s then 1 else 0)
  {
    if k > 0 {
      assert items[k := i][1..] == items[1..][k - 1 := i];
      TallyUpdate(items[1..], k - 1, i, p, s);
    } else {
      assert items[0 := i][1..] == items[1..];
    }
  }

  lemma {:induction false} StatusUpdate(items: seq<Item>, k: nat, i: Item, s: Status)
    requires k < |items|
    ensures CountStatus(items[k := i], s) + (if items[k].grading.status == s then 1 else 0)
            == CountStatus(items, s) + (if i.grading.status == s then 1 else 0)
  {
    if k > 0 {
      assert items[k := i][1..] == items[1..][k - 1 := i];
      StatusUpdate(items[1..], k - 1, i, s);
    } else {
      assert items[0 := i][1..] == items[1..];
    }
  }

  lemma {:induction false} AnsweredSame(a: seq<Item>, b: seq<Item>)
    requires SameAnswers(a, b)
    ensures CountAnswered(a) == CountAnswered(b)
  {
    if a != [] {
      assert a[0].(grading := UNGRADED) == b[0].(grading := UNGRADED);
      assert forall k :: 0 <= k < |a[1..]| ==> a[1..][k] == a[k + 1] && b[1..][k] == b[k + 1];
      AnsweredSame(a[1..], b[1..]);
    }
  }

  /** On the same paper with distinct ids, unchanged by id means unchanged position by position. */
  lemma UnchangedIsSameAnswers(read: seq<Item>, current: seq<Item>)
    requires SamePaper(read, current) && DistinctIds(current)
    ensures AnswersUnchanged(read, current) <==> SameAnswers(read, current)
  {
    forall k | 0 <= k < |read| ensures Find(current, read[k].id) == k {
      assert Question(read[k]) == Question(current[k]);
    }
    if AnswersUnchanged(read, current) {
      forall k | 0 <= k < |read| ensures read[k].(grading := UNGRADED) == current[k].(grading := UNGRADED) {
        assert Question(read[k]) == Question(current[k]);
      }
    }
  }
}
