/** Runs in which the promise of `CountersEqualHistory`, of the transition table or of the running
    summary fails, and runs from an empty database that lead to them. */
module ExamFindings {
  import opened Prelude
  import opened Exams
  import opened ExamRuns
  import opened ExamTheorems
  import opened ExamConservation
  import opened ExamPromises

  /** Two reports of one item that both read it before either writes count it twice. */
  lemma TwoReportsCountTwice(judge: Judge, w: World, e: Id, item: Id, correct: bool, task: Id)
    requires Books(w) && ReadForReport(w.store, e, item, correct).Some?
    ensures var p := w.store.exams[e].items[Find(w.store.exams[e].items, item)].problem;
            var w' := Run(judge, w, [BeginReport(0, e, item, correct), BeginReport(1, e, item, correct),
                                     Commit(0, task), Commit(1, task)]);
            && p in w.store.problems && p in w'.store.problems && e in w'.store.exams
            && w'.store.problems[p].exposures == w.store.problems[p].exposures + 2
            && w'.store.exams[e].items == ReportedItems(ReadForReport(w.store, e, item, correct).value)
            && !Conserved(w'.store)
  {
    hide Conserved, Tally, ComputeSummary, Inv, Find;
    var op := ReadForReport(w.store, e, item, correct).value;
    var x, k := w.store.exams[e], Find(w.store.exams[e].items, item);
    var p := x.items[k].problem;
    var w1 := Step(judge, w, BeginReport(0, e, item, correct));
    var w2 := Step(judge, w1, BeginReport(1, e, item, correct));
    var w3 := Step(judge, w2, Commit(0, task));
    var w4 := Step(judge, w3, Commit(1, task));
    RunFour(judge, w, BeginReport(0, e, item, correct), BeginReport(1, e, item, correct), Commit(0, task),
            Commit(1, task));
    assert w1.ops[0] == op && w2.ops[0] == op && w2.ops[1] == op && w3.ops[1] == op;
    assert w3.store.exams[e].items == ReportedItems(op) == w4.store.exams[e].items;
    BooksAlong(judge, w, BeginReport(0, e, item, correct), BeginReport(1, e, item, correct), Commit(0, task));
    SelfReportConservesExactly(judge, w3, 1, task);
    TallyUpdate(x.items, k, ReportedItems(op)[k], p, if correct then Correct else Incorrect);
    assert !SameTallies(w3.store, op.read, ReportedItems(op));
  }

  lemma RunFour(judge: Judge, w: World, a: Event, b: Event, c: Event, d: Event)
    ensures Run(judge, w, [a, b, c, d]) == Step(judge, Step(judge, Step(judge, Step(judge, w, a), b), c), d)
  {
    hide Step;
    var w1 := Step(judge, w, a);
    var w2 := Step(judge, w1, b);
    var w3 := Step(judge, w2, c);
    assert [a, b, c, d][1..] == [b, c, d] && [b, c, d][1..] == [c, d] && [c, d][1..] == [d] && [d][1..] == [];
    assert Run(judge, w3, [d]) == Step(judge, w3, d);
    assert Run(judge, w2, [c, d]) == Run(judge, w3, [d]);
    assert Run(judge, w1, [b, c, d]) == Run(judge, w2, [c, d]);
  }

  lemma BooksAlong(judge: Judge, w: World, a: Event, b: Event, c: Event)
    requires Books(w) && Timely(w, a) && Timely(Step(judge, w, a), b)
    requires Timely(Step(judge, Step(judge, w, a), b), c)
    ensures Books(Step(judge, Step(judge, Step(judge, w, a), b), c))
  {
    hide Books, Timely, Step;
    StepKeepsBooks(judge, w, a);
    StepKeepsBooks(judge, Step(judge, w, a), b);
    StepKeepsBooks(judge, Step(judge, Step(judge, w, a), b), c);
  }

  // ---------------------------------------------------------------- a discard overtaken by a submission

  lemma DiscardRead(judge: Judge, w: World, e: Id)
    requires e in w.store.exams && w.store.exams[e].state.InProgress? && !RequiresVlm(w.store.exams[e].items)
    ensures var w2 := Step(judge, Step(judge, w, BeginDiscard(0, e)), BeginSubmit(1, e));
            && w2.store == w.store && 0 in w2.ops && 1 in w2.ops
            && w2.ops[0] == DiscardOp(e) && w2.ops[1] == SubmitOp(e, w.store.exams[e].items)
  {
  }

  lemma Overtakes(judge: Judge, w: World, e: Id, task: Id)
    requires Inv(w) && e in w.store.exams && w.store.exams[e].state.InProgress? && !RequiresVlm(w.store.exams[e].items)
    requires 0 in w.ops && 1 in w.ops && w.ops[0] == DiscardOp(e) && w.ops[1] == SubmitOp(e, w.store.exams[e].items)
    ensures var w' := Step(judge, w, Commit(1, task));
            && e in w'.store.exams && w'.store.exams[e].state.Submitted? && 0 in w'.ops && w'.ops[0] == DiscardOp(e)
            && w'.store.exams[e].items == GradeAll(judge, w.store.exams[e].items)
            && w'.store.problems.Keys == w.store.problems.Keys
  {
    hide GradeAll, ComputeSummary, RequiresVlm, AnswersUnchanged;
    DistinctInside(w, e);
    var items := w.store.exams[e].items;
    PaperSelf(items);
    UnchangedIsSameAnswers(items, items);
    TrackAllKeys(w.store.problems, GradeAll(judge, items));
  }

  lemma ResolvedIsCounted(items: seq<Item>, k: nat)
    requires k < |items|
    ensures Tally(items, items[k].problem, items[k].grading.status) > 0
  {
    var s := items[k].grading.status;
    var other := items[k].(grading := items[k].grading.(status := if s.Ungraded? then PendingReview else Ungraded));
    TallyUpdate(items, k, other, items[k].problem, s);
  }

  /** An exam is submitted, and counted, between the read and the write of its discard: it ends up
      discarded, and the counters keep what its items added. */
  lemma OvertakenDiscard(judge: Judge, w: World, e: Id, task: Id)
    requires Books(w) && e in w.store.exams && w.store.exams[e].state.InProgress?
    requires !RequiresVlm(w.store.exams[e].items) && w.store.exams[e].items != []
    ensures var w' := Run(judge, w, [BeginDiscard(0, e), BeginSubmit(1, e), Commit(1, task), Commit(0, task)]);
            e in w'.store.exams && w'.store.exams[e].state.Discarded? && !Conserved(w'.store)
  {
    hide Conserved, Tally, ComputeSummary, Inv, RequiresVlm, GradeAll, Unresolved, CountersMatch;
    var items := w.store.exams[e].items;
    var w2 := Step(judge, Step(judge, w, BeginDiscard(0, e)), BeginSubmit(1, e));
    var w3 := Step(judge, w2, Commit(1, task));
    RunFour(judge, w, BeginDiscard(0, e), BeginSubmit(1, e), Commit(1, task), Commit(0, task));
    DiscardRead(judge, w, e);
    BooksAlong(judge, w, BeginDiscard(0, e), BeginSubmit(1, e), Commit(1, task));
    StepKeeps(judge, w, BeginDiscard(0, e));
    StepKeeps(judge, Step(judge, w, BeginDiscard(0, e)), BeginSubmit(1, e));
    Overtakes(judge, w2, e, task);
    SomethingCounted(judge, w3.store, items);
    DiscardConservesExactly(judge, w3, 0, task);
  }

  lemma SomethingCounted(judge: Judge, s: Store, items: seq<Item>)
    requires !RequiresVlm(items) && items != [] && items[0].problem in s.problems
    ensures !Unresolved(s, GradeAll(judge, items))
  {
    hide Tally, RequiresVlm;
    SynchronousGradingIsComplete(judge, items, 0, Broken, Broken);
    ResolvedIsCounted(GradeAll(judge, items), 0);
  }

  /** Worker `h` holds a result for item `id` of exam `e`. */
  predicate Holds(w: World, h: nat, e: Id, id: Id) {
    h in w.ops && w.ops[h].GradedOp? && w.ops[h].exam == e && w.ops[h].item == id
  }

  predicate OpenItem(w: World, e: Id, id: Id) {
    && e in w.store.exams && w.store.exams[e].state.BeingGraded?
    && var x := w.store.exams[e];
       Find(x.items, id) < |x.items| && x.items[Find(x.items, id)].grading.status.Ungraded?
  }

  predicate HasItem(w: World, e: Id, id: Id) {
    e in w.store.exams && w.store.exams[e].state.BeingGraded?
    && Find(w.store.exams[e].items, id) < |w.store.exams[e].items|
  }

  lemma BothRead(judge: Judge, w: World, e: Id, a: Id, b: Id)
    requires Holds(w, 0, e, b) && Holds(w, 1, e, a) && OpenItem(w, e, a) && HasItem(w, e, b)
    ensures var w2 := Step(judge, Step(judge, w, BeginPersist(0)), BeginPersist(1));
            && w2.store == w.store && 0 in w2.ops && 1 in w2.ops
            && w2.ops[0] == PersistOp(e, b, w.ops[0].grading, w.store.exams[e].items)
            && w2.ops[1] == PersistOp(e, a, w.ops[1].grading, w.store.exams[e].items)
  {
    hide Find;
  }

  lemma FirstWrites(judge: Judge, w: World, e: Id, a: Id, g: Grading, task: Id)
    requires OpenItem(w, e, a) && 1 in w.ops && w.ops[1] == PersistOp(e, a, g, w.store.exams[e].items)
    requires 0 in w.ops
    ensures var w' := Step(judge, w, Commit(1, task)); var items := w.store.exams[e].items; var k := Find(items, a);
            && e in w'.store.exams && w'.store.exams[e].state.BeingGraded? && 0 in w'.ops && w'.ops[0] == w.ops[0]
            && w'.store.exams[e].items == items[k := items[k].(grading := g)]
  {
    hide Find, ComputeSummary;
  }

  /** Two workers hold results for two items, one of them still open, and both read the exam before
      either writes: the summary left behind misses a result that the items show. */
  lemma TwoWorkersLeaveStaleSummary(judge: Judge, w: World, e: Id, a: Id, b: Id, task: Id)
    requires Inv(w) && a != b && Holds(w, 0, e, b) && Holds(w, 1, e, a) && OpenItem(w, e, a) && HasItem(w, e, b)
    ensures var w' := Run(judge, w, [BeginPersist(0), BeginPersist(1), Commit(1, task), Commit(0, task)]);
            && e in w'.store.exams && w'.store.exams[e].state.BeingGraded?
            && w'.store.exams[e].summary != ComputeSummary(w'.store.exams[e].items)
  {
    hide ComputeSummary, Inv, Find, CountStatus;
    var x := w.store.exams[e];
    var ka, kb := Find(x.items, a), Find(x.items, b);
    var g := w.ops[1].grading;
    KnownResults(w);
    var w1 := Step(judge, w, BeginPersist(0));
    var w2 := Step(judge, w1, BeginPersist(1));
    var w3 := Step(judge, w2, Commit(1, task));
    RunFour(judge, w, BeginPersist(0), BeginPersist(1), Commit(1, task), Commit(0, task));
    StepKeeps(judge, w, BeginPersist(0));
    StepKeeps(judge, w1, BeginPersist(1));
    StepKeeps(judge, w2, Commit(1, task));
    BothRead(judge, w, e, a, b);
    FirstWrites(judge, w2, e, a, g, task);
    var items := w3.store.exams[e].items;
    GradingOnly(x.items, ka, g);
    FindSame(x.items, items, b);
    StatusUpdate(x.items, ka, items[ka], g.status);
    assert OtherCount(items, kb, g.status) == OtherCount(x.items, kb, g.status) + 1;
    SecondIsStale(judge, w3, e, b, x.items, g.status, task);
  }

  lemma SecondIsStale(judge: Judge, w: World, e: Id, b: Id, read: seq<Item>, st: Status, task: Id)
    requires Inv(w) && 0 in w.ops && w.ops[0].PersistOp? && w.ops[0].exam == e && w.ops[0].item == b
             && w.ops[0].read == read
    requires e in w.store.exams && w.store.exams[e].state.BeingGraded? && !st.Ungraded?
    requires var k := Find(w.store.exams[e].items, b);
             k < |read| && k < |w.store.exams[e].items|
             && OtherCount(w.store.exams[e].items, k, st) == OtherCount(read, k, st) + 1
    ensures var w' := Step(judge, w, Commit(0, task));
            && e in w'.store.exams && w'.store.exams[e].state.BeingGraded?
            && w'.store.exams[e].summary != ComputeSummary(w'.store.exams[e].items)
  {
    hide ComputeSummary, Inv, Find, CountStatus, OtherCount;
    PersistSummaryExactly(judge, w, 0, task);
  }

  lemma {:induction false} FirstOpenFound(items: seq<Item>)
    requires DistinctIds(items) && FirstOpen(items).Some?
    ensures var i := FirstOpen(items).value; var k := Find(items, i.id);
            && k < |items| && items[k] == i && i.grading.status.Ungraded?
            && forall j :: 0 <= j < k ==> items[j].grading.status != Ungraded
  {
    if IsTerminal(items[0]) {
      assert forall k :: 0 <= k < |items| - 1 ==> items[1..][k] == items[k + 1];
      FirstOpenFound(items[1..]);
      var i := FirstOpen(items).value;
      assert items[1..][Find(items[1..], i.id)] == i;
      assert items[0].id != i.id;
    }
  }

  lemma BothGrade(judge: Judge, w: World, e: Id, first: Reply, second: Reply)
    requires e in w.store.exams && w.store.exams[e].state.BeingGraded? && FirstOpen(w.store.exams[e].items).Some?
    ensures var b := FirstOpen(w.store.exams[e].items).value;
            var w2 := Step(judge, Step(judge, w, BeginGrading(0, e, false, first, second)),
                           BeginGrading(1, e, true, first, second));
            && w2.store == w.store && Holds(w2, 0, e, b.id) && 1 in w2.ops
            && w2.ops[1] == GradedOp(e, b.id, ForReview(0))
  {
    hide FirstOpen, GradeItem;
  }

  lemma TakesOver(judge: Judge, w: World, e: Id, b: Id, task: Id)
    requires HasItem(w, e, b) && Holds(w, 0, e, b) && 1 in w.ops && w.ops[1] == GradedOp(e, b, ForReview(0))
    ensures var w' := Step(judge, Step(judge, w, BeginPersist(1)), Commit(1, task));
            && e in w'.store.exams && w'.store.exams[e].state.BeingGraded? && Holds(w', 0, e, b)
            && w'.store.exams[e].items == WithGrading(w.store.exams[e].items, b, ForReview(0))
  {
    hide Find, ComputeSummary;
  }

  lemma NextItem(judge: Judge, w: World, e: Id, b: Id, first: Reply, second: Reply)
    requires HasItem(w, e, b) && Holds(w, 0, e, b) && FirstOpen(w.store.exams[e].items).Some?
             && DistinctIds(w.store.exams[e].items)
    ensures var a := FirstOpen(w.store.exams[e].items).value;
            var w' := Step(judge, w, BeginGrading(1, e, false, first, second));
            && w'.store == w.store && Holds(w', 0, e, b) && Holds(w', 1, e, a.id) && OpenItem(w', e, a.id)
            && HasItem(w', e, b)
  {
    hide FirstOpen, GradeItem, Find, DistinctIds;
    FirstOpenFound(w.store.exams[e].items);
  }

  /** A worker that lost its lease and the one that took over grade the same item; the second goes on
      to the next. This is how two workers come to hold results for two items. */
  lemma LostLease(judge: Judge, w: World, e: Id, first: Reply, second: Reply, task: Id)
    requires Inv(w) && e in w.store.exams && w.store.exams[e].state.BeingGraded?
    requires FirstOpen(w.store.exams[e].items).Some?
    requires FirstOpen(WithGrading(w.store.exams[e].items, FirstOpen(w.store.exams[e].items).value.id,
                                   ForReview(0))).Some?
    ensures var b := FirstOpen(w.store.exams[e].items).value;
            var a := FirstOpen(WithGrading(w.store.exams[e].items, b.id, ForReview(0))).value;
            var events := [BeginGrading(0, e, false, first, second), BeginGrading(1, e, true, first, second),
                           BeginPersist(1), Commit(1, task)];
            var w' := Step(judge, Run(judge, w, events), BeginGrading(1, e, false, first, second));
            && Inv(w') && Holds(w', 0, e, b.id) && Holds(w', 1, e, a.id) && OpenItem(w', e, a.id)
            && HasItem(w', e, b.id) && a.id != b.id
  {
    hide ComputeSummary, Inv, Find, FirstOpen, DistinctIds, Step, Holds, OpenItem, WithGrading;
    var items := w.store.exams[e].items;
    DistinctInside(w, e);
    FirstOpenFound(items);
    var b := FirstOpen(items).value;
    var w1 := Step(judge, w, BeginGrading(0, e, false, first, second));
    var w2 := Step(judge, w1, BeginGrading(1, e, true, first, second));
    var w3 := Step(judge, w2, BeginPersist(1));
    var w4 := Step(judge, w3, Commit(1, task));
    RunFour(judge, w, BeginGrading(0, e, false, first, second), BeginGrading(1, e, true, first, second),
            BeginPersist(1), Commit(1, task));
    StepKeeps(judge, w, BeginGrading(0, e, false, first, second));
    StepKeeps(judge, w1, BeginGrading(1, e, true, first, second));
    StepKeeps(judge, w2, BeginPersist(1));
    StepKeeps(judge, w3, Commit(1, task));
    StepKeeps(judge, w4, BeginGrading(1, e, false, first, second));
    BothGrade(judge, w, e, first, second);
    TakesOver(judge, w2, e, b.id, task);
    DistinctInside(w4, e);
    GradedItemIsPassed(items, b.id);
    NextItem(judge, w4, e, b.id, first, second);
  }

  lemma GradedItemIsPassed(items: seq<Item>, id: Id)
    requires DistinctIds(items) && Find(items, id) < |items|
    requires FirstOpen(WithGrading(items, id, ForReview(0))).Some?
    ensures var later := WithGrading(items, id, ForReview(0));
            Find(later, id) < |later| && FirstOpen(later).value.id != id
  {
    hide FirstOpen, Find, DistinctIds;
    var later := WithGrading(items, id, ForReview(0));
    GradingOnly(items, Find(items, id), ForReview(0));
    FindSame(items, later, id);
    PaperSymmetric(items, later);
    IdsFromPaper(items, later);
    FirstOpenFound(later);
  }

  lemma DistinctInside(w: World, e: Id)
    requires Inv(w) && e in w.store.exams
    ensures DistinctIds(w.store.exams[e].items)
  {
    hide OpsOk, TasksOk, OneActive;
    assert ExamOk(w.store.exams[e]);
  }

  lemma KnownResults(w: World)
    requires Inv(w)
    ensures forall h :: h in w.ops && w.ops[h].GradedOp? ==> !w.ops[h].grading.status.Ungraded?
  {
    hide ExamsOk, TasksOk, OneActive;
    forall h | h in w.ops && w.ops[h].GradedOp? ensures !w.ops[h].grading.status.Ungraded? {
      assert OpOk(w.store.exams[w.ops[h].exam], w.ops[h]);
    }
  }

  // ---------------------------------------------------------------- the scenes occur

  const ANSWERED := Item("a", "p", ShortAnswer, "key", Some("raw"), UNGRADED)

  const BLANK := Item("b", "p", ShortAnswer, "key", None, UNGRADED)

  lemma {:induction false} RunTimelyAndOn(judge: Judge, w: World, events: seq<Event>, ev: Event)
    requires TimelyRun(judge, w, events) && Timely(Run(judge, w, events), ev)
    ensures TimelyRun(judge, w, events + [ev]) && Run(judge, w, events + [ev]) == Step(judge, Run(judge, w, events), ev)
    decreases |events|
  {
    hide Timely, Step;
    if events == [] {
      assert [ev][1..] == [];
    } else {
      assert (events + [ev])[1..] == events[1..] + [ev];
      RunTimelyAndOn(judge, Step(judge, w, events[0]), events[1..], ev);
    }
  }

  /** One more event that is neither a report nor a discard being written. */
  lemma Reaches(judge: Judge, w: World, ev: Event)
    requires ReachableTimely(judge, w) && Timely(w, ev)
    ensures ReachableTimely(judge, Step(judge, w, ev))
  {
    hide Timely, Step;
    var events :| TimelyRun(judge, EMPTY, events) && w == Run(judge, EMPTY, events);
    RunTimelyAndOn(judge, EMPTY, events, ev);
  }

  function Single(x: Exam, t: Tracking, ts: map<Id, Task>): Store {
    Store(map["e" := x], map["p" := t], ts)
  }

  const FRESH := Tracking(0, 0, 0, None)

  lemma Opened(judge: Judge, items: seq<Item>)
    requires |items| == 2 && items[0] == ANSWERED.(raw := None) && items[1] == BLANK
    ensures ReachableTimely(judge, World(Single(Exam(InProgress, items, ComputeSummary(items)), FRESH, map[]), map[]))
  {
    hide ComputeSummary;
    assert ReachableTimely(judge, EMPTY) by { assert TimelyRun(judge, EMPTY, []) && Run(judge, EMPTY, []) == EMPTY; }
    var w1 := Step(judge, EMPTY, AddProblem("p"));
    Reaches(judge, EMPTY, AddProblem("p"));
    assert FreshItems(w1.store, items);
    Reaches(judge, w1, CreateExam("e", items));
    assert Step(judge, w1, CreateExam("e", items))
           == World(Single(Exam(InProgress, items, ComputeSummary(items)), FRESH, map[]), map[]);
  }

  const TASK := map["t" := Task("e", false)]

  lemma Answered(judge: Judge)
    ensures var items := [ANSWERED, BLANK];
            ReachableTimely(judge, World(Single(Exam(InProgress, items, ComputeSummary(items)), FRESH, map[]), map[]))
  {
    hide ComputeSummary;
    var before, items := [ANSWERED.(raw := None), BLANK], [ANSWERED, BLANK];
    var w := World(Single(Exam(InProgress, before, ComputeSummary(before)), FRESH, map[]), map[]);
    Opened(judge, before);
    Reaches(judge, w, BeginSave(0, "e", "a", Some("raw")));
    var w1 := Step(judge, w, BeginSave(0, "e", "a", Some("raw")));
    assert WithAnswer(before, "a", Some("raw")) == items;
    assert w1.ops == map[0 := SaveOp("e", items)];
    Reaches(judge, w1, Commit(0, "t"));
    assert w1.ops - {0} == map[];
    assert Step(judge, w1, Commit(0, "t"))
           == World(Single(Exam(InProgress, items, ComputeSummary(items)), FRESH, map[]), map[]);
  }

  lemma Frozen(judge: Judge)
    ensures var items := [ANSWERED, BLANK];
            ReachableTimely(judge, World(Single(Exam(BeingGraded, items, ComputeSummary(items)), FRESH, TASK), map[]))
  {
    hide ComputeSummary;
    var items := [ANSWERED, BLANK];
    var w := World(Single(Exam(InProgress, items, ComputeSummary(items)), FRESH, map[]), map[]);
    Answered(judge);
    assert items[0].kind.ShortAnswer? && items[0].raw.Some?;
    Reaches(judge, w, BeginSubmit(0, "e"));
    var w1 := Step(judge, w, BeginSubmit(0, "e"));
    assert w1.ops == map[0 := FreezeOp("e")];
    Reaches(judge, w1, Commit(0, "t"));
    assert w1.ops - {0} == map[];
    assert Step(judge, w1, Commit(0, "t"))
           == World(Single(Exam(BeingGraded, items, ComputeSummary(items)), FRESH, TASK), map[]);
  }

  /** One worker grades the next open item; its only call to the model, if any, breaks. */
  lemma GradesNext(judge: Judge, items: seq<Item>, k: nat)
    requires k < |items| && FirstOpen(items) == Some(items[k]) && Find(items, items[k].id) == k
    requires ReachableTimely(judge, World(Single(Exam(BeingGraded, items, ComputeSummary(items)), FRESH, TASK), map[]))
    ensures var later := items[k := GradeItem(judge, items[k], Broken, Broken)];
            ReachableTimely(judge, World(Single(Exam(BeingGraded, later, ComputeSummary(later)), FRESH, TASK), map[]))
  {
    hide ComputeSummary, FirstOpen, Find, GradeItem;
    var w := World(Single(Exam(BeingGraded, items, ComputeSummary(items)), FRESH, TASK), map[]);
    var g := GradeItem(judge, items[k], Broken, Broken).grading;
    var later := items[k := items[k].(grading := g)];
    assert GradeItem(judge, items[k], Broken, Broken) == items[k].(grading := g) by { OnlyGrading(judge, items[k]); }
    var w1 := Step(judge, w, BeginGrading(0, "e", false, Broken, Broken));
    var w2 := Step(judge, w1, BeginPersist(0));
    Reaches(judge, w, BeginGrading(0, "e", false, Broken, Broken));
    assert w1.ops == map[0 := GradedOp("e", items[k].id, g)];
    Reaches(judge, w1, BeginPersist(0));
    assert w2.ops == map[0 := PersistOp("e", items[k].id, g, items)];
    Reaches(judge, w2, Commit(0, "t"));
    assert w2.ops - {0} == map[];
    assert Step(judge, w2, Commit(0, "t"))
           == World(Single(Exam(BeingGraded, later, ComputeSummary(later)), FRESH, TASK), map[]);
  }

  lemma OnlyGrading(judge: Judge, i: Item)
    ensures GradeItem(judge, i, Broken, Broken) == i.(grading := GradeItem(judge, i, Broken, Broken).grading)
  {
  }

  /** A run from an empty database leads to an exam with two open items, as `LostLease` takes it. */
  lemma TwoOpenItemsOccur(judge: Judge)
    ensures exists w :: && ReachableTimely(judge, w) && Inv(w)
                        && "e" in w.store.exams && w.store.exams["e"].state.BeingGraded?
                        && var items := w.store.exams["e"].items;
                           && FirstOpen(items).Some?
                           && FirstOpen(WithGrading(items, FirstOpen(items).value.id, ForReview(0))).Some?
  {
    hide ComputeSummary, Inv, ReachableTimely;
    var items := [ANSWERED, BLANK];
    var w := World(Single(Exam(BeingGraded, items, ComputeSummary(items)), FRESH, TASK), map[]);
    Frozen(judge);
    TimelyHasBooks(judge, w);
    assert FirstOpen(items) == Some(ANSWERED);
    var later := WithGrading(items, "a", ForReview(0));
    assert later == [ANSWERED.(grading := ForReview(0)), BLANK];
    assert later[1..] == [BLANK];
    assert FirstOpen(later) == FirstOpen([BLANK]) == Some(BLANK);
  }

  lemma TimelyHasBooks(judge: Judge, w: World)
    requires ReachableTimely(judge, w)
    ensures Books(w)
  {
    hide Books, Step, Timely;
    var events :| TimelyRun(judge, EMPTY, events) && w == Run(judge, EMPTY, events);
    EmptyBooks();
    RunKeepsBooks(judge, EMPTY, events);
  }

  /** Another leads to a submitted exam with an item left for review, as `TwoReportsCountTwice` takes it. */
  lemma ItemForReviewOccurs(judge: Judge, correct: bool)
    ensures exists w :: ReachableTimely(judge, w) && Books(w) && ReadForReport(w.store, "e", "a", correct).Some?
  {
    hide ComputeSummary, ReachableTimely, Books;
    var items := [ANSWERED, BLANK];
    var graded := items[0 := GradeItem(judge, ANSWERED, Broken, Broken)];
    var all := graded[1 := GradeItem(judge, BLANK, Broken, Broken)];
    Frozen(judge);
    GradesNext(judge, items, 0);
    assert graded[1..] == [BLANK];
    assert FirstOpen(graded) == FirstOpen([BLANK]) == Some(BLANK);
    assert Find(graded, "b") == Find([BLANK], "b") + 1;
    GradesNext(judge, graded, 1);
    var w := World(Single(Exam(BeingGraded, all, ComputeSummary(all)), FRESH, TASK), map[]);
    assert Timely(w, Finalize("e", Some("t")));
    ReachesEnd(judge, w, Finalize("e", Some("t")));
    var w' := Step(judge, w, Finalize("e", Some("t")));
    assert AllTerminal(all);
    assert w'.store.exams["e"].state.Submitted? && w'.store.exams["e"].items == all;
    assert all[0].id == "a" && Find(all, "a") == 0 && all[0].grading.status.PendingReview?;
    assert ReadForReport(w'.store, "e", "a", correct).Some?;
  }

  lemma ReachesEnd(judge: Judge, w: World, ev: Event)
    requires ReachableTimely(judge, w) && Timely(w, ev)
    ensures ReachableTimely(judge, Step(judge, w, ev)) && Books(Step(judge, w, ev))
  {
    hide Timely, Step, Books, ReachableTimely;
    Reaches(judge, w, ev);
    TimelyHasBooks(judge, Step(judge, w, ev));
  }

  /** And one leads to an exam in progress that its submission grades, as `OvertakenDiscard` takes it. */
  lemma GradableExamOccurs(judge: Judge)
    ensures exists w :: && ReachableTimely(judge, w) && Books(w)
                        && "e" in w.store.exams && w.store.exams["e"].state.InProgress?
                        && !RequiresVlm(w.store.exams["e"].items) && w.store.exams["e"].items != []
  {
    hide ComputeSummary, ReachableTimely, Books;
    var items := [ANSWERED.(raw := None), BLANK];
    var w := World(Single(Exam(InProgress, items, ComputeSummary(items)), FRESH, map[]), map[]);
    Opened(judge, items);
    TimelyHasBooks(judge, w);
    assert !RequiresVlm(items);
  }
}
