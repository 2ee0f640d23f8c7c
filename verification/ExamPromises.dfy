/** The exam lifecycle as a whole: every interleaving from an empty database. */
module ExamPromises {
  import opened Exams
  import opened ExamRuns
  import opened ExamTheorems
  import opened ExamConservation

  ghost predicate Reachable(judge: Judge, w: World) {
    exists events :: w == Run(judge, EMPTY, events)
  }

  /** By runs whose self-reports and discards are written in time. */
  ghost predicate ReachableTimely(judge: Judge, w: World) {
    exists events :: TimelyRun(judge, EMPTY, events) && w == Run(judge, EMPTY, events)
  }

  lemma ReachableInv(judge: Judge, w: World)
    requires Reachable(judge, w)
    ensures Inv(w)
  {
    var events :| w == Run(judge, EMPTY, events);
    RunKeeps(judge, EMPTY, events);
  }

  // ---------------------------------------------------------------- submission

  /** A synchronous submission takes effect exactly when the items stored at that moment are the ones
      it graded; the submitted exam then holds those items, graded, and no other answers. */
  lemma SubmitFreezesWhatIsStored(judge: Judge, w: World, h: nat, task: Id)
    requires Reachable(judge, w) && h in w.ops && w.ops[h].SubmitOp?
    ensures w.ops[h].exam in w.store.exams && w.ops[h].exam in Step(judge, w, Commit(h, task)).store.exams
    ensures var op, x := w.ops[h], w.store.exams[w.ops[h].exam];
            var y := Step(judge, w, Commit(h, task)).store.exams[op.exam];
            && (y != x <==> x.state.InProgress? && op.read == x.items)
            && (y != x ==> y.state.Submitted? && y.items == GradeAll(judge, x.items) && SameAnswers(x.items, y.items)
                           && y.summary == ComputeSummary(y.items))
  {
    hide GradeAll, RequiresVlm, ComputeSummary;
    ReachableInv(judge, w);
    var op, x := w.ops[h], w.store.exams[w.ops[h].exam];
    assert OpOk(x, op) && ExamOk(x);
    if x.state.InProgress? && AnswersUnchanged(op.read, x.items) {
      SubmitReadsWhatIsStored(x, op.read);
      GradedAllOk(judge, op.read);
    }
    if op.read == x.items {
      UnchangedIsSameAnswers(op.read, x.items);
    }
  }

  /** Once an exam has left in-progress no run changes its questions or its raw answers, and its state
      moves only along the transition table or, by a late discard, from submitted to discarded. */
  lemma AnswersFrozenOverRuns(judge: Judge, w: World, events: seq<Event>, e: Id)
    requires Reachable(judge, w) && e in w.store.exams
    ensures var s' := Run(judge, w, events).store;
            && e in s'.exams && SamePaper(w.store.exams[e].items, s'.exams[e].items)
            && Leads(w.store.exams[e].state, s'.exams[e].state)
            && (!w.store.exams[e].state.InProgress? ==> SameAnswers(w.store.exams[e].items, s'.exams[e].items))
  {
    hide Inv;
    ReachableInv(judge, w);
    RunKeeps(judge, w, events);
    assert Evolves(w.store.exams[e], Run(judge, w, events).store.exams[e]);
  }

  /** A discard is written over an exam that has been submitted since it was read. */
  predicate LateDiscard(w: World, ev: Event, e: Id) {
    && ev.Commit? && ev.op in w.ops && w.ops[ev.op] == DiscardOp(e)
    && e in w.store.exams && w.store.exams[e].state.Submitted?
  }

  /** One event leaves the transition table exactly when it is a late discard. */
  lemma StepLeavesTableIff(judge: Judge, w: World, ev: Event, e: Id)
    requires Inv(w) && e in w.store.exams
    ensures e in Step(judge, w, ev).store.exams
    ensures InTable(w.store.exams[e].state, Step(judge, w, ev).store.exams[e].state) <==> !LateDiscard(w, ev, e)
  {
    hide Inv, GradeAll, ComputeSummary, RequiresVlm, ReadForGrading, ReadForReport, ReadForPersist, TrackAll,
         FreshItems, SamePaper, SameAnswers;
    StepKeeps(judge, w, ev);
    assert Evolves(w.store.exams[e], Step(judge, w, ev).store.exams[e]);
  }

  predicate DiscardsInTime(judge: Judge, w: World, events: seq<Event>, e: Id)
    decreases |events|
  {
    events == [] || (!LateDiscard(w, events[0], e) && DiscardsInTime(judge, Step(judge, w, events[0]), events[1..], e))
  }

  lemma {:induction false} StatesFollowTable(judge: Judge, w: World, events: seq<Event>, e: Id)
    requires Inv(w) && e in w.store.exams && DiscardsInTime(judge, w, events, e)
    ensures e in Run(judge, w, events).store.exams
    ensures InTable(w.store.exams[e].state, Run(judge, w, events).store.exams[e].state)
    decreases |events|
  {
    hide Inv, Step, LateDiscard;
    if events != [] {
      StepKeeps(judge, w, events[0]);
      StepLeavesTableIff(judge, w, events[0], e);
      StatesFollowTable(judge, Step(judge, w, events[0]), events[1..], e);
    }
  }

  /** However often an exam is submitted there is at most one grading task for it: none before it is
      frozen, exactly one while it is being graded. */
  lemma AtMostOneGradingTask(judge: Judge, w: World, e: Id)
    requires Reachable(judge, w) && e in w.store.exams
    ensures forall t, u ::
              t in w.store.tasks && u in w.store.tasks && w.store.tasks[t].exam == w.store.tasks[u].exam == e ==> t == u
    ensures w.store.exams[e].state.InProgress? ==> forall t :: t in w.store.tasks ==> w.store.tasks[t].exam != e
    ensures w.store.exams[e].state.BeingGraded? ==> exists t :: t in w.store.tasks && w.store.tasks[t].exam == e
  {
    hide ExamOk, OpOk;
    ReachableInv(judge, w);
  }

  /** There is never more than one exam in progress or being graded. */
  lemma OneActiveExam(judge: Judge, w: World, e: Id, f: Id)
    requires Reachable(judge, w) && e in w.store.exams && f in w.store.exams
    requires Active(w.store.exams[e]) && Active(w.store.exams[f])
    ensures e == f
  {
    hide ExamsOk, TasksOk, OpsOk;
    ReachableInv(judge, w);
  }

  /** While answers can be saved, and from submission on, the stored summary is the computed one, and
      a submitted exam has no item without a result. */
  lemma SummaryMatchesItems(judge: Judge, w: World, e: Id)
    requires Reachable(judge, w) && e in w.store.exams
    ensures var x := w.store.exams[e];
            && (x.state.InProgress? || x.state.Submitted? ==> x.summary == ComputeSummary(x.items))
            && (x.state.Submitted? ==> NoneUngraded(x.items))
  {
    hide ComputeSummary, OpsOk;
    ReachableInv(judge, w);
    assert ExamOk(w.store.exams[e]);
  }

  // ---------------------------------------------------------------- counters

  lemma {:induction false} EmptyBooks()
    ensures Books(EMPTY)
  {
  }

  /** In every interleaving whose self-reports are written over the items they read, and whose discards
      are written before submission or over an exam that counted nothing, the counters of every problem
      equal its history over the submitted exams. */
  lemma CountersEqualHistory(judge: Judge, w: World, p: Id)
    requires ReachableTimely(judge, w) && p in w.store.problems
    ensures CountersMatch(w.store, p)
  {
    hide Inv, ProblemsKnown, Step, Timely;
    var events :| TimelyRun(judge, EMPTY, events) && w == Run(judge, EMPTY, events);
    EmptyBooks();
    RunKeepsBooks(judge, EMPTY, events);
  }

  /** Submitted, or discarded late. */
  predicate Closed(x: Exam) {
    x.state.Submitted? || x.state.Discarded?
  }

  /** Items resolved in a submitted exam: none of them is ever resolved again. */
  predicate ResolvedStay(x: Exam, y: Exam) {
    Closed(x) ==>
      && Closed(y) && |x.items| == |y.items|
      && forall k :: 0 <= k < |x.items| && !x.items[k].grading.status.PendingReview? ==>
         y.items[k].grading == x.items[k].grading
  }

  predicate StoreResolvedStay(s: Store, s': Store) {
    forall e | e in s.exams :: e in s'.exams && ResolvedStay(s.exams[e], s'.exams[e])
  }

  lemma StepKeepsResolved(judge: Judge, w: World, ev: Event)
    requires Inv(w) && ReportCurrent(w, ev)
    ensures StoreResolvedStay(w.store, Step(judge, w, ev).store)
  {
    hide GradeAll, ComputeSummary, RequiresVlm, ReadForGrading, TrackAll, FreshItems, TasksOk, OneActive, Coherent,
         ReadForReport;
    if ev.Commit? && ev.op in w.ops {
      var op := w.ops[ev.op];
      assert OpOk(w.store.exams[op.exam], op);
    }
  }

  lemma {:induction false} ResolvedOnceOverRuns(judge: Judge, w: World, events: seq<Event>)
    requires Inv(w) && ReportsCurrent(judge, w, events)
    ensures StoreResolvedStay(w.store, Run(judge, w, events).store)
    decreases |events|
  {
    hide Inv, Step, ReportCurrent;
    if events != [] {
      StepKeepsResolved(judge, w, events[0]);
      StepKeeps(judge, w, events[0]);
      ResolvedOnceOverRuns(judge, Step(judge, w, events[0]), events[1..]);
    }
  }

  // ---------------------------------------------------------------- the summary while grading

  /** A status counted over all items but one. */
  function OtherCount(items: seq<Item>, k: nat, s: Status): int
    requires k < |items|
  {
    CountStatus(items, s) - (if items[k].grading.status == s then 1 else 0)
  }

  predicate SameOtherCounts(a: seq<Item>, b: seq<Item>, k: nat)
    requires k < |a| && k < |b|
  {
    && OtherCount(a, k, Correct) == OtherCount(b, k, Correct)
    && OtherCount(a, k, Incorrect) == OtherCount(b, k, Incorrect)
    && OtherCount(a, k, PendingReview) == OtherCount(b, k, PendingReview)
  }

  lemma FindSame(a: seq<Item>, b: seq<Item>, id: Id)
    requires SameAnswers(a, b)
    ensures Find(a, id) == Find(b, id)
  {
    if a != [] {
      assert a[0].(grading := UNGRADED) == b[0].(grading := UNGRADED);
      assert forall k :: 0 <= k < |a| - 1 ==> a[1..][k] == a[k + 1] && b[1..][k] == b[k + 1];
      FindSame(a[1..], b[1..], id);
    }
  }

  /** While grading, a worker leaves the summary right exactly when the other items had, when it read
      them, the results they have when it writes. */
  lemma PersistSummaryExactly(judge: Judge, w: World, h: nat, task: Id)
    requires Inv(w) && h in w.ops && w.ops[h].PersistOp?
    requires w.store.exams[w.ops[h].exam].state.BeingGraded?
    requires Find(w.store.exams[w.ops[h].exam].items, w.ops[h].item) < |w.store.exams[w.ops[h].exam].items|
    ensures var op, x := w.ops[h], w.store.exams[w.ops[h].exam];
            var y := Step(judge, w, Commit(h, task)).store.exams[op.exam];
            var k := Find(x.items, op.item);
            |op.read| == |x.items| && (y.summary == ComputeSummary(y.items) <==> SameOtherCounts(op.read, x.items, k))
  {
    hide ExamsOk, TasksOk, OneActive;
    var op, x := w.ops[h], w.store.exams[w.ops[h].exam];
    assert OpOk(x, op);
    var k := Find(x.items, op.item);
    FindSame(op.read, x.items, op.item);
    var a, b := WithGrading(op.read, op.item, op.grading), WithGrading(x.items, op.item, op.grading);
    SummariesAgree(op.read, x.items, k, op.grading);
  }

  lemma SummariesAgree(read: seq<Item>, current: seq<Item>, k: nat, g: Grading)
    requires SameAnswers(read, current) && k < |read|
    ensures var a, b := read[k := read[k].(grading := g)], current[k := current[k].(grading := g)];
            ComputeSummary(a) == ComputeSummary(b) <==> SameOtherCounts(read, current, k)
  {
    var a, b := read[k := read[k].(grading := g)], current[k := current[k].(grading := g)];
    forall s ensures CountStatus(a, s) == OtherCount(read, k, s) + (if g.status == s then 1 else 0)
             ensures CountStatus(b, s) == OtherCount(current, k, s) + (if g.status == s then 1 else 0)
    {
      StatusUpdate(read, k, read[k].(grading := g), s);
      StatusUpdate(current, k, current[k].(grading := g), s);
    }
    forall j | 0 <= j < |a| ensures a[j].(grading := UNGRADED) == b[j].(grading := UNGRADED) {
      assert read[j].(grading := UNGRADED) == current[j].(grading := UNGRADED);
    }
    AnsweredSame(a, b);
  }

  /** A worker's result is written over the very items it read. */
  predicate ResultCurrent(w: World, ev: Event) {
    ev.Commit? && ev.op in w.ops && w.ops[ev.op].PersistOp? && w.ops[ev.op].exam in w.store.exams ==>
      var x := w.store.exams[w.ops[ev.op].exam];
      x.state.BeingGraded? ==> w.ops[ev.op].read == x.items
  }

  predicate ResultsCurrent(judge: Judge, w: World, events: seq<Event>)
    decreases |events|
  {
    events == [] || (ResultCurrent(w, events[0]) && ResultsCurrent(judge, Step(judge, w, events[0]), events[1..]))
  }

  predicate SummariesRight(s: Store) {
    forall e | e in s.exams :: s.exams[e].summary == ComputeSummary(s.exams[e].items)
  }

  lemma StepKeepsSummaries(judge: Judge, w: World, ev: Event)
    requires Inv(w) && SummariesRight(w.store) && ResultCurrent(w, ev)
    ensures SummariesRight(Step(judge, w, ev).store)
  {
    hide GradeAll, ComputeSummary, RequiresVlm, ReadForGrading, TrackAll, FreshItems, TasksOk, OneActive, Coherent,
         ReadForReport;
  }

  lemma {:induction false} SummariesRightOverRuns(judge: Judge, w: World, events: seq<Event>)
    requires Inv(w) && SummariesRight(w.store) && ResultsCurrent(judge, w, events)
    ensures SummariesRight(Run(judge, w, events).store)
    decreases |events|
  {
    hide Inv, Step, ResultCurrent, SummariesRight;
    if events != [] {
      StepKeepsSummaries(judge, w, events[0]);
      StepKeeps(judge, w, events[0]);
      SummariesRightOverRuns(judge, Step(judge, w, events[0]), events[1..]);
    }
  }
}
