/** What every run of the exam endpoints keeps, whatever the interleaving. */
module ExamTheorems {
  import opened Prelude
  import opened Exams
  import opened ExamRuns

  // ---------------------------------------------------------------- how an exam may change

  /** The transition table, closed under repetition, and the one step a late discard takes beside it. */
  predicate Leads(x: State, y: State) {
    InTable(x, y) || (x.Submitted? && y.Discarded?)
  }

  /** The transition table, closed under repetition. */
  predicate InTable(x: State, y: State) {
    match x
    case InProgress => true
    case BeingGraded => y.BeingGraded? || y.Submitted? || y.Discarded?
    case Submitted => y.Submitted?
    case Discarded => y.Discarded?
  }

  /** The questions never change; the answers never change once the exam has left in-progress. */
  predicate Evolves(x: Exam, y: Exam) {
    && Leads(x.state, y.state)
    && SamePaper(x.items, y.items)
    && (!x.state.InProgress? ==> SameAnswers(x.items, y.items))
  }

  lemma EvolvesTransitive(x: Exam, y: Exam, z: Exam)
    requires Evolves(x, y) && Evolves(y, z)
    ensures Evolves(x, z)
  {
    forall k | 0 <= k < |x.items| ensures Question(x.items[k]) == Question(z.items[k]) {
      assert Question(x.items[k]) == Question(y.items[k]);
    }
    if !x.state.InProgress? {
      forall k | 0 <= k < |x.items| ensures x.items[k].(grading := UNGRADED) == z.items[k].(grading := UNGRADED) {
        assert x.items[k].(grading := UNGRADED) == y.items[k].(grading := UNGRADED);
      }
    }
  }

  predicate Untouched(items: seq<Item>) {
    forall k :: 0 <= k < |items| ==> items[k].grading == UNGRADED
  }

  predicate ExamOk(x: Exam) {
    && DistinctIds(x.items) && AllCoherent(x.items)
    && (x.state.InProgress? ==> Untouched(x.items) && x.summary == ComputeSummary(x.items))
    && (x.state.Submitted? ==> NoneUngraded(x.items) && x.summary == ComputeSummary(x.items))
  }

  /** What an operation still knows about the exam it read. */
  predicate OpOk(x: Exam, op: Op) {
    match op
    case SaveOp(_, items) => SamePaper(items, x.items) && Untouched(items)
    case SubmitOp(_, read) => SamePaper(read, x.items) && Untouched(read) && !RequiresVlm(read)
    case FreezeOp(_) => true
    case GradedOp(_, _, g) => !x.state.InProgress? && Coherent(g) && !g.status.Ungraded?
    case PersistOp(_, _, g, read) =>
      !x.state.InProgress? && Coherent(g) && !g.status.Ungraded? && SameAnswers(read, x.items)
    case ReportOp(_, item, _, read) =>
      && (x.state.Submitted? || x.state.Discarded?) && SameAnswers(read, x.items) && AllCoherent(read)
      && NoneUngraded(read)
      && Find(read, item) < |read| && read[Find(read, item)].grading.status.PendingReview?
    case DiscardOp(_) => true
  }

  lemma PaperSymmetric(a: seq<Item>, b: seq<Item>)
    ensures SamePaper(a, b) ==> SamePaper(b, a)
    ensures SameAnswers(a, b) ==> SameAnswers(b, a) && SamePaper(a, b)
  {
    if SameAnswers(a, b) {
      forall k | 0 <= k < |a| ensures Question(a[k]) == Question(b[k]) {
        assert a[k].(grading := UNGRADED) == b[k].(grading := UNGRADED);
      }
    }
  }

  lemma PaperChain(a: seq<Item>, b: seq<Item>, c: seq<Item>)
    ensures SamePaper(a, b) && SamePaper(b, c) ==> SamePaper(a, c)
    ensures SameAnswers(a, b) && SameAnswers(b, c) ==> SameAnswers(a, c)
  {
    if SamePaper(a, b) && SamePaper(b, c) {
      forall k | 0 <= k < |a| ensures Question(a[k]) == Question(c[k]) { assert Question(a[k]) == Question(b[k]); }
    }
    if SameAnswers(a, b) && SameAnswers(b, c) {
      forall k | 0 <= k < |a| ensures a[k].(grading := UNGRADED) == c[k].(grading := UNGRADED) {
        assert a[k].(grading := UNGRADED) == b[k].(grading := UNGRADED);
      }
    }
  }

  lemma OpOkEvolves(x: Exam, y: Exam, op: Op)
    requires OpOk(x, op) && Evolves(x, y)
    ensures OpOk(y, op)
  {
    hide SamePaper, SameAnswers;
    match op
    case SaveOp(_, items) => PaperChain(items, x.items, y.items);
    case SubmitOp(_, read) => PaperChain(read, x.items, y.items);
    case PersistOp(_, _, _, read) => PaperChain(read, x.items, y.items);
    case ReportOp(_, _, _, read) => PaperChain(read, x.items, y.items);
    case _ =>
  }

  lemma IdsFromPaper(a: seq<Item>, b: seq<Item>)
    requires SamePaper(a, b) && DistinctIds(a)
    ensures DistinctIds(b)
  {
    forall j, k | 0 <= j < k < |b| ensures b[j].id != b[k].id {
      assert Question(a[j]) == Question(b[j]) && Question(a[k]) == Question(b[k]);
    }
  }

  lemma GradingOnly(items: seq<Item>, k: nat, g: Grading)
    requires k < |items|
    ensures SameAnswers(items, items[k := items[k].(grading := g)])
  {
  }

  /** The items stored when a synchronous submission commits are the very items it graded. */
  lemma SubmitReadsWhatIsStored(x: Exam, read: seq<Item>)
    requires ExamOk(x) && x.state.InProgress? && SamePaper(read, x.items) && Untouched(read)
             && AnswersUnchanged(read, x.items)
    ensures read == x.items
  {
    UnchangedIsSameAnswers(read, x.items);
    forall k | 0 <= k < |read| ensures read[k] == x.items[k] {
      assert read[k].(grading := UNGRADED) == x.items[k].(grading := UNGRADED);
    }
  }

  lemma GradedAllOk(judge: Judge, items: seq<Item>)
    requires !RequiresVlm(items)
    ensures var g := GradeAll(judge, items); AllCoherent(g) && NoneUngraded(g) && SameAnswers(items, g)
    ensures var g := GradeAll(judge, items); forall k :: 0 <= k < |g| ==> !g[k].grading.status.PendingReview?
  {
    forall k | 0 <= k < |items|
      ensures var g := GradeAll(judge, items)[k].grading; Coherent(g) && (g.status.Correct? || g.status.Incorrect?) {
      SynchronousGradingIsComplete(judge, items, k, Broken, Broken);
    }
  }

  /** New items that are a version of the stored ones. */
  lemma NewItemsOk(x: Exam, items: seq<Item>)
    requires DistinctIds(x.items) && SamePaper(x.items, items)
    ensures DistinctIds(items)
  {
    IdsFromPaper(x.items, items);
  }

  lemma SaveKeeps(judge: Judge, x: Exam, op: Op)
    requires ExamOk(x) && OpOk(x, op) && op.SaveOp?
    ensures ExamOk(CommitExam(judge, x, op)) && Evolves(x, CommitExam(judge, x, op))
  {
    hide ComputeSummary, SamePaper, DistinctIds;
    PaperSymmetric(op.items, x.items);
    NewItemsOk(x, op.items);
    PaperSelf(x.items);
  }

  lemma PaperSelf(items: seq<Item>)
    ensures SamePaper(items, items) && SameAnswers(items, items)
  {
  }

  lemma SubmitKeeps(judge: Judge, x: Exam, op: Op)
    requires ExamOk(x) && OpOk(x, op) && op.SubmitOp?
    ensures ExamOk(CommitExam(judge, x, op)) && Evolves(x, CommitExam(judge, x, op))
  {
    hide GradeAll, RequiresVlm, ComputeSummary, AnswersUnchanged, SamePaper, SameAnswers, DistinctIds;
    PaperSelf(x.items);
    if CommitExam(judge, x, op) != x {
      SubmitReadsWhatIsStored(x, op.read);
      GradedAllOk(judge, op.read);
      PaperSymmetric(op.read, GradeAll(judge, op.read));
      NewItemsOk(x, GradeAll(judge, op.read));
    }
  }

  lemma PersistKeeps(judge: Judge, x: Exam, op: Op)
    requires ExamOk(x) && OpOk(x, op) && op.PersistOp?
    ensures ExamOk(CommitExam(judge, x, op)) && Evolves(x, CommitExam(judge, x, op))
  {
    hide ComputeSummary, SamePaper, SameAnswers, DistinctIds;
    var k := Find(x.items, op.item);
    PaperSelf(x.items);
    if k < |x.items| {
      GradingOnly(x.items, k, op.grading);
      PaperSymmetric(x.items, WithGrading(x.items, op.item, op.grading));
      NewItemsOk(x, WithGrading(x.items, op.item, op.grading));
    }
  }

  lemma ReportKeeps(judge: Judge, x: Exam, op: Op)
    requires ExamOk(x) && OpOk(x, op) && op.ReportOp?
    ensures ExamOk(CommitExam(judge, x, op)) && Evolves(x, CommitExam(judge, x, op))
  {
    hide ComputeSummary, SamePaper, SameAnswers, DistinctIds;
    var k := Find(op.read, op.item);
    PaperSelf(x.items);
    GradingOnly(op.read, k, Reported(op.read[k].grading, op.correct));
    PaperSymmetric(op.read, x.items);
    PaperChain(x.items, op.read, ReportedItems(op));
    PaperSymmetric(x.items, ReportedItems(op));
    NewItemsOk(x, ReportedItems(op));
  }

  lemma DiscardKeeps(judge: Judge, x: Exam, op: Op)
    requires ExamOk(x) && op.DiscardOp?
    ensures ExamOk(CommitExam(judge, x, op)) && Evolves(x, CommitExam(judge, x, op))
  {
    PaperSelf(x.items);
  }

  lemma CommitExamKeeps(judge: Judge, x: Exam, op: Op)
    requires ExamOk(x) && OpOk(x, op)
    ensures ExamOk(CommitExam(judge, x, op)) && Evolves(x, CommitExam(judge, x, op))
  {
    match op
    case SaveOp(_, _) => SaveKeeps(judge, x, op);
    case SubmitOp(_, _) => SubmitKeeps(judge, x, op);
    case PersistOp(_, _, _, _) => PersistKeeps(judge, x, op);
    case ReportOp(_, _, _, _) => ReportKeeps(judge, x, op);
    case DiscardOp(_) => DiscardKeeps(judge, x, op);
    case _ => PaperSelf(x.items);
  }

  lemma FinalExamKeeps(x: Exam)
    requires ExamOk(x)
    ensures ExamOk(FinalExam(x)) && Evolves(x, FinalExam(x))
  {
    hide ComputeSummary;
  }

  // ---------------------------------------------------------------- the store

  predicate TasksOk(s: Store) {
    && (forall t | t in s.tasks :: s.tasks[t].exam in s.exams && !s.exams[s.tasks[t].exam].state.InProgress?)
    && (forall t, u | t in s.tasks && u in s.tasks && t != u :: s.tasks[t].exam != s.tasks[u].exam)
    && (forall e | e in s.exams && s.exams[e].state.BeingGraded? :: exists t | t in s.tasks :: s.tasks[t].exam == e)
  }

  predicate OneActive(s: Store) {
    forall e, f | e in s.exams && f in s.exams && Active(s.exams[e]) && Active(s.exams[f]) :: e == f
  }

  predicate ExamsOk(s: Store) {
    forall e | e in s.exams :: ExamOk(s.exams[e])
  }

  predicate OpsOk(w: World) {
    forall h | h in w.ops :: w.ops[h].exam in w.store.exams && OpOk(w.store.exams[w.ops[h].exam], w.ops[h])
  }

  predicate Inv(w: World) {
    ExamsOk(w.store) && TasksOk(w.store) && OneActive(w.store) && OpsOk(w)
  }

  predicate StoreEvolves(s: Store, s': Store) {
    forall e | e in s.exams :: e in s'.exams && Evolves(s.exams[e], s'.exams[e])
  }

  lemma OpsUnderEvolution(w: World, s': Store, ops': map<nat, Op>)
    requires OpsOk(w) && StoreEvolves(w.store, s')
    requires forall h :: h in ops' && (h !in w.ops || ops'[h] != w.ops[h]) ==>
             ops'[h].exam in s'.exams && OpOk(s'.exams[ops'[h].exam], ops'[h])
    ensures OpsOk(World(s', ops'))
  {
    hide OpOk, Evolves;
    forall h | h in ops' ensures ops'[h].exam in s'.exams && OpOk(s'.exams[ops'[h].exam], ops'[h]) {
      if h in w.ops && ops'[h] == w.ops[h] {
        var e := ops'[h].exam;
        OpOkEvolves(w.store.exams[e], s'.exams[e], ops'[h]);
      }
    }
  }

  /** Replacing one exam by a later version of it. */
  lemma ReplaceExam(s: Store, e: Id, y: Exam, ps: map<Id, Tracking>, ts: map<Id, Task>)
    requires ExamsOk(s) && TasksOk(s) && OneActive(s) && e in s.exams && ExamOk(y) && Evolves(s.exams[e], y)
    requires ts.Keys >= s.tasks.Keys && (forall t :: t in s.tasks ==> ts[t].exam == s.tasks[t].exam)
    requires forall t :: t in ts && t !in s.tasks ==>
             ts[t].exam == e && s.exams[e].state.InProgress? && !y.state.InProgress?
    requires forall t, u :: t in ts && u in ts && t !in s.tasks && u !in s.tasks ==> t == u
    requires y.state.BeingGraded? ==> exists t :: t in ts && ts[t].exam == e
    ensures var s' := Store(s.exams[e := y], ps, ts); ExamsOk(s') && TasksOk(s') && OneActive(s') && StoreEvolves(s, s')
  {
    hide ExamOk, SamePaper, SameAnswers, TasksOk, Evolves;
    var s' := Store(s.exams[e := y], ps, ts);
    assert Active(y) ==> Active(s.exams[e]) by { EvolvesStates(s.exams[e], y); }
    forall f | f in s.exams ensures Evolves(s.exams[f], s'.exams[f]) {
      SelfEvolves(s.exams[f]);
    }
    EvolvesStates(s.exams[e], y);
    ReplaceTasks(s, e, y, ps, ts);
  }

  lemma EvolvesStates(x: Exam, y: Exam)
    requires Evolves(x, y)
    ensures Leads(x.state, y.state)
  {
  }

  lemma ReplaceTasks(s: Store, e: Id, y: Exam, ps: map<Id, Tracking>, ts: map<Id, Task>)
    requires TasksOk(s) && e in s.exams && Leads(s.exams[e].state, y.state)
    requires ts.Keys >= s.tasks.Keys && (forall t :: t in s.tasks ==> ts[t].exam == s.tasks[t].exam)
    requires forall t :: t in ts && t !in s.tasks ==>
             ts[t].exam == e && s.exams[e].state.InProgress? && !y.state.InProgress?
    requires forall t, u :: t in ts && u in ts && t !in s.tasks && u !in s.tasks ==> t == u
    requires y.state.BeingGraded? ==> exists t :: t in ts && ts[t].exam == e
    ensures TasksOk(Store(s.exams[e := y], ps, ts))
  {
    var s' := Store(s.exams[e := y], ps, ts);
    forall f | f in s'.exams && s'.exams[f].state.BeingGraded? ensures exists t | t in ts :: ts[t].exam == f {
      if f != e {
        var t :| t in s.tasks && s.tasks[t].exam == f;
        assert ts[t].exam == f;
      }
    }
  }

  lemma SelfEvolves(x: Exam)
    ensures Evolves(x, x)
  {
  }

  lemma CommitKeeps(judge: Judge, w: World, h: nat, task: Id)
    requires Inv(w) && h in w.ops
    ensures Inv(Step(judge, w, Commit(h, task))) && StoreEvolves(w.store, Step(judge, w, Commit(h, task)).store)
  {
    hide ExamOk, OpOk, Evolves, CommitExam, CommitTracking;
    var s, op := w.store, w.ops[h];
    var x, s' := s.exams[op.exam], Committed(judge, s, op, task);
    if s' == s {
      forall f | f in s.exams ensures Evolves(s.exams[f], s.exams[f]) { SelfEvolves(s.exams[f]); }
    } else {
      CommitExamKeeps(judge, x, op);
      CommitStates(judge, x, op);
      assert x.state.BeingGraded? ==> exists t | t in s.tasks :: s.tasks[t].exam == op.exam;
      ReplaceExam(s, op.exam, CommitExam(judge, x, op), CommitTracking(judge, x, op, s.problems),
                  CommitTasks(x, op, task, s.tasks));
    }
    OpsUnderEvolution(w, s', w.ops - {h});
  }

  lemma CommitStates(judge: Judge, x: Exam, op: Op)
    ensures var y := CommitExam(judge, x, op);
            && (op.FreezeOp? && x.state.InProgress? ==> y.state.BeingGraded?)
            && (y.state.BeingGraded? ==> x.state.BeingGraded? || (op.FreezeOp? && x.state.InProgress?))
            && (op.FreezeOp? && !x.state.InProgress? ==> y == x)
  {
  }

  lemma ReadsKeep(judge: Judge, w: World, h: nat, read: Option<Op>)
    requires Inv(w)
    requires read.Some? ==> read.value.exam in w.store.exams && OpOk(w.store.exams[read.value.exam], read.value)
    ensures Inv(w.(ops := Put(w.ops, h, read)))
  {
    hide ExamOk, OpOk;
  }

  lemma SaveReadOk(s: Store, e: Id, item: Id, raw: Option<string>)
    requires ExamsOk(s) && ReadForSave(s, e, item, raw).Some?
    ensures OpOk(s.exams[e], ReadForSave(s, e, item, raw).value)
  {
  }

  lemma PersistReadOk(w: World, h: nat)
    requires Inv(w) && h in w.ops
    ensures var read := ReadForPersist(w.store, w.ops[h]);
            read.Some? ==> read.value.exam in w.store.exams && OpOk(w.store.exams[read.value.exam], read.value)
  {
    hide ExamsOk, TasksOk, OneActive, SameAnswers;
    assert OpOk(w.store.exams[w.ops[h].exam], w.ops[h]);
    PaperSelf(w.store.exams[w.ops[h].exam].items);
  }

  lemma ReportReadOk(s: Store, e: Id, item: Id, correct: bool)
    requires ExamsOk(s)
    ensures var read := ReadForReport(s, e, item, correct);
            read.Some? ==> read.value.exam == e && e in s.exams && OpOk(s.exams[e], read.value)
  {
    hide TasksOk, OneActive, SameAnswers, ComputeSummary;
    if e in s.exams {
      assert ExamOk(s.exams[e]);
      PaperSelf(s.exams[e].items);
    }
  }

  lemma GradedCoherent(judge: Judge, i: Item, first: Reply, second: Reply)
    ensures var g := GradeItem(judge, i, first, second).grading; Coherent(g) && !g.status.Ungraded?
  {
  }

  lemma StepKeeps(judge: Judge, w: World, ev: Event)
    requires Inv(w)
    ensures Inv(Step(judge, w, ev)) && StoreEvolves(w.store, Step(judge, w, ev).store)
  {
    hide Evolves, Committed, Created, Finalized, GradeItem, ComputeSummary, CommitExam, FreshItems, FirstOpen,
         ReadForReport, ReadForPersist;
    var s := w.store;
    forall f | f in s.exams ensures Evolves(s.exams[f], s.exams[f]) { SelfEvolves(s.exams[f]); }
    match ev
    case CreateExam(e, items) => CreateKeeps(w, e, items);
    case AddProblem(p) => OpsUnderEvolution(w, Step(judge, w, ev).store, w.ops);
    case BeginSave(h, e, item, raw) =>
      if ReadForSave(s, e, item, raw).Some? { SaveReadOk(s, e, item, raw); }
      ReadsKeep(judge, w, h, ReadForSave(s, e, item, raw));
    case BeginSubmit(h, e) => ReadsKeep(judge, w, h, ReadForSubmit(s, e));
    case BeginGrading(h, e, crashed, first, second) =>
      if ReadForGrading(judge, s, e, crashed, first, second).Some? {
        GradedCoherent(judge, FirstOpen(s.exams[e].items).value, first, second);
      }
      ReadsKeep(judge, w, h, ReadForGrading(judge, s, e, crashed, first, second));
    case BeginPersist(h) =>
      if h in w.ops {
        PersistReadOk(w, h);
        ReadsKeep(judge, w, h, ReadForPersist(s, w.ops[h]));
      }
    case BeginReport(h, e, item, correct) =>
      ReportReadOk(s, e, item, correct);
      ReadsKeep(judge, w, h, ReadForReport(s, e, item, correct));
    case Commit(h, task) => if h in w.ops { CommitKeeps(judge, w, h, task); }
    case Finalize(e, owned) => FinalizeKeeps(w, e, owned);
    case BeginDiscard(h, e) => ReadsKeep(judge, w, h, ReadForDiscard(s, e));
  }

  lemma CreateKeeps(w: World, e: Id, items: seq<Item>)
    requires Inv(w)
    ensures Inv(w.(store := Created(w.store, e, items))) && StoreEvolves(w.store, Created(w.store, e, items))
  {
    hide Evolves, OpOk, ComputeSummary;
    var s, s' := w.store, Created(w.store, e, items);
    forall f | f in s.exams ensures Evolves(s.exams[f], s.exams[f]) { SelfEvolves(s.exams[f]); }
    if s' != s {
      assert ExamOk(s'.exams[e]);
    }
    OpsUnderEvolution(w, s', w.ops);
  }

  lemma FinalizeKeeps(w: World, e: Id, owned: Option<Id>)
    requires Inv(w)
    ensures Inv(w.(store := Finalized(w.store, e, owned))) && StoreEvolves(w.store, Finalized(w.store, e, owned))
  {
    hide Evolves, ExamOk, OpOk, FinalExam, Finishes, OpsOk;
    var s, s' := w.store, Finalized(w.store, e, owned);
    forall f | f in s.exams ensures Evolves(s.exams[f], s.exams[f]) { SelfEvolves(s.exams[f]); }
    if e in s.exams {
      FinalExamKeeps(s.exams[e]);
      FinalState(s.exams[e]);
      ReplaceExam(s, e, FinalExam(s.exams[e]), s'.problems, s'.tasks);
      OpsUnderEvolution(w, s', w.ops);
    }
  }

  lemma FinalState(x: Exam)
    ensures FinalExam(x).state.BeingGraded? ==> x.state.BeingGraded?
  {
  }

  lemma {:induction false} RunKeeps(judge: Judge, w: World, events: seq<Event>)
    requires Inv(w)
    ensures Inv(Run(judge, w, events)) && StoreEvolves(w.store, Run(judge, w, events).store)
    decreases |events|
  {
    hide Inv, Step, Evolves;
    if events == [] {
      forall f | f in w.store.exams ensures Evolves(w.store.exams[f], w.store.exams[f]) {
        SelfEvolves(w.store.exams[f]);
      }
    } else {
      var w1 := Step(judge, w, events[0]);
      StepKeeps(judge, w, events[0]);
      RunKeeps(judge, w1, events[1..]);
      var s' := Run(judge, w, events).store;
      forall f | f in w.store.exams ensures f in s'.exams && Evolves(w.store.exams[f], s'.exams[f]) {
        EvolvesTransitive(w.store.exams[f], w1.store.exams[f], s'.exams[f]);
      }
    }
  }
}
