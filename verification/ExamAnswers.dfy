/** What becomes of the answer a student saves: it is stored, and it is what is submitted and graded. */
module ExamAnswers {
  import opened Prelude
  import opened Exams
  import opened ExamRuns
  import opened ExamTheorems

  /** `after` is `before` with one answer given anew: the item of that id holds exactly `raw`, whatever it
      held, and nothing else differs. */
  predicate Answered(before: seq<Item>, after: seq<Item>, id: Id, raw: Option<string>) {
    && |after| == |before|
    && forall k :: 0 <= k < |before| ==>
         && after[k].raw == (if before[k].id == id then raw else before[k].raw)
         && after[k].id == before[k].id && after[k].problem == before[k].problem && after[k].kind == before[k].kind
         && after[k].key == before[k].key && after[k].grading == before[k].grading
  }

  predicate HasItemOf(items: seq<Item>, id: Id) {
    exists k :: 0 <= k < |items| && items[k].id == id
  }

  /** A save goes on to write exactly for an exam in progress with that item, and what it will write is
      the exam's items with that answer. */
  lemma SaveReads(s: Store, e: Id, id: Id, raw: Option<string>)
    requires e in s.exams && DistinctIds(s.exams[e].items)
    ensures var x, op := s.exams[e], ReadForSave(s, e, id, raw);
            && (op.Some? <==> x.state == InProgress && HasItemOf(x.items, id))
            && (op.Some? ==> op.value.SaveOp? && op.value.exam == e && Answered(x.items, op.value.items, id, raw))
  {
    var items := s.exams[e].items;
    assert HasItemOf(items, id) <==> Find(items, id) < |items| by {
      if Find(items, id) < |items| { assert items[Find(items, id)].id == id; }
    }
  }

  lemma RunTwo(judge: Judge, w: World, a: Event, b: Event)
    ensures Run(judge, w, [a, b]) == Step(judge, Step(judge, w, a), b)
  {
    hide Step;
    assert [a, b][1..] == [b] && [b][1..] == [];
    assert Run(judge, Step(judge, w, a), [b]) == Step(judge, Step(judge, w, a), b);
  }

  /** With nothing in between, the save stores that answer and touches nothing else; the summary is that
      of the items then stored. */
  lemma SaveStoresAnswer(judge: Judge, w: World, h: nat, e: Id, id: Id, raw: Option<string>, task: Id)
    requires Inv(w) && e in w.store.exams && w.store.exams[e].state == InProgress
             && HasItemOf(w.store.exams[e].items, id)
    ensures var w' := Run(judge, w, [BeginSave(h, e, id, raw), Commit(h, task)]);
            && Inv(w') && e in w'.store.exams
            && var x, x' := w.store.exams[e], w'.store.exams[e];
               && x'.state == InProgress && Answered(x.items, x'.items, id, raw)
               && x'.summary == ComputeSummary(x'.items)
               && w'.store == w.store.(exams := w.store.exams[e := x'])
  {
    hide ComputeSummary, Inv, Answered, HasItemOf, DistinctIds, ReadForSave;
    DistinctHere(w, e);
    SaveReads(w.store, e, id, raw);
    var w1 := Step(judge, w, BeginSave(h, e, id, raw));
    RunTwo(judge, w, BeginSave(h, e, id, raw), Commit(h, task));
    StepKeeps(judge, w, BeginSave(h, e, id, raw));
    StepKeeps(judge, w1, Commit(h, task));
  }

  lemma DistinctHere(w: World, e: Id)
    requires Inv(w) && e in w.store.exams
    ensures DistinctIds(w.store.exams[e].items)
  {
    hide OpsOk, TasksOk, OneActive;
    assert ExamOk(w.store.exams[e]);
  }

  // ---------------------------------------------------------------- until the next save

  /** A save of this exam is written. */
  predicate Saves(w: World, ev: Event, e: Id) {
    ev.Commit? && ev.op in w.ops && w.ops[ev.op].SaveOp? && w.ops[ev.op].exam == e
  }

  predicate NoSaves(judge: Judge, w: World, events: seq<Event>, e: Id)
    decreases |events|
  {
    events == [] || (!Saves(w, events[0], e) && NoSaves(judge, Step(judge, w, events[0]), events[1..], e))
  }

  lemma CommitKeepsAnswers(judge: Judge, x: Exam, op: Op)
    requires ExamOk(x) && OpOk(x, op) && !op.SaveOp?
    ensures SameAnswers(x.items, CommitExam(judge, x, op).items)
  {
    hide SameAnswers, SamePaper, ComputeSummary, DistinctIds, GradeAll, RequiresVlm, AnswersUnchanged, Untouched;
    PaperSelf(x.items);
    if op.SubmitOp? && x.state.InProgress? && AnswersUnchanged(op.read, x.items) {
      SubmitReadsWhatIsStored(x, op.read);
      GradedAllOk(judge, op.read);
    } else if !x.state.InProgress? {
      CommitExamKeeps(judge, x, op);
    }
  }

  lemma StepKeepsAnswers(judge: Judge, w: World, ev: Event, e: Id)
    requires Inv(w) && e in w.store.exams && !Saves(w, ev, e)
    ensures e in Step(judge, w, ev).store.exams
    ensures SameAnswers(w.store.exams[e].items, Step(judge, w, ev).store.exams[e].items)
  {
    hide SameAnswers, CommitExam, CommitTracking, ComputeSummary, ReadForGrading, ReadForReport, ReadForPersist,
         ReadForSave, FreshItems, TrackAll, ExamOk, OpOk, DistinctIds;
    PaperSelf(w.store.exams[e].items);
    if ev.Commit? && ev.op in w.ops && w.ops[ev.op].exam == e {
      assert ExamOk(w.store.exams[e]) && OpOk(w.store.exams[e], w.ops[ev.op]);
      CommitKeepsAnswers(judge, w.store.exams[e], w.ops[ev.op]);
    }
  }

  /** Whatever else happens, the raw answers stay as they are until the next save of the exam is written. */
  lemma {:induction false} AnswersStayUnsaved(judge: Judge, w: World, events: seq<Event>, e: Id)
    requires Inv(w) && e in w.store.exams && NoSaves(judge, w, events, e)
    ensures e in Run(judge, w, events).store.exams
    ensures SameAnswers(w.store.exams[e].items, Run(judge, w, events).store.exams[e].items)
    decreases |events|
  {
    hide Inv, Step, Saves, SameAnswers;
    PaperSelf(w.store.exams[e].items);
    if events != [] {
      var w1 := Step(judge, w, events[0]);
      StepKeeps(judge, w, events[0]);
      StepKeepsAnswers(judge, w, events[0], e);
      AnswersStayUnsaved(judge, w1, events[1..], e);
      PaperChain(w.store.exams[e].items, w1.store.exams[e].items, Run(judge, w, events).store.exams[e].items);
    }
  }

  /** The raw answers after some answer was given, gradings aside. */
  predicate AnswersAre(before: seq<Item>, after: seq<Item>, id: Id, raw: Option<string>) {
    && |after| == |before|
    && forall k :: 0 <= k < |before| ==>
         after[k].id == before[k].id && after[k].raw == if before[k].id == id then raw else before[k].raw
  }

  /** The last answer saved is the answer there is: after any run without a further save of the exam, in
      whatever state that leaves it, the item holds it, and every other item holds what it held. */
  lemma LastSaveStays(judge: Judge, w: World, h: nat, e: Id, id: Id, raw: Option<string>, task: Id, events: seq<Event>)
    requires Inv(w) && e in w.store.exams && w.store.exams[e].state == InProgress
             && HasItemOf(w.store.exams[e].items, id)
    requires NoSaves(judge, Run(judge, w, [BeginSave(h, e, id, raw), Commit(h, task)]), events, e)
    ensures var w1 := Run(judge, w, [BeginSave(h, e, id, raw), Commit(h, task)]);
            var w' := Run(judge, w1, events);
            e in w'.store.exams && AnswersAre(w.store.exams[e].items, w'.store.exams[e].items, id, raw)
  {
    hide Inv, Run, NoSaves, HasItemOf, Answered, SameAnswers, ComputeSummary;
    SaveStoresAnswer(judge, w, h, e, id, raw, task);
    var w1 := Run(judge, w, [BeginSave(h, e, id, raw), Commit(h, task)]);
    AnswersStayUnsaved(judge, w1, events, e);
    ThroughBoth(w.store.exams[e].items, w1.store.exams[e].items, Run(judge, w1, events).store.exams[e].items, id, raw);
  }

  lemma ThroughBoth(before: seq<Item>, saved: seq<Item>, after: seq<Item>, id: Id, raw: Option<string>)
    requires Answered(before, saved, id, raw) && SameAnswers(saved, after)
    ensures AnswersAre(before, after, id, raw)
  {
    forall k | 0 <= k < |before|
      ensures after[k].id == before[k].id && after[k].raw == if before[k].id == id then raw else before[k].raw
    {
      assert saved[k].(grading := UNGRADED) == after[k].(grading := UNGRADED);
    }
  }

  // ---------------------------------------------------------------- submitting

  /** No short answer is given, so no model is needed. */
  predicate NeedsNoModel(items: seq<Item>) {
    forall k :: 0 <= k < |items| && items[k].kind == ShortAnswer ==> items[k].raw == None
  }

  predicate IsGraded(judge: Judge, given: Item, i: Item) {
    && i == given.(grading := i.grading)
    && Says(i.grading, given.kind == Objective && given.raw.Some? && judge(given.raw.value, given.key))
  }

  /** An exam submitted with nobody else about is graded at once exactly when no short answer was given:
      each item then says whether the stored answer matches its key. Otherwise it is left to the
      workers with one new task, its items as they are. */
  lemma SubmitTakesEffect(judge: Judge, w: World, g: nat, e: Id, task: Id)
    requires Inv(w) && e in w.store.exams && w.store.exams[e].state == InProgress && task !in w.store.tasks
    ensures var w' := Run(judge, w, [BeginSubmit(g, e), Commit(g, task)]);
            && e in w'.store.exams
            && var x, x' := w.store.exams[e], w'.store.exams[e];
               && |x'.items| == |x.items|
               && (if NeedsNoModel(x.items) then
                     && x'.state == Submitted && w'.store.tasks == w.store.tasks
                     && forall k :: 0 <= k < |x.items| ==> IsGraded(judge, x.items[k], x'.items[k])
                   else
                     && x'.state == BeingGraded && x'.items == x.items && task in w'.store.tasks
                     && w'.store.tasks[task] == Task(e, false) && w'.store.problems == w.store.problems)
  {
    hide Inv, GradeAll, ComputeSummary, AnswersUnchanged, DistinctIds, TrackAll;
    var x := w.store.exams[e];
    RunTwo(judge, w, BeginSubmit(g, e), Commit(g, task));
    assert RequiresVlm(x.items) <==> !NeedsNoModel(x.items);
    if NeedsNoModel(x.items) {
      DistinctHere(w, e);
      PaperSelf(x.items);
      UnchangedIsSameAnswers(x.items, x.items);
      GradedEach(judge, x.items);
    }
  }

  lemma GradedEach(judge: Judge, items: seq<Item>)
    requires !RequiresVlm(items)
    ensures |GradeAll(judge, items)| == |items|
    ensures forall k :: 0 <= k < |items| ==> IsGraded(judge, items[k], GradeAll(judge, items)[k])
  {
    forall k | 0 <= k < |items| ensures IsGraded(judge, items[k], GradeAll(judge, items)[k]) {
      SynchronousGradingIsComplete(judge, items, k, Broken, Broken);
    }
  }

  /** What the student last saved is what is submitted and graded: an answer is saved, anything but
      another save of the exam may happen that leaves it in progress, and the exam is submitted. */
  lemma LastSaveIsSubmitted(judge: Judge, w: World, h: nat, e: Id, id: Id, raw: Option<string>, task: Id,
                            events: seq<Event>, g: nat, newTask: Id)
    requires Inv(w) && e in w.store.exams && w.store.exams[e].state == InProgress
             && HasItemOf(w.store.exams[e].items, id)
    requires NoSaves(judge, Run(judge, w, [BeginSave(h, e, id, raw), Commit(h, task)]), events, e)
    requires var w2 := Run(judge, Run(judge, w, [BeginSave(h, e, id, raw), Commit(h, task)]), events);
             e in w2.store.exams && w2.store.exams[e].state == InProgress && newTask !in w2.store.tasks
    ensures var w2 := Run(judge, Run(judge, w, [BeginSave(h, e, id, raw), Commit(h, task)]), events);
            var w' := Run(judge, w2, [BeginSubmit(g, e), Commit(g, newTask)]);
            && e in w'.store.exams && w'.store.exams[e].state in {Submitted, BeingGraded}
            && AnswersAre(w.store.exams[e].items, w'.store.exams[e].items, id, raw)
            && (w'.store.exams[e].state == Submitted ==>
                  forall k :: 0 <= k < |w'.store.exams[e].items| ==>
                    var i := w'.store.exams[e].items[k];
                    Says(i.grading, i.kind == Objective && i.raw.Some? && judge(i.raw.value, i.key)))
  {
    hide Inv, Run, NoSaves, HasItemOf, Says, NeedsNoModel, AnswersAre;
    LastSaveStays(judge, w, h, e, id, raw, task, events);
    var w1 := Run(judge, w, [BeginSave(h, e, id, raw), Commit(h, task)]);
    var w2 := Run(judge, w1, events);
    SaveStoresAnswer(judge, w, h, e, id, raw, task);
    RunKeeps(judge, w1, events);
    SubmitTakesEffect(judge, w2, g, e, newTask);
    var w' := Run(judge, w2, [BeginSubmit(g, e), Commit(g, newTask)]);
    StillAnswered(w.store.exams[e].items, w2.store.exams[e].items, w'.store.exams[e].items, id, raw);
  }

  lemma StillAnswered(before: seq<Item>, given: seq<Item>, after: seq<Item>, id: Id, raw: Option<string>)
    requires AnswersAre(before, given, id, raw) && |after| == |given|
    requires forall k :: 0 <= k < |given| ==> after[k] == given[k].(grading := after[k].grading)
    ensures AnswersAre(before, after, id, raw)
  {
    forall k | 0 <= k < |before|
      ensures after[k].id == before[k].id && after[k].raw == if before[k].id == id then raw else before[k].raw
    {
      assert after[k] == given[k].(grading := after[k].grading);
    }
  }
}
