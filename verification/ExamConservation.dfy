/** The counters kept beside the exams: what conserves them, write by write and over whole runs. */
module ExamConservation {
  import opened Prelude
  import opened Exams
  import opened ExamRuns
  import opened ExamTheorems

  predicate ProblemsKnown(s: Store) {
    forall e | e in s.exams :: forall k :: 0 <= k < |s.exams[e].items| ==> s.exams[e].items[k].problem in s.problems
  }

  // ---------------------------------------------------------------- sums over exams

  ghost function Sum(keys: set<Id>, f: Id -> nat): nat {
    if keys == {} then 0 else var k :| k in keys; f(k) + Sum(keys - {k}, f)
  }

  lemma {:induction false} SumTakes(keys: set<Id>, f: Id -> nat, x: Id)
    requires x in keys
    ensures Sum(keys, f) == f(x) + Sum(keys - {x}, f)
  {
    var k :| k in keys && Sum(keys, f) == f(k) + Sum(keys - {k}, f);
    if k != x {
      SumTakes(keys - {k}, f, x);
      SumTakes(keys - {x}, f, k);
      assert keys - {k} - {x} == keys - {x} - {k};
    }
  }

  lemma {:induction false} SumSame(keys: set<Id>, f: Id -> nat, g: Id -> nat)
    requires forall k :: k in keys ==> f(k) == g(k)
    ensures Sum(keys, f) == Sum(keys, g)
  {
    if keys != {} {
      var k :| k in keys;
      SumTakes(keys, f, k);
      SumTakes(keys, g, k);
      SumSame(keys - {k}, f, g);
    }
  }

  /** Items of a problem in one status, as far as the exam has been submitted. */
  function Counts(x: Exam, p: Id, s: Status): nat {
    if x.state.Submitted? then Tally(x.items, p, s) else 0
  }

  function CountsIn(exams: map<Id, Exam>, p: Id, s: Status): Id -> nat {
    e => if e in exams then Counts(exams[e], p, s) else 0
  }

  /** Over all submitted exams. */
  ghost function History(s: Store, p: Id, st: Status): nat {
    Sum(s.exams.Keys, CountsIn(s.exams, p, st))
  }

  lemma HistoryReplaced(s: Store, e: Id, y: Exam, ps: map<Id, Tracking>, ts: map<Id, Task>, p: Id, st: Status)
    requires e in s.exams
    ensures History(Store(s.exams[e := y], ps, ts), p, st) + Counts(s.exams[e], p, st)
            == History(s, p, st) + Counts(y, p, st)
  {
    var s' := Store(s.exams[e := y], ps, ts);
    assert s'.exams.Keys == s.exams.Keys;
    SumTakes(s.exams.Keys, CountsIn(s.exams, p, st), e);
    SumTakes(s.exams.Keys, CountsIn(s'.exams, p, st), e);
    SumSame(s.exams.Keys - {e}, CountsIn(s.exams, p, st), CountsIn(s'.exams, p, st));
  }

  lemma HistoryExtended(s: Store, e: Id, y: Exam, p: Id, st: Status)
    requires e !in s.exams && !y.state.Submitted?
    ensures History(s.(exams := s.exams[e := y]), p, st) == History(s, p, st)
  {
    var s' := s.(exams := s.exams[e := y]);
    SumTakes(s'.exams.Keys, CountsIn(s'.exams, p, st), e);
    assert s'.exams.Keys - {e} == s.exams.Keys;
    SumSame(s.exams.Keys, CountsIn(s.exams, p, st), CountsIn(s'.exams, p, st));
  }

  lemma {:induction false} NoTally(items: seq<Item>, p: Id, st: Status)
    requires forall k :: 0 <= k < |items| ==> items[k].problem != p
    ensures Tally(items, p, st) == 0
  {
    if items != [] {
      assert items[0].problem != p;
      NoTally(items[1..], p, st);
    }
  }

  lemma {:induction false} AllZero(keys: set<Id>, f: Id -> nat)
    requires forall k :: k in keys ==> f(k) == 0
    ensures Sum(keys, f) == 0
  {
    if keys != {} {
      var k :| k in keys;
      SumTakes(keys, f, k);
      AllZero(keys - {k}, f);
    }
  }

  // ---------------------------------------------------------------- conservation

  /** The counters of a problem are the numbers of its correct, incorrect and resolved items. */
  ghost predicate CountersMatch(s: Store, p: Id)
    requires p in s.problems
  {
    && s.problems[p].correct == History(s, p, Correct)
    && s.problems[p].failed == History(s, p, Incorrect)
    && s.problems[p].exposures == History(s, p, Correct) + History(s, p, Incorrect)
  }

  ghost predicate Conserved(s: Store) {
    forall p :: p in s.problems ==> CountersMatch(s, p)
  }

  /** A self-report is written over the very items it was computed from. */
  predicate ReportCurrent(w: World, ev: Event) {
    ev.Commit? && ev.op in w.ops && w.ops[ev.op].ReportOp? && w.ops[ev.op].exam in w.store.exams ==>
      w.store.exams[w.ops[ev.op].exam].state.Submitted? ==> w.ops[ev.op].read == w.store.exams[w.ops[ev.op].exam].items
  }

  /** No item of a stored problem has been resolved. */
  predicate Unresolved(s: Store, items: seq<Item>) {
    forall p | p in s.problems :: Tally(items, p, Correct) == 0 && Tally(items, p, Incorrect) == 0
  }

  /** A discard is written before its exam is submitted, or over an exam that has counted nothing. */
  predicate DiscardHarmless(w: World, ev: Event) {
    ev.Commit? && ev.op in w.ops && w.ops[ev.op].DiscardOp? && w.ops[ev.op].exam in w.store.exams ==>
      var x := w.store.exams[w.ops[ev.op].exam];
      !x.state.Submitted? || Unresolved(w.store, x.items)
  }

  predicate Timely(w: World, ev: Event) {
    ReportCurrent(w, ev) && DiscardHarmless(w, ev)
  }

  predicate TimelyRun(judge: Judge, w: World, events: seq<Event>)
    decreases |events|
  {
    events == [] || (Timely(w, events[0]) && TimelyRun(judge, Step(judge, w, events[0]), events[1..]))
  }

  predicate ReportsCurrent(judge: Judge, w: World, events: seq<Event>)
    decreases |events|
  {
    events == [] || (ReportCurrent(w, events[0]) && ReportsCurrent(judge, Step(judge, w, events[0]), events[1..]))
  }

  ghost predicate Books(w: World) {
    Inv(w) && ProblemsKnown(w.store) && Conserved(w.store)
  }

  /** The counters of one problem move as its history does. */
  predicate Moves(x: Exam, y: Exam, p: Id, t: Tracking, t': Tracking) {
    && t'.correct + Counts(x, p, Correct) == t.correct + Counts(y, p, Correct)
    && t'.failed + Counts(x, p, Incorrect) == t.failed + Counts(y, p, Incorrect)
    && t'.exposures + Counts(x, p, Correct) + Counts(x, p, Incorrect)
       == t.exposures + Counts(y, p, Correct) + Counts(y, p, Incorrect)
  }

  /** The tracking written with an exam's new version matches what its history gained. */
  ghost predicate TrackingMoves(x: Exam, y: Exam, ps: map<Id, Tracking>, ps': map<Id, Tracking>) {
    ps'.Keys == ps.Keys && forall p :: p in ps ==> Moves(x, y, p, ps[p], ps'[p])
  }

  lemma MovesConserve(s: Store, e: Id, y: Exam, ps: map<Id, Tracking>, ts: map<Id, Task>)
    requires Conserved(s) && e in s.exams && ps.Keys == s.problems.Keys
    ensures Conserved(Store(s.exams[e := y], ps, ts)) <==> TrackingMoves(s.exams[e], y, s.problems, ps)
  {
    hide Counts, History;
    var s' := Store(s.exams[e := y], ps, ts);
    forall p | p in s.problems
      ensures History(s', p, Correct) + Counts(s.exams[e], p, Correct) == History(s, p, Correct) + Counts(y, p, Correct)
      ensures History(s', p, Incorrect) + Counts(s.exams[e], p, Incorrect)
              == History(s, p, Incorrect) + Counts(y, p, Incorrect)
      ensures CountersMatch(s, p)
    {
      HistoryReplaced(s, e, y, ps, ts, p, Correct);
      HistoryReplaced(s, e, y, ps, ts, p, Incorrect);
    }
    if Conserved(s') {
      forall p | p in s.problems ensures CountersMatch(s', p) {}
    }
  }

  lemma SubmissionMoves(x: Exam, y: Exam, ps: map<Id, Tracking>)
    requires !x.state.Submitted? && y.state.Submitted? && AllCoherent(y.items) && NoneUngraded(y.items)
    ensures TrackingMoves(x, y, ps, TrackAll(ps, y.items))
  {
    TrackAllKeys(ps, y.items);
    assert forall p :: p in ps ==> Counts(x, p, Correct) == 0 && Counts(x, p, Incorrect) == 0;
    forall p | p in ps
      ensures var t := TrackAll(ps, y.items)[p];
              && t.correct == ps[p].correct + Counts(y, p, Correct)
              && t.failed == ps[p].failed + Counts(y, p, Incorrect)
              && t.exposures == ps[p].exposures + Counts(y, p, Correct) + Counts(y, p, Incorrect)
    {
      TrackingAddsTallies(ps, y.items, p);
    }
  }

  lemma {:induction false} TrackAllKeys(ps: map<Id, Tracking>, items: seq<Item>)
    ensures TrackAll(ps, items).Keys == ps.Keys
  {
    if items != [] {
      var i := items[0];
      TrackAllKeys(if i.grading.status.PendingReview? then ps
                   else TrackOne(ps, i.problem, i.grading.isCorrect == Some(true)), items[1..]);
    }
  }

  /** How far the counts of what was read differ from those stored: nothing, for every problem. */
  predicate SameTallies(s: Store, read: seq<Item>, current: seq<Item>) {
    forall p | p in s.problems ::
      Tally(read, p, Correct) == Tally(current, p, Correct) && Tally(read, p, Incorrect) == Tally(current, p, Incorrect)
  }

  lemma ReportMoves(s: Store, x: Exam, y: Exam, op: Op)
    requires op.ReportOp? && OpOk(x, op) && x.state.Submitted?
             && y == x.(items := ReportedItems(op), summary := y.summary)
    requires op.read[Find(op.read, op.item)].problem in s.problems
    ensures TrackingMoves(x, y, s.problems, TrackOne(s.problems, op.read[Find(op.read, op.item)].problem, op.correct))
            <==> SameTallies(s, op.read, x.items)
  {
    hide Tally, Moves, Counts, SameAnswers, AllCoherent, NoneUngraded;
    forall p | p in s.problems
      ensures Moves(x, y, p, s.problems[p],
                    TrackOne(s.problems, op.read[Find(op.read, op.item)].problem, op.correct)[p])
              <==> Tally(op.read, p, Correct) == Tally(x.items, p, Correct)
                   && Tally(op.read, p, Incorrect) == Tally(x.items, p, Incorrect)
    {
      ReportMovesOne(x, y, op, p, s.problems[p]);
    }
  }

  lemma ReportMovesOne(x: Exam, y: Exam, op: Op, p: Id, t: Tracking)
    requires op.ReportOp? && OpOk(x, op) && x.state.Submitted?
             && y == x.(items := ReportedItems(op), summary := y.summary)
    ensures var here := op.read[Find(op.read, op.item)].problem == p;
            Moves(x, y, p, t, if here then BuildTracking(t, op.correct) else t)
            <==> Tally(op.read, p, Correct) == Tally(x.items, p, Correct)
                 && Tally(op.read, p, Incorrect) == Tally(x.items, p, Incorrect)
  {
    hide Tally, SameAnswers, Coherent, AllCoherent, NoneUngraded;
    var k := Find(op.read, op.item);
    var i := op.read[k].(grading := Reported(op.read[k].grading, op.correct));
    TallyUpdate(op.read, k, i, p, Correct);
    TallyUpdate(op.read, k, i, p, Incorrect);
  }

  lemma KnownThroughRead(s: Store, x: Exam, op: Op)
    requires op.ReportOp? && OpOk(x, op)
    requires forall k :: 0 <= k < |x.items| ==> x.items[k].problem in s.problems
    ensures op.read[Find(op.read, op.item)].problem in s.problems
  {
    var k := Find(op.read, op.item);
    assert op.read[k].(grading := UNGRADED) == x.items[k].(grading := UNGRADED);
  }

  /** Whatever happened since it read, a self-report keeps the counters right exactly when it finds the
      exam discarded and does nothing, or, for every problem, the items it read held as many correct
      and incorrect results as the exam does now. */
  lemma SelfReportConservesExactly(judge: Judge, w: World, h: nat, task: Id)
    requires Books(w) && h in w.ops && w.ops[h].ReportOp?
    ensures var x := w.store.exams[w.ops[h].exam];
            Conserved(Step(judge, w, Commit(h, task)).store)
            <==> !x.state.Submitted? || SameTallies(w.store, w.ops[h].read, x.items)
  {
    hide Conserved, TrackingMoves, SameTallies, ComputeSummary, ExamOk;
    var s, op := w.store, w.ops[h];
    var x, y := s.exams[op.exam], CommitExam(judge, s.exams[op.exam], op);
    if x.state.Submitted? {
      KnownThroughRead(s, x, op);
      ReportMoves(s, x, y, op);
    } else {
      NothingMoves(x, y, s.problems);
    }
    MovesConserve(s, op.exam, y, CommitTracking(judge, x, op, s.problems), CommitTasks(x, op, task, s.tasks));
  }

  /** Whatever happened since it read, a discard keeps the counters right exactly when the exam has not
      been submitted by the time it is written, or has no resolved item of a stored problem. */
  lemma DiscardConservesExactly(judge: Judge, w: World, h: nat, task: Id)
    requires Books(w) && h in w.ops && w.ops[h].DiscardOp?
    ensures var x := w.store.exams[w.ops[h].exam];
            Conserved(Step(judge, w, Commit(h, task)).store)
            <==> !x.state.Submitted? || Unresolved(w.store, x.items)
  {
    hide Conserved, Tally;
    var s, op := w.store, w.ops[h];
    var x, y := s.exams[op.exam], CommitExam(judge, s.exams[op.exam], op);
    assert TrackingMoves(x, y, s.problems, s.problems) <==> !x.state.Submitted? || Unresolved(s, x.items);
    MovesConserve(s, op.exam, y, CommitTracking(judge, x, op, s.problems), CommitTasks(x, op, task, s.tasks));
  }

  lemma CommitConserves(judge: Judge, w: World, h: nat, task: Id)
    requires Books(w) && h in w.ops && Timely(w, Commit(h, task))
    ensures Conserved(Step(judge, w, Commit(h, task)).store)
  {
    hide Conserved, TrackingMoves, ComputeSummary, GradeAll, Tally, RequiresVlm;
    var s, op := w.store, w.ops[h];
    var x := s.exams[op.exam];
    if op.ReportOp? {
      SelfReportConservesExactly(judge, w, h, task);
      assert x.state.Submitted? ==> SameTallies(s, op.read, x.items);
    } else if op.DiscardOp? {
      DiscardConservesExactly(judge, w, h, task);
    } else if Committed(judge, s, op, task) != s {
      var y := CommitExam(judge, x, op);
      CommitExamKeeps(judge, x, op);
      if op.SubmitOp? && y != x {
        SubmitReadsWhatIsStored(x, op.read);
        SubmissionMoves(x, y, s.problems);
        TrackAllKeys(s.problems, y.items);
      } else {
        NothingMoves(x, y, s.problems);
      }
      MovesConserve(s, op.exam, y, CommitTracking(judge, x, op, s.problems), CommitTasks(x, op, task, s.tasks));
    }
  }

  lemma NothingMoves(x: Exam, y: Exam, ps: map<Id, Tracking>)
    requires y == x || (!x.state.Submitted? && !y.state.Submitted?)
    ensures TrackingMoves(x, y, ps, ps)
  {
  }

  lemma FinalizeConserves(w: World, e: Id, owned: Option<Id>)
    requires Books(w)
    ensures Conserved(Finalized(w.store, e, owned))
  {
    hide Conserved, TrackingMoves, ComputeSummary, Tally;
    var s := w.store;
    if e in s.exams {
      var x, y := s.exams[e], FinalExam(s.exams[e]);
      if Finishes(x) {
        assert NoneUngraded(y.items);
        SubmissionMoves(x, y, s.problems);
        TrackAllKeys(s.problems, y.items);
      } else {
        NothingMoves(x, y, s.problems);
      }
      var s' := Finalized(s, e, owned);
      MovesConserve(s, e, y, s'.problems, s'.tasks);
    }
  }

  lemma CreateConserves(s: Store, e: Id, items: seq<Item>)
    requires Conserved(s)
    ensures Conserved(Created(s, e, items))
  {
    hide History, ComputeSummary, FreshItems;
    var s' := Created(s, e, items);
    if s' != s {
      forall p | p in s.problems ensures CountersMatch(s', p) {
        assert CountersMatch(s, p);
        HistoryExtended(s, e, s'.exams[e], p, Correct);
        HistoryExtended(s, e, s'.exams[e], p, Incorrect);
      }
    }
  }

  lemma NewProblemConserves(s: Store, p: Id)
    requires Conserved(s) && ProblemsKnown(s) && p !in s.problems
    ensures Conserved(s.(problems := s.problems[p := Tracking(0, 0, 0, None)]))
  {
    var s' := s.(problems := s.problems[p := Tracking(0, 0, 0, None)]);
    forall st ensures History(s', p, st) == 0 {
      forall e | e in s.exams ensures CountsIn(s'.exams, p, st)(e) == 0 {
        NoTally(s.exams[e].items, p, st);
      }
      AllZero(s'.exams.Keys, CountsIn(s'.exams, p, st));
    }
    forall q | q in s.problems ensures CountersMatch(s', q) {
      assert CountersMatch(s, q);
    }
  }

  lemma KnownStays(s: Store, s': Store)
    requires ProblemsKnown(s) && StoreEvolves(s, s') && s.problems.Keys <= s'.problems.Keys
    requires forall e :: e in s'.exams && e !in s.exams ==> forall k :: 0 <= k < |s'.exams[e].items| ==>
             s'.exams[e].items[k].problem in s'.problems
    ensures ProblemsKnown(s')
  {
    forall e | e in s'.exams
      ensures forall k :: 0 <= k < |s'.exams[e].items| ==> s'.exams[e].items[k].problem in s'.problems {
      if e in s.exams {
        assert Evolves(s.exams[e], s'.exams[e]);
        forall k | 0 <= k < |s'.exams[e].items| ensures s'.exams[e].items[k].problem in s'.problems {
          assert Question(s.exams[e].items[k]) == Question(s'.exams[e].items[k]);
        }
      }
    }
  }

  lemma StepKeepsKeys(judge: Judge, w: World, ev: Event)
    ensures var s' := Step(judge, w, ev).store;
            && w.store.problems.Keys <= s'.problems.Keys
            && forall e :: e in s'.exams && e !in w.store.exams ==>
               ev.CreateExam? && ev.exam == e && FreshItems(w.store, s'.exams[e].items)
  {
    hide CommitExam, FreshItems, ComputeSummary, ReadForGrading, GradeAll, FinalExam;
    match ev
    case Commit(h, task) =>
      if h in w.ops && w.ops[h].exam in w.store.exams && w.ops[h].SubmitOp? {
        TrackAllKeys(w.store.problems, GradeAll(judge, w.ops[h].read));
      }
    case Finalize(e, owned) => if e in w.store.exams { TrackAllKeys(w.store.problems, w.store.exams[e].items); }
    case _ =>
  }

  lemma StepKeepsBooks(judge: Judge, w: World, ev: Event)
    requires Books(w) && Timely(w, ev)
    ensures Books(Step(judge, w, ev))
  {
    hide Conserved, Committed, Finalized, Created, ReadForGrading, Inv, StoreEvolves, ProblemsKnown, Timely, Evolves,
         FreshItems;
    var s, s' := w.store, Step(judge, w, ev).store;
    StepKeeps(judge, w, ev);
    StepKeepsKeys(judge, w, ev);
    assert ProblemsKnown(s') by { KnownAfterStep(s, s', ev); }
    match ev
    case CreateExam(e, items) => CreateConserves(s, e, items);
    case AddProblem(p) => if p !in s.problems { NewProblemConserves(s, p); }
    case Commit(h, task) => if h in w.ops { CommitConserves(judge, w, h, task); }
    case Finalize(e, owned) => FinalizeConserves(w, e, owned);
    case _ =>
  }

  lemma KnownAfterStep(s: Store, s': Store, ev: Event)
    requires ProblemsKnown(s) && StoreEvolves(s, s') && s.problems.Keys <= s'.problems.Keys
    requires forall e :: e in s'.exams && e !in s.exams ==>
             ev.CreateExam? && ev.exam == e && FreshItems(s, s'.exams[e].items)
    ensures ProblemsKnown(s')
  {
    hide Evolves;
    KnownStays(s, s');
  }

  lemma {:induction false} RunKeepsBooks(judge: Judge, w: World, events: seq<Event>)
    requires Books(w) && TimelyRun(judge, w, events)
    ensures Books(Run(judge, w, events))
    decreases |events|
  {
    hide Books, Step, Timely;
    if events != [] {
      StepKeepsBooks(judge, w, events[0]);
      RunKeepsBooks(judge, Step(judge, w, events[0]), events[1..]);
    }
  }
}
