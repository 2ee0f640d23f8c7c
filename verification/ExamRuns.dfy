/** Runs of the exam endpoints and the grading workers. A request that reads first and writes later
    is two steps with anything in between; what the database runs as one transaction is one step. */
module ExamRuns {
  import opened Prelude
  import opened Exams

  datatype Task = Task(exam: Id, completed: bool)

  datatype Store = Store(exams: map<Id, Exam>, problems: map<Id, Tracking>, tasks: map<Id, Task>)

  /** A request or worker between its read and its write, with what it read. */
  datatype Op =
    | SaveOp(exam: Id, items: seq<Item>)
    | SubmitOp(exam: Id, read: seq<Item>)
    | FreezeOp(exam: Id)
    | GradedOp(exam: Id, item: Id, grading: Grading)
    | PersistOp(exam: Id, item: Id, grading: Grading, read: seq<Item>)
    | ReportOp(exam: Id, item: Id, correct: bool, read: seq<Item>)
    | DiscardOp(exam: Id)

  datatype World = World(store: Store, ops: map<nat, Op>)

  datatype Event =
    | CreateExam(exam: Id, items: seq<Item>)
    | AddProblem(problem: Id)
    | BeginSave(op: nat, exam: Id, item: Id, raw: Option<string>)
    | BeginSubmit(op: nat, exam: Id)
    | BeginGrading(op: nat, exam: Id, crashed: bool, first: Reply, second: Reply)
    | BeginPersist(op: nat)
    | BeginReport(op: nat, exam: Id, item: Id, correct: bool)
    | Commit(op: nat, task: Id)
    | Finalize(exam: Id, owned: Option<Id>)
    | BeginDiscard(op: nat, exam: Id)

  // ---------------------------------------------------------------- reads

  predicate IsTerminal(i: Item) {
    !i.grading.status.Ungraded?
  }

  function ReadForSave(s: Store, e: Id, item: Id, raw: Option<string>): Option<Op> {
    if e !in s.exams || !s.exams[e].state.InProgress? || Find(s.exams[e].items, item) == |s.exams[e].items| then None
    else Some(SaveOp(e, WithAnswer(s.exams[e].items, item, raw)))
  }

  function ReadForSubmit(s: Store, e: Id): Option<Op> {
    if e !in s.exams || !s.exams[e].state.InProgress? then None
    else if RequiresVlm(s.exams[e].items) then Some(FreezeOp(e))
    else Some(SubmitOp(e, s.exams[e].items))
  }

  function FirstOpen(items: seq<Item>): Option<Item> {
    if items == [] then None else if !IsTerminal(items[0]) then Some(items[0]) else FirstOpen(items[1..])
  }

  /** A worker grades the first item that has no result; if grading crashes the item is left for review. */
  function ReadForGrading(judge: Judge, s: Store, e: Id, crashed: bool, first: Reply, second: Reply): Option<Op> {
    if e !in s.exams || !s.exams[e].state.BeingGraded? || FirstOpen(s.exams[e].items).None? then None
    else
      var i := FirstOpen(s.exams[e].items).value;
      Some(GradedOp(e, i.id, if crashed then ForReview(0) else GradeItem(judge, i, first, second).grading))
  }

  function ReadForPersist(s: Store, op: Op): Option<Op> {
    if !op.GradedOp? || op.exam !in s.exams || !s.exams[op.exam].state.BeingGraded?
       || Find(s.exams[op.exam].items, op.item) == |s.exams[op.exam].items| then None
    else Some(PersistOp(op.exam, op.item, op.grading, s.exams[op.exam].items))
  }

  function ReadForReport(s: Store, e: Id, item: Id, correct: bool): Option<Op> {
    if e !in s.exams || !s.exams[e].state.Submitted? then None
    else
      var k := Find(s.exams[e].items, item);
      if k == |s.exams[e].items| || !s.exams[e].items[k].grading.status.PendingReview? then None
      else Some(ReportOp(e, item, correct, s.exams[e].items))
  }

  predicate Active(x: Exam) {
    x.state.InProgress? || x.state.BeingGraded?
  }

  function ReadForDiscard(s: Store, e: Id): Option<Op> {
    if e in s.exams && Active(s.exams[e]) then Some(DiscardOp(e)) else None
  }

  // ---------------------------------------------------------------- writes

  /** The whole item list a self-report writes back. */
  function ReportedItems(op: Op): seq<Item>
    requires op.ReportOp?
  {
    var k := Find(op.read, op.item);
    if k < |op.read| then op.read[k := op.read[k].(grading := Reported(op.read[k].grading, op.correct))] else op.read
  }

  /** What the write of an operation makes of the exam as it is by then. Only discarding does not look. */
  function CommitExam(judge: Judge, x: Exam, op: Op): Exam {
    match op
    case SaveOp(_, items) =>
      if x.state.InProgress? then x.(items := items, summary := ComputeSummary(items)) else x
    case SubmitOp(_, read) =>
      if x.state.InProgress? && AnswersUnchanged(read, x.items) then
        Exam(Submitted, GradeAll(judge, read), ComputeSummary(GradeAll(judge, read)))
      else x
    case FreezeOp(_) => if x.state.InProgress? then x.(state := BeingGraded) else x
    case PersistOp(_, item, g, read) =>
      if x.state.BeingGraded? then
        x.(items := WithGrading(x.items, item, g), summary := ComputeSummary(WithGrading(read, item, g)))
      else x
    case ReportOp(_, _, _, _) =>
      if x.state.Submitted? then x.(items := ReportedItems(op), summary := ComputeSummary(ReportedItems(op))) else x
    case GradedOp(_, _, _) => x
    case DiscardOp(_) => x.(state := Discarded)
  }

  /** What the same transaction does to the tracking of problems. */
  function CommitTracking(judge: Judge, x: Exam, op: Op, ps: map<Id, Tracking>): map<Id, Tracking> {
    match op
    case SubmitOp(_, read) =>
      if x.state.InProgress? && AnswersUnchanged(read, x.items) then TrackAll(ps, GradeAll(judge, read)) else ps
    case ReportOp(_, item, correct, read) =>
      var k := Find(read, item);
      if x.state.Submitted? && k < |read| then TrackOne(ps, read[k].problem, correct) else ps
    case _ => ps
  }

  function CommitTasks(x: Exam, op: Op, task: Id, ts: map<Id, Task>): map<Id, Task> {
    if op.FreezeOp? && x.state.InProgress? then ts[task := Task(op.exam, false)] else ts
  }

  function Committed(judge: Judge, s: Store, op: Op, task: Id): Store {
    if op.exam !in s.exams || (op.FreezeOp? && task in s.tasks) then s
    else
      var x := s.exams[op.exam];
      Store(s.exams[op.exam := CommitExam(judge, x, op)], CommitTracking(judge, x, op, s.problems),
            CommitTasks(x, op, task, s.tasks))
  }

  predicate AllTerminal(items: seq<Item>) {
    forall k :: 0 <= k < |items| ==> IsTerminal(items[k])
  }

  function FinalExam(x: Exam): Exam {
    if x.state.BeingGraded? && AllTerminal(x.items) then x.(state := Submitted, summary := ComputeSummary(x.items))
    else x
  }

  predicate Finishes(x: Exam) {
    x.state.BeingGraded? && AllTerminal(x.items)
  }

  /** The worker's last transaction; `owned` is the task when the worker still holds it. */
  function Finalized(s: Store, e: Id, owned: Option<Id>): Store {
    if e !in s.exams then s
    else
      var x := s.exams[e];
      Store(s.exams[e := FinalExam(x)],
            if Finishes(x) then TrackAll(s.problems, x.items) else s.problems,
            if owned.Some? && owned.value in s.tasks && s.tasks[owned.value].exam == e
              && (x.state.Submitted? || Finishes(x))
            then s.tasks[owned.value := s.tasks[owned.value].(completed := true)] else s.tasks)
  }

  /** A fresh exam: new items of stored problems, nothing answered, nothing graded. */
  predicate FreshItems(s: Store, items: seq<Item>) {
    DistinctIds(items) && forall k :: 0 <= k < |items| ==>
      items[k] == Question(items[k]) && items[k].problem in s.problems
  }

  function Created(s: Store, e: Id, items: seq<Item>): Store {
    if e in s.exams || !FreshItems(s, items) || (exists x | x in s.exams :: Active(s.exams[x])) then s
    else s.(exams := s.exams[e := Exam(InProgress, items, ComputeSummary(items))])
  }

  function Put(ops: map<nat, Op>, h: nat, op: Option<Op>): map<nat, Op> {
    if op.Some? then ops[h := op.value] else ops - {h}
  }

  function Step(judge: Judge, w: World, ev: Event): World {
    match ev
    case CreateExam(e, items) => w.(store := Created(w.store, e, items))
    case AddProblem(p) =>
      if p in w.store.problems then w
      else w.(store := w.store.(problems := w.store.problems[p := Tracking(0, 0, 0, None)]))
    case BeginSave(h, e, item, raw) => w.(ops := Put(w.ops, h, ReadForSave(w.store, e, item, raw)))
    case BeginSubmit(h, e) => w.(ops := Put(w.ops, h, ReadForSubmit(w.store, e)))
    case BeginGrading(h, e, crashed, first, second) =>
      w.(ops := Put(w.ops, h, ReadForGrading(judge, w.store, e, crashed, first, second)))
    case BeginPersist(h) =>
      if h in w.ops then w.(ops := Put(w.ops, h, ReadForPersist(w.store, w.ops[h]))) else w
    case BeginReport(h, e, item, correct) => w.(ops := Put(w.ops, h, ReadForReport(w.store, e, item, correct)))
    case Commit(h, task) =>
      if h in w.ops then World(Committed(judge, w.store, w.ops[h], task), w.ops - {h}) else w
    case Finalize(e, owned) => w.(store := Finalized(w.store, e, owned))
    case BeginDiscard(h, e) => w.(ops := Put(w.ops, h, ReadForDiscard(w.store, e)))
  }

  const EMPTY := World(Store(map[], map[], map[]), map[])

  function Run(judge: Judge, w: World, events: seq<Event>): World
    decreases |events|
  {
    if events == [] then w else Run(judge, Step(judge, w, events[0]), events[1..])
  }
}
