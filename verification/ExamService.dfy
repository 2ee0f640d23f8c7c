/** The exam handlers and the worker's writes, as they change the stored documents in place. */
module ExamService {
  import opened Prelude
  import opened Exams
  import opened ExamRuns
  import opened ExamAnswers

  datatype Failure = NotFound | InvalidExamState | AnswersModified | ItemNotPendingReview

  lemma TrackAppend(ps: map<Id, Tracking>, items: seq<Item>, i: Item)
    ensures TrackAll(ps, items + [i])
            == (var done := TrackAll(ps, items);
                if i.grading.status.PendingReview? then done
                else TrackOne(done, i.problem, i.grading.isCorrect == Some(true)))
  {
    if items == [] {
      assert [i][1..] == [];
    } else {
      assert (items + [i])[1..] == items[1..] + [i];
    }
  }

  /** Grades every item before the transaction starts. */
  method GradeItems(judge: Judge, items: seq<Item>) returns (graded: seq<Item>)
    requires !RequiresVlm(items)
    ensures graded == GradeAll(judge, items)
    ensures |graded| == |items|
    ensures forall k :: 0 <= k < |items| ==>
            Coherent(graded[k].grading) && IsTerminal(graded[k]) && !graded[k].grading.status.PendingReview?
  {
    graded := [];
    for k := 0 to |items|
      invariant |graded| == k && forall j :: 0 <= j < k ==> graded[j] == GradeItem(judge, items[j], Broken, Broken)
    {
      graded := graded + [GradeItem(judge, items[k], Broken, Broken)];
    }
    forall k | 0 <= k < |items|
      ensures Coherent(graded[k].grading) && IsTerminal(graded[k]) && !graded[k].grading.status.PendingReview? {
      SynchronousGradingIsComplete(judge, items, k, Broken, Broken);
    }
  }

  /** Looks every graded item up by its id among the items stored now. */
  method CompareAnswers(read: seq<Item>, current: seq<Item>) returns (same: bool)
    requires DistinctIds(current)
    ensures same <==> AnswersUnchanged(read, current)
  {
    var byId: map<Id, Item> := map[];
    for k := 0 to |current|
      invariant forall id :: id in byId <==> exists j :: 0 <= j < k && current[j].id == id
      invariant forall j :: 0 <= j < k ==> byId[current[j].id] == current[j]
    {
      byId := byId[current[k].id := current[k]];
    }
    for k := 0 to |read|
      invariant forall j :: 0 <= j < k ==> var f := Find(current, read[j].id);
                f < |current| && current[f].raw == read[j].raw
    {
      ghost var f := Find(current, read[k].id);
      if read[k].id !in byId || byId[read[k].id].raw != read[k].raw {
        return false;
      }
      assert byId[read[k].id] == current[f];
    }
    return true;
  }

  lemma {:induction false} FoundAt(items: seq<Item>, k: nat)
    requires k < |items| && forall j :: 0 <= j < k ==> items[j].id != items[k].id
    ensures Find(items, items[k].id) == k
  {
    if k > 0 {
      assert items[1..][k - 1] == items[k] && forall j :: 0 <= j < k - 1 ==> items[1..][j] == items[j + 1];
      FoundAt(items[1..], k - 1);
    }
  }

  class ExamStore {
    var exams: map<Id, Exam>
    var problems: map<Id, Tracking>
    var tasks: map<Id, Task>

    function State(): Store
      reads this
    {
      Store(exams, problems, tasks)
    }

    constructor ()
      ensures State() == EMPTY.store
    {
      exams, problems, tasks := map[], map[], map[];
    }

    /** What a save reads: the item is searched for, and its answer replaced in a copy of all items. */
    method ReadAnswer(e: Id, id: Id, raw: Option<string>) returns (op: Option<Op>, failure: Option<Failure>)
      requires e in exams ==> DistinctIds(exams[e].items)
      ensures op == ReadForSave(State(), e, id, raw)
      ensures failure == if e !in exams then Some(NotFound)
                         else if !exams[e].state.InProgress? then Some(InvalidExamState)
                         else if !HasItemOf(exams[e].items, id) then Some(NotFound) else None
      ensures op.Some? <==> failure.None?
      ensures op.Some? ==> op.value.SaveOp? && op.value.exam == e && Answered(exams[e].items, op.value.items, id, raw)
    {
      hide Answered, DistinctIds;
      if e !in exams {
        return None, Some(NotFound);
      }
      SaveReads(State(), e, id, raw);
      if !exams[e].state.InProgress? {
        return None, Some(InvalidExamState);
      }
      var items := exams[e].items;
      for k := 0 to |items|
        invariant forall j :: 0 <= j < k ==> items[j].id != id
      {
        if items[k].id == id {
          FoundAt(items, k);
          return Some(SaveOp(e, items[k := items[k].(raw := raw)])), None;
        }
      }
      return None, Some(NotFound);
    }

    /** The conditional write of a save: nothing happens unless the exam is still in progress. */
    method WriteAnswer(op: Op) returns (failure: Option<Failure>)
      requires op.SaveOp? && op.exam in exams
      modifies this`exams
      ensures forall judge, task :: State() == Committed(judge, old(State()), op, task)
      ensures failure == if old(exams)[op.exam].state.InProgress? then None else Some(InvalidExamState)
      ensures failure.None? ==>
                && exams[op.exam].state.InProgress? && exams[op.exam].items == op.items
                && exams[op.exam].summary == ComputeSummary(op.items)
      ensures failure.Some? ==> exams == old(exams)
      ensures exams.Keys == old(exams).Keys && forall e :: e in exams && e != op.exam ==> exams[e] == old(exams)[e]
    {
      if !exams[op.exam].state.InProgress? {
        assert exams[op.exam := exams[op.exam]] == exams;
        return Some(InvalidExamState);
      }
      exams := exams[op.exam := Exam(InProgress, op.items, ComputeSummary(op.items))];
      return None;
    }

    /** The tracking loop inside a transaction. */
    method TrackItems(items: seq<Item>)
      modifies this`problems
      ensures problems == TrackAll(old(problems), items)
    {
      for k := 0 to |items|
        invariant problems == TrackAll(old(problems), items[..k])
      {
        TrackAppend(old(problems), items[..k], items[k]);
        assert items[..k + 1] == items[..k] + [items[k]];
        var g := items[k].grading;
        if !g.status.PendingReview? && items[k].problem in problems {
          problems := problems[items[k].problem :=
                               BuildTracking(problems[items[k].problem], g.isCorrect == Some(true))];
        }
      }
      assert items[..|items|] == items;
    }

    /** The transaction of a synchronous submission. */
    method SubmitGraded(judge: Judge, op: Op) returns (failure: Option<Failure>)
      requires op.SubmitOp? && !RequiresVlm(op.read)
      requires forall e :: e in exams ==> DistinctIds(exams[e].items)
      modifies this`exams, this`problems
      ensures forall task :: State() == Committed(judge, old(State()), op, task)
      ensures failure == if op.exam !in old(exams) then Some(NotFound)
                         else if !old(exams)[op.exam].state.InProgress? then Some(InvalidExamState)
                         else if !AnswersUnchanged(op.read, old(exams)[op.exam].items) then Some(AnswersModified)
                         else None
    {
      hide RequiresVlm, GradeAll, ComputeSummary, AnswersUnchanged, DistinctIds;
      var graded := GradeItems(judge, op.read);
      if op.exam !in exams {
        return Some(NotFound);
      }
      assert exams[op.exam := exams[op.exam]] == exams;
      if !exams[op.exam].state.InProgress? {
        return Some(InvalidExamState);
      }
      var same := CompareAnswers(op.read, exams[op.exam].items);
      if !same {
        return Some(AnswersModified);
      }
      exams := exams[op.exam := Exam(Submitted, graded, ComputeSummary(graded))];
      TrackItems(graded);
      return None;
    }

    /** Freezes the exam and inserts its grading task; a second submission finds it frozen. */
    method FreezeExam(op: Op, task: Id) returns (failure: Option<Failure>)
      requires op.FreezeOp? && task !in tasks
      modifies this`exams, this`tasks
      ensures forall judge :: State() == Committed(judge, old(State()), op, task)
      ensures failure == if op.exam !in old(exams) then Some(NotFound)
                         else if old(exams)[op.exam].state.Discarded? then Some(InvalidExamState)
                         else None
    {
      if op.exam !in exams {
        return Some(NotFound);
      }
      assert exams[op.exam := exams[op.exam]] == exams;
      match exams[op.exam].state {
        case BeingGraded => return None;
        case Submitted => return None;
        case Discarded => return Some(InvalidExamState);
        case InProgress =>
          exams := exams[op.exam := exams[op.exam].(state := BeingGraded)];
          tasks := tasks[task := Task(op.exam, false)];
          return None;
      }
    }

    /** One item's result and the summary computed when the exam was read. */
    method PersistResult(op: Op) returns (stored: bool)
      requires op.PersistOp? && op.exam in exams
      modifies this`exams
      ensures forall judge, task :: State() == Committed(judge, old(State()), op, task)
      ensures stored <==> old(exams)[op.exam].state.BeingGraded?
      ensures !stored ==> exams == old(exams)
      ensures stored ==>
                && exams[op.exam].state.BeingGraded? && SameAnswers(old(exams)[op.exam].items, exams[op.exam].items)
                && (forall k :: 0 <= k < |exams[op.exam].items| ==>
                      exams[op.exam].items[k].grading
                      == if k == Find(old(exams)[op.exam].items, op.item) then op.grading
                         else old(exams)[op.exam].items[k].grading)
      ensures exams.Keys == old(exams).Keys && forall e :: e in exams && e != op.exam ==> exams[e] == old(exams)[e]
    {
      var x := exams[op.exam];
      assert exams[op.exam := x] == exams;
      if !x.state.BeingGraded? {
        return false;
      }
      exams := exams[op.exam := x.(items := WithGrading(x.items, op.item, op.grading),
                                   summary := ComputeSummary(WithGrading(op.read, op.item, op.grading)))];
      return true;
    }

    method FinalizeExam(e: Id, owned: Option<Id>) returns (done: bool)
      requires owned.Some? && owned.value in tasks ==> tasks[owned.value].exam == e
      modifies this
      ensures State() == Finalized(old(State()), e, owned)
      ensures done <==>
                && e in old(exams)
                && (old(exams)[e].state == Submitted
                    || (old(exams)[e].state == BeingGraded
                        && forall i :: i in old(exams)[e].items ==> i.grading.status != Ungraded))
      ensures !done ==> State() == old(State())
      ensures done ==>
                && exams[e].state == Submitted && exams[e].items == old(exams)[e].items
                && (old(exams)[e].state == BeingGraded ==> exams[e].summary == ComputeSummary(exams[e].items))
                && (old(exams)[e].state == Submitted ==> exams == old(exams) && problems == old(problems))
                && (owned.Some? && owned.value in tasks ==> tasks[owned.value].completed)
      ensures exams.Keys == old(exams).Keys && forall x :: x in exams && x != e ==> exams[x] == old(exams)[x]
      ensures tasks.Keys == old(tasks).Keys && forall t :: t in tasks && Some(t) != owned ==> tasks[t] == old(tasks)[t]
    {
      ghost var open := e in exams && exists i :: i in exams[e].items && i.grading.status == Ungraded;
      assert e in exams ==> (AllTerminal(exams[e].items) <==> !open) by {
        if e in exams && AllTerminal(exams[e].items) {
          forall i | i in exams[e].items ensures i.grading.status != Ungraded {
            var k :| 0 <= k < |exams[e].items| && exams[e].items[k] == i;
          }
        } else if e in exams {
          var k :| 0 <= k < |exams[e].items| && !IsTerminal(exams[e].items[k]);
          assert exams[e].items[k] in exams[e].items;
        }
      }
      if e !in exams {
        return false;
      }
      var x := exams[e];
      assert exams[e := x] == exams;
      if !x.state.Submitted? {
        if !x.state.BeingGraded? || !AllTerminal(x.items) {
          return false;
        }
        exams := exams[e := x.(state := Submitted, summary := ComputeSummary(x.items))];
        TrackItems(x.items);
      }
      if owned.Some? && owned.value in tasks {
        tasks := tasks[owned.value := tasks[owned.value].(completed := true)];
      }
      return true;
    }

    /** Writes back the whole item list computed from the earlier read. */
    method WriteReport(op: Op) returns (failure: Option<Failure>)
      requires op.ReportOp? && Find(op.read, op.item) < |op.read|
      modifies this`exams, this`problems
      ensures forall judge, task :: State() == Committed(judge, old(State()), op, task)
      ensures failure == if op.exam !in old(exams) then Some(NotFound)
                         else if !old(exams)[op.exam].state.Submitted? then Some(InvalidExamState)
                         else None
      ensures failure.Some? ==> exams == old(exams) && problems == old(problems)
      ensures failure.None? ==>
                var k := Find(op.read, op.item);
                && exams[op.exam].state.Submitted? && exams[op.exam].summary == ComputeSummary(exams[op.exam].items)
                && SameAnswers(op.read, exams[op.exam].items)
                && Says(exams[op.exam].items[k].grading.(selfReported := None), op.correct)
                && exams[op.exam].items[k].grading.selfReported == Some(op.correct)
                && exams[op.exam].items[k].grading.how == Some(SelfReport)
                && (forall j :: 0 <= j < |op.read| && j != k ==> exams[op.exam].items[j] == op.read[j])
                && (forall p :: p in problems && p != op.read[k].problem ==>
                    p in old(problems) && problems[p] == old(problems)[p])
                && (op.read[k].problem in problems ==>
                      var was, now := old(problems)[op.read[k].problem], problems[op.read[k].problem];
                      && now.exposures == was.exposures + 1 && now.lastCorrect == Some(op.correct)
                      && now.correct == was.correct + (if op.correct then 1 else 0)
                      && now.failed == was.failed + (if op.correct then 0 else 1))
      ensures exams.Keys == old(exams).Keys && problems.Keys == old(problems).Keys
    {
      if op.exam !in exams {
        return Some(NotFound);
      }
      var x, k := exams[op.exam], Find(op.read, op.item);
      assert exams[op.exam := x] == exams;
      if !x.state.Submitted? {
        return Some(InvalidExamState);
      }
      var items := op.read[k := op.read[k].(grading := Reported(op.read[k].grading, op.correct))];
      exams := exams[op.exam := x.(items := items, summary := ComputeSummary(items))];
      if items[k].problem in problems {
        problems := problems[items[k].problem := BuildTracking(problems[items[k].problem], op.correct)];
      }
      return None;
    }

    /** What a discard checks before it writes. */
    method CheckDiscard(e: Id) returns (failure: Option<Failure>)
      ensures failure == if e !in exams then Some(NotFound)
                         else if !Active(exams[e]) then Some(InvalidExamState) else None
      ensures failure.None? <==> ReadForDiscard(State(), e).Some?
    {
      if e !in exams {
        return Some(NotFound);
      }
      return if Active(exams[e]) then None else Some(InvalidExamState);
    }

    /** The write goes by id alone: whatever the exam has become since the check, it is discarded. */
    method WriteDiscard(op: Op)
      requires op.DiscardOp?
      modifies this`exams
      ensures forall judge, task :: State() == Committed(judge, old(State()), op, task)
      ensures exams.Keys == old(exams).Keys && forall e :: e in exams && e != op.exam ==> exams[e] == old(exams)[e]
      ensures op.exam in exams ==>
                && exams[op.exam].state.Discarded? && exams[op.exam].items == old(exams)[op.exam].items
                && exams[op.exam].summary == old(exams)[op.exam].summary
    {
      if op.exam in exams {
        exams := exams[op.exam := exams[op.exam].(state := Discarded)];
      }
    }
  }
}
