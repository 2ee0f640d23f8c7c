/** Enqueueing, backfilling and regenerating, as they insert, reset and delete documents. */
module SolutionService {
  import opened SolutionTasks

  class SolutionStore {
    var problems: map<Id, Problem>
    var tasks: seq<Task>
    var solutions: seq<Solution>

    function State(): Store
      reads this
    {
      Store(problems, tasks, solutions)
    }

    constructor ()
      ensures State() == EMPTY && Inv(State())
    {
      problems, tasks, solutions := map[], [], [];
    }

    method EnqueueTask(p: Id) returns (created: bool)
      requires p in problems && Inv(State())
      modifies this`tasks
      ensures State() == Enqueued(old(State()), p) && Inv(State())
      ensures created <==> !HasTask(old(State()), p) && !HasSolution(old(State()), p)
      ensures HasTask(State(), p) || HasSolution(State(), p)
    {
      EnqueueKeeps(State(), p);
      StatusFromFind(State(), p);
      if FindTask(tasks, p) < |tasks| || FindSolution(solutions, p) < |solutions| {
        return false;
      }
      tasks := tasks + [Task(p, problems[p].owner, Pending)];
      assert tasks[|tasks| - 1].problem == p;
      return true;
    }

    /** The documents to insert, from one reading of the three collections. */
    method CollectMissing(order: seq<Id>) returns (missing: seq<Task>)
      requires EnumeratesLive(State(), order)
      ensures missing == Missing(State(), order)
    {
      var withTask := set k | 0 <= k < |tasks| :: tasks[k].problem;
      var withSolution := set k | 0 <= k < |solutions| :: solutions[k].problem;
      assert forall p :: p in withTask <==> HasTask(State(), p);
      assert forall p :: p in withSolution <==> HasSolution(State(), p);
      missing := [];
      for k := 0 to |order|
        invariant missing + Missing(State(), order[k..]) == Missing(State(), order)
      {
        var p := order[k];
        assert order[k..][1..] == order[k + 1..];
        if p in withTask || p in withSolution {
          assert [] + Missing(State(), order[k + 1..]) == Missing(State(), order[k + 1..]);
          continue;
        }
        assert missing + ([Task(p, problems[p].owner, Pending)] + Missing(State(), order[k + 1..]))
               == missing + [Task(p, problems[p].owner, Pending)] + Missing(State(), order[k + 1..]);
        missing := missing + [Task(p, problems[p].owner, Pending)];
      }
      assert order[|order|..] == [];
      assert missing + [] == missing;
    }

    /** Inserts batch by batch; a batch size below one is taken as one. */
    method Backfill(order: seq<Id>, batchSize: int) returns (added: nat)
      requires EnumeratesLive(State(), order) && Inv(State())
      modifies this`tasks
      ensures State() == Backfilled(old(State()), order) && Inv(State())
      ensures added == |Missing(old(State()), order)|
      ensures forall p :: p in order ==> HasTask(State(), p) || HasSolution(State(), p)
    {
      hide Missing, Inv, EnumeratesLive, HasTask, HasSolution;
      BackfillKeeps(State(), order);
      LiveStays(State(), order);
      SecondBackfillAddsNothing(State(), order, order);
      var missing := CollectMissing(order);
      var step := if batchSize > 1 then batchSize else 1;
      var start := 0;
      while start < |missing|
        invariant 0 <= start
        invariant tasks == old(tasks) + missing[..if start < |missing| then start else |missing|]
        decreases |missing| - start
      {
        var end := if start + step < |missing| then start + step else |missing|;
        assert missing[..end] == missing[..start] + missing[start..end];
        tasks := tasks + missing[start..end];
        start := start + step;
      }
      assert missing[..|missing|] == missing;
      return |missing|;
    }

    method RegenerateTask(p: Id) returns (ok: bool)
      requires p in problems && Inv(State())
      modifies this`tasks, this`solutions
      ensures State() == Regenerated(old(State()), p, problems[p].owner) && Inv(State())
      ensures ok <==> CanRegenerate(old(State()), p)
      ensures ok ==> HasTask(State(), p) && tasks[FindTask(tasks, p)].progress.Pending?
    {
      hide Inv, HasTask;
      RegenerateKeeps(State(), p);
      if CanRegenerate(State(), p) {
        RegenerateMakesPending(State(), p);
      }
      var k, t := FindSolution(solutions, p), FindTask(tasks, p);
      if k < |solutions| {
        solutions := solutions[..k] + solutions[k + 1..];
        if t < |tasks| {
          tasks := tasks[t := tasks[t].(progress := Pending)];
        } else {
          tasks := tasks + [Task(p, problems[p].owner, Pending)];
        }
        return true;
      }
      if t < |tasks| && tasks[t].progress.Failed? {
        tasks := tasks[t := tasks[t].(progress := Pending)];
        return true;
      }
      return false;
    }
  }

  lemma LiveStays(s: Store, order: seq<Id>)
    requires EnumeratesLive(s, order)
    ensures EnumeratesLive(Backfilled(s, order), order)
  {
  }
}
