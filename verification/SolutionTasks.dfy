/** Solution-generation tasks, the solutions they produce, and the two ways of asking for the state of
    a problem: one at a time, and as a filter over the list. */
module SolutionTasks {
  import opened Prelude
  import opened Sorting

  type Id = string

  datatype Progress = Pending | Generating | Ready | Failed

  datatype Problem = Problem(owner: string, deleted: bool)

  datatype Task = Task(problem: Id, user: string, progress: Progress)

  datatype Solution = Solution(problem: Id, user: string)

  /** Tasks and solutions in the order they were inserted. */
  datatype Store = Store(problems: map<Id, Problem>, tasks: seq<Task>, solutions: seq<Solution>)

  datatype State = NoTask | Is(progress: Progress)

  // ---------------------------------------------------------------- looking up

  function FindTask(ts: seq<Task>, p: Id): (k: nat)
    ensures k <= |ts| && (k < |ts| ==> ts[k].problem == p) && forall j :: 0 <= j < k ==> ts[j].problem != p
  {
    if ts == [] || ts[0].problem == p then 0 else FindTask(ts[1..], p) + 1
  }

  function FindSolution(ss: seq<Solution>, p: Id): (k: nat)
    ensures k <= |ss| && (k < |ss| ==> ss[k].problem == p) && forall j :: 0 <= j < k ==> ss[j].problem != p
  {
    if ss == [] || ss[0].problem == p then 0 else FindSolution(ss[1..], p) + 1
  }

  predicate HasTask(s: Store, p: Id) {
    exists k :: 0 <= k < |s.tasks| && s.tasks[k].problem == p
  }

  predicate HasSolution(s: Store, p: Id) {
    exists k :: 0 <= k < |s.solutions| && s.solutions[k].problem == p
  }

  /** `GET …/solution-status`: a solution, else the task found, else nothing. */
  function StatusOf(s: Store, p: Id): State {
    if FindSolution(s.solutions, p) < |s.solutions| then Is(Ready)
    else if FindTask(s.tasks, p) < |s.tasks| then Is(s.tasks[FindTask(s.tasks, p)].progress)
    else NoTask
  }

  function LiveProblems(s: Store, user: string): set<Id> {
    set p | p in s.problems && s.problems[p].owner == user && !s.problems[p].deleted
  }

  function SolvedIds(s: Store, user: string): set<Id> {
    set k | 0 <= k < |s.solutions| && s.solutions[k].user == user :: s.solutions[k].problem
  }

  function TaskIds(s: Store, user: string): set<Id> {
    set k | 0 <= k < |s.tasks| && s.tasks[k].user == user :: s.tasks[k].problem
  }

  /** The identities the filter allows; nothing when no filter is needed. */
  function StateIds(s: Store, user: string, wanted: State): Option<set<Id>> {
    var solved := SolvedIds(s, user);
    match wanted
    case Is(Ready) => Some(solved)
    case Is(progress) =>
      Some(set k | 0 <= k < |s.tasks| && s.tasks[k].user == user && s.tasks[k].progress == progress
           && s.tasks[k].problem !in solved
             :: s.tasks[k].problem)
    case NoTask =>
      var known := solved + TaskIds(s, user);
      if known == {} then None else Some(LiveProblems(s, user) - known)
  }

  /** What the list shows under the filter. */
  function Listed(s: Store, user: string, wanted: State): set<Id> {
    match StateIds(s, user, wanted)
    case None => LiveProblems(s, user)
    case Some(ids) => LiveProblems(s, user) * ids
  }

  // ---------------------------------------------------------------- requests and worker steps

  function Enqueued(s: Store, p: Id): Store
    requires p in s.problems
  {
    if FindTask(s.tasks, p) < |s.tasks| || FindSolution(s.solutions, p) < |s.solutions| then s
    else s.(tasks := s.tasks + [Task(p, s.problems[p].owner, Pending)])
  }

  /** New tasks for the live problems in `order` that have neither task nor solution. */
  function Missing(s: Store, order: seq<Id>): seq<Task> {
    if order == [] then []
    else
      var p := order[0];
      (if p in s.problems && !HasTask(s, p) && !HasSolution(s, p) then [Task(p, s.problems[p].owner, Pending)] else [])
        + Missing(s, order[1..])
  }

  function Backfilled(s: Store, order: seq<Id>): Store {
    s.(tasks := s.tasks + Missing(s, order))
  }

  predicate EnumeratesLive(s: Store, order: seq<Id>) {
    && Distinct(order)
    && (forall p | p in order :: p in s.problems && !s.problems[p].deleted)
    && (forall p | p in s.problems && !s.problems[p].deleted :: p in order)
  }

  function Reset(s: Store, k: nat): Store
    requires k < |s.tasks|
  {
    s.(tasks := s.tasks[k := s.tasks[k].(progress := Pending)])
  }

  function Unsolved(s: Store, p: Id): Store {
    var k := FindSolution(s.solutions, p);
    if k < |s.solutions| then s.(solutions := s.solutions[..k] + s.solutions[k + 1..]) else s
  }

  predicate CanRegenerate(s: Store, p: Id) {
    var t := FindTask(s.tasks, p);
    FindSolution(s.solutions, p) < |s.solutions| || (t < |s.tasks| && s.tasks[t].progress.Failed?)
  }

  function Regenerated(s: Store, p: Id, user: string): Store {
    if !CanRegenerate(s, p) then s
    else
      var s1 := Unsolved(s, p);
      var t := FindTask(s.tasks, p);
      if t < |s.tasks| then Reset(s1, t) else s1.(tasks := s1.tasks + [Task(p, user, Pending)])
  }

  function Marked(s: Store, k: nat, progress: Progress): Store {
    if k < |s.tasks| then s.(tasks := s.tasks[k := s.tasks[k].(progress := progress)]) else s
  }

  function Saved(s: Store, k: nat): Store {
    if k < |s.tasks| then s.(solutions := s.solutions + [Solution(s.tasks[k].problem, s.tasks[k].user)]) else s
  }

  datatype Event =
    | AddProblem(problem: Id, user: string)
    | DeleteProblem(problem: Id)
    | Enqueue(problem: Id)
    | Backfill(order: seq<Id>)
    | Regenerate(problem: Id)
    | WorkerMoves(task: nat, progress: Progress)
    | WorkerSaves(task: nat)
    | WorkerFinishes(task: nat)

  /** `WorkerMoves` claims, retries, recovers and fails; finishing saves the solution and marks the
      task ready, which a worker does in two writes. */
  function Step(s: Store, e: Event): Store {
    match e
    case AddProblem(p, user) => if p in s.problems then s else s.(problems := s.problems[p := Problem(user, false)])
    case DeleteProblem(p) =>
      if p in s.problems then s.(problems := s.problems[p := s.problems[p].(deleted := true)]) else s
    case Enqueue(p) => if p in s.problems then Enqueued(s, p) else s
    case Backfill(order) => if EnumeratesLive(s, order) then Backfilled(s, order) else s
    case Regenerate(p) =>
      if p in s.problems && !s.problems[p].deleted then Regenerated(s, p, s.problems[p].owner) else s
    case WorkerMoves(k, progress) => Marked(s, k, progress)
    case WorkerSaves(k) => Saved(s, k)
    case WorkerFinishes(k) => Marked(Saved(s, k), k, Ready)
  }

  const EMPTY := Store(map[], [], [])

  function Run(s: Store, events: seq<Event>): Store
    decreases |events|
  {
    if events == [] then s else Run(Step(s, events[0]), events[1..])
  }

  /** A task becomes ready only together with its solution. */
  predicate Whole(e: Event) {
    e.WorkerMoves? ==> !e.progress.Ready?
  }

  predicate AllWhole(events: seq<Event>) {
    forall k :: 0 <= k < |events| ==> Whole(events[k])
  }

  // ---------------------------------------------------------------- what runs keep

  predicate OneTaskEach(s: Store) {
    forall j, k :: 0 <= j < k < |s.tasks| ==> s.tasks[j].problem != s.tasks[k].problem
  }

  predicate OwnersAgree(s: Store) {
    && (forall k :: 0 <= k < |s.tasks| ==>
        s.tasks[k].problem in s.problems && s.problems[s.tasks[k].problem].owner == s.tasks[k].user)
    && (forall k :: 0 <= k < |s.solutions| ==>
          s.solutions[k].problem in s.problems && s.problems[s.solutions[k].problem].owner == s.solutions[k].user)
  }

  predicate ReadyIsSolved(s: Store) {
    forall k :: 0 <= k < |s.tasks| && s.tasks[k].progress.Ready? ==> HasSolution(s, s.tasks[k].problem)
  }

  predicate Inv(s: Store) {
    OneTaskEach(s) && OwnersAgree(s)
  }

  /** A task the backfill adds. */
  predicate Added(s: Store, order: seq<Id>, t: Task) {
    && t.problem in order && t.problem in s.problems && !HasTask(s, t.problem) && !HasSolution(s, t.problem)
    && t == Task(t.problem, s.problems[t.problem].owner, Pending)
  }

  lemma {:induction false} MissingTasks(s: Store, order: seq<Id>)
    requires Distinct(order)
    ensures forall t :: t in Missing(s, order) <==> Added(s, order, t)
    ensures forall j, k :: 0 <= j < k < |Missing(s, order)| ==>
            Missing(s, order)[j].problem != Missing(s, order)[k].problem
  {
    hide HasTask, HasSolution;
    if order != [] {
      assert forall k :: 0 <= k < |order| - 1 ==> order[1..][k] == order[k + 1];
      MissingTasks(s, order[1..]);
      var rest, p := Missing(s, order[1..]), order[0];
      assert p !in order[1..];
      assert forall t :: Added(s, order, t) <==> Added(s, order[1..], t) || (t.problem == p && Added(s, order, t));
      forall k | 0 <= k < |rest| ensures rest[k].problem != p {
        assert rest[k] in rest;
      }
    }
  }

  lemma BackfillKeeps(s: Store, order: seq<Id>)
    requires Inv(s) && EnumeratesLive(s, order)
    ensures Inv(Backfilled(s, order)) && (ReadyIsSolved(s) ==> ReadyIsSolved(Backfilled(s, order)))
  {
    hide HasSolution;
    MissingTasks(s, order);
    var s', added := Backfilled(s, order), Missing(s, order);
    forall k | |s.tasks| <= k < |s'.tasks| ensures Added(s, order, s'.tasks[k]) {
      assert s'.tasks[k] == added[k - |s.tasks|];
      assert added[k - |s.tasks|] in added;
    }
    forall j, k | 0 <= j < |s.tasks| <= k < |s'.tasks| ensures s'.tasks[j].problem != s'.tasks[k].problem {
      assert !HasTask(s, s'.tasks[k].problem) && s.tasks[j] == s'.tasks[j];
    }
    forall k | 0 <= k < |s'.tasks| && s'.tasks[k].progress.Ready?
      ensures ReadyIsSolved(s) ==> HasSolution(s', s'.tasks[k].problem) {
      SameSolutions(s, s', s'.tasks[k].problem);
    }
  }

  lemma SameSolutions(s: Store, s': Store, p: Id)
    requires s.solutions == s'.solutions
    ensures HasSolution(s, p) == HasSolution(s', p)
  {
  }

  lemma EnqueueKeeps(s: Store, p: Id)
    requires Inv(s) && p in s.problems
    ensures Inv(Enqueued(s, p)) && (ReadyIsSolved(s) ==> ReadyIsSolved(Enqueued(s, p)))
  {
    var s' := Enqueued(s, p);
    forall k | 0 <= k < |s'.tasks| && s'.tasks[k].progress.Ready?
      ensures ReadyIsSolved(s) ==> HasSolution(s', s'.tasks[k].problem) {
      SameSolutions(s, s', s'.tasks[k].problem);
    }
  }

  lemma UnsolvedOthers(s: Store, p: Id, q: Id)
    requires p != q && HasSolution(s, q)
    ensures HasSolution(Unsolved(s, p), q)
  {
    var k := FindSolution(s.solutions, p);
    var j :| 0 <= j < |s.solutions| && s.solutions[j].problem == q;
    if k < |s.solutions| {
      var r := Unsolved(s, p).solutions;
      assert if j < k then r[j] == s.solutions[j] else r[j - 1] == s.solutions[j];
    }
  }

  lemma RegenerateKeeps(s: Store, p: Id)
    requires Inv(s) && p in s.problems
    ensures Inv(Regenerated(s, p, s.problems[p].owner))
    ensures ReadyIsSolved(s) ==> ReadyIsSolved(Regenerated(s, p, s.problems[p].owner))
  {
    hide HasSolution;
    var s' := Regenerated(s, p, s.problems[p].owner);
    if s' != s && ReadyIsSolved(s) {
      forall k | 0 <= k < |s'.tasks| && s'.tasks[k].progress.Ready? ensures HasSolution(s', s'.tasks[k].problem) {
        assert k < |s.tasks| && s'.tasks[k] == s.tasks[k];
        assert s.tasks[k].problem != p;
        UnsolvedOthers(s, p, s.tasks[k].problem);
        SameSolutions(Unsolved(s, p), s', s.tasks[k].problem);
      }
    }
  }

  lemma FinishKeeps(s: Store, k: nat)
    requires Inv(s)
    ensures Inv(Marked(Saved(s, k), k, Ready)) && Inv(Saved(s, k))
    ensures ReadyIsSolved(s) ==> ReadyIsSolved(Marked(Saved(s, k), k, Ready)) && ReadyIsSolved(Saved(s, k))
  {
    hide HasSolution;
    if k < |s.tasks| && ReadyIsSolved(s) {
      var s1, s2 := Saved(s, k), Marked(Saved(s, k), k, Ready);
      NowSolved(s, k);
      forall j | 0 <= j < |s.tasks| && s.tasks[j].progress.Ready? ensures HasSolution(s1, s.tasks[j].problem) {
        StillSolved(s, k, s.tasks[j].problem);
      }
      forall j | 0 <= j < |s2.tasks|
        ensures HasSolution(s1, s2.tasks[j].problem) == HasSolution(s2, s2.tasks[j].problem) {
        SameSolutions(s1, s2, s2.tasks[j].problem);
      }
      assert ReadyIsSolved(s2);
    }
  }

  lemma NowSolved(s: Store, k: nat)
    requires k < |s.tasks|
    ensures HasSolution(Saved(s, k), s.tasks[k].problem)
  {
    assert Saved(s, k).solutions[|s.solutions|].problem == s.tasks[k].problem;
  }

  lemma StillSolved(s: Store, k: nat, p: Id)
    requires HasSolution(s, p)
    ensures HasSolution(Saved(s, k), p)
  {
    var j :| 0 <= j < |s.solutions| && s.solutions[j].problem == p;
    assert Saved(s, k).solutions[j] == s.solutions[j];
  }

  lemma StepKeeps(s: Store, e: Event)
    requires Inv(s)
    ensures Inv(Step(s, e)) && (Whole(e) && ReadyIsSolved(s) ==> ReadyIsSolved(Step(s, e)))
  {
    match e
    case Enqueue(p) => if p in s.problems { EnqueueKeeps(s, p); }
    case Backfill(order) => if EnumeratesLive(s, order) { BackfillKeeps(s, order); }
    case Regenerate(p) => if p in s.problems { RegenerateKeeps(s, p); }
    case WorkerSaves(k) => FinishKeeps(s, k);
    case WorkerFinishes(k) => FinishKeeps(s, k);
    case _ =>
      forall j | 0 <= j < |s.tasks|
        ensures HasSolution(Step(s, e), s.tasks[j].problem) == HasSolution(s, s.tasks[j].problem) {
        SameSolutions(s, Step(s, e), s.tasks[j].problem);
      }
  }

  /** Over every run there is at most one task per problem; a ready task has its solution as long as
      workers finish in one step. */
  lemma {:induction false} RunKeeps(s: Store, events: seq<Event>)
    requires Inv(s)
    ensures Inv(Run(s, events)) && (AllWhole(events) && ReadyIsSolved(s) ==> ReadyIsSolved(Run(s, events)))
    decreases |events|
  {
    hide Inv, Step, Whole, ReadyIsSolved;
    if events != [] {
      StepKeeps(s, events[0]);
      RunKeeps(Step(s, events[0]), events[1..]);
      assert AllWhole(events) ==> Whole(events[0]) && AllWhole(events[1..]);
    }
  }

  // ---------------------------------------------------------------- filter and status

  lemma StatusFromFind(s: Store, p: Id)
    ensures FindTask(s.tasks, p) < |s.tasks| <==> HasTask(s, p)
    ensures FindSolution(s.solutions, p) < |s.solutions| <==> HasSolution(s, p)
  {
  }

  lemma OwnTask(s: Store, p: Id, k: nat)
    requires OneTaskEach(s) && k < |s.tasks| && s.tasks[k].problem == p
    ensures FindTask(s.tasks, p) == k
  {
  }

  lemma FilterIds(s: Store, p: Id, user: string)
    requires Inv(s) && p in LiveProblems(s, user)
    ensures p in SolvedIds(s, user) <==> HasSolution(s, p)
    ensures p in TaskIds(s, user) <==> HasTask(s, p)
  {
  }

  /** A problem is listed under a state exactly when that is its status, unless its task is marked
      ready and it has no solution: then it is listed under no state at all. */
  lemma FilterMatchesStatus(s: Store, user: string, p: Id, wanted: State)
    requires Inv(s) && p in LiveProblems(s, user)
    ensures (p in Listed(s, user, wanted) <==> StatusOf(s, p) == wanted && (wanted == Is(Ready) ==> HasSolution(s, p)))
  {
    StatusFromFind(s, p);
    FilterIds(s, p, user);
    var t := FindTask(s.tasks, p);
    match wanted
    case Is(Ready) =>
    case Is(progress) =>
      if k: nat :| k < |s.tasks| && s.tasks[k].problem == p { OwnTask(s, p, k); }
    case NoTask =>
  }

  /** The five filters partition the live problems, each problem under its own status, exactly when no
      live problem has a task marked ready without a solution. */
  lemma FiltersPartition(s: Store, user: string)
    requires Inv(s)
    ensures (forall p, wanted :: p in LiveProblems(s, user) ==>
             (p in Listed(s, user, wanted) <==> StatusOf(s, p) == wanted))
            <==> (forall p :: p in LiveProblems(s, user) && StatusOf(s, p) == Is(Ready) ==> HasSolution(s, p))
    ensures forall wanted :: Listed(s, user, wanted) <= LiveProblems(s, user)
  {
    hide Inv, StatusOf, Listed, LiveProblems, HasSolution;
    forall p, wanted | p in LiveProblems(s, user)
      ensures p in Listed(s, user, wanted) <==> StatusOf(s, p) == wanted && (wanted == Is(Ready) ==> HasSolution(s, p))
    {
      FilterMatchesStatus(s, user, p, wanted);
    }
    if forall p, wanted :: p in LiveProblems(s, user) ==> (p in Listed(s, user, wanted) <==> StatusOf(s, p) == wanted) {
      forall p | p in LiveProblems(s, user) && StatusOf(s, p) == Is(Ready) ensures HasSolution(s, p) {
        assert p in Listed(s, user, Is(Ready));
      }
    }
    ListedIsLive(s, user);
  }

  lemma ListedIsLive(s: Store, user: string)
    ensures forall wanted :: Listed(s, user, wanted) <= LiveProblems(s, user)
  {
  }

  lemma FiltersPartitionOverRuns(events: seq<Event>, user: string, p: Id, wanted: State)
    requires AllWhole(events)
    ensures var s := Run(EMPTY, events);
            p in LiveProblems(s, user) ==> (p in Listed(s, user, wanted) <==> StatusOf(s, p) == wanted)
  {
    hide Listed;
    RunKeeps(EMPTY, events);
    var s := Run(EMPTY, events);
    if p in LiveProblems(s, user) {
      FilterMatchesStatus(s, user, p, wanted);
      StatusFromFind(s, p);
    }
  }

  /** After a backfill every live problem has a task or a solution, so a second one adds nothing. */
  lemma SecondBackfillAddsNothing(s: Store, order: seq<Id>, again: seq<Id>)
    requires Inv(s) && EnumeratesLive(s, order) && EnumeratesLive(Backfilled(s, order), again)
    ensures forall p :: p in order ==> HasTask(Backfilled(s, order), p) || HasSolution(Backfilled(s, order), p)
    ensures Missing(Backfilled(s, order), again) == []
            && Backfilled(Backfilled(s, order), again) == Backfilled(s, order)
  {
    hide HasSolution, Missing, Inv;
    var s' := Backfilled(s, order);
    MissingTasks(s, order);
    forall p | p in order ensures HasTask(s', p) || HasSolution(s', p) {
      SameSolutions(s, s', p);
      if HasTask(s, p) {
        var k :| 0 <= k < |s.tasks| && s.tasks[k].problem == p;
        assert s'.tasks[k].problem == p;
      } else if !HasSolution(s, p) {
        var t := Task(p, s.problems[p].owner, Pending);
        assert Added(s, order, t);
        var k :| 0 <= k < |Missing(s, order)| && Missing(s, order)[k] == t;
        assert s'.tasks[|s.tasks| + k].problem == p;
      }
    }
    NothingMissing(s', again);
    assert s'.tasks + [] == s'.tasks;
  }

  lemma {:induction false} NothingMissing(s: Store, order: seq<Id>)
    requires forall p :: p in order ==> HasTask(s, p) || HasSolution(s, p)
    ensures Missing(s, order) == []
  {
    hide HasTask, HasSolution;
    if order != [] {
      NothingMissing(s, order[1..]);
    }
  }

  // ---------------------------------------------------------------- where they part

  /** A regeneration between a worker's two writes: the problem ends up under none of the filters. */
  lemma RegenerationBetweenWrites(s: Store, p: Id, k: nat, wanted: State)
    requires Inv(s) && p in s.problems && !s.problems[p].deleted && k < |s.tasks| && s.tasks[k].problem == p
             && !HasSolution(s, p)
    ensures var s' := Run(s, [WorkerSaves(k), Regenerate(p), WorkerMoves(k, Ready)]);
            && p in LiveProblems(s', s.problems[p].owner)
            && StatusOf(s', p) == Is(Ready)
            && p !in Listed(s', s.problems[p].owner, wanted)
  {
    hide Listed, LiveProblems, Unsolved, Regenerated, StatusOf, HasSolution, FindTask, CanRegenerate, Step;
    var user := s.problems[p].owner;
    var s1 := Step(s, WorkerSaves(k));
    var s2 := Step(s1, Regenerate(p));
    var s3 := Step(s2, WorkerMoves(k, Ready));
    RunThree(s, WorkerSaves(k), Regenerate(p), WorkerMoves(k, Ready));
    SavedThenRegenerated(s, p, k);
    StepKeeps(s, WorkerSaves(k));
    StepKeeps(s1, Regenerate(p));
    StepKeeps(s2, WorkerMoves(k, Ready));
    SameSolutions(s, s3, p);
    ReadyUnsolved(s3, p, k);
    LiveHere(s3, p, user);
    FilterMatchesStatus(s3, user, p, wanted);
  }

  lemma RunThree(s: Store, a: Event, b: Event, c: Event)
    ensures Run(s, [a, b, c]) == Step(Step(Step(s, a), b), c)
  {
    hide Step;
    assert [a, b, c][1..] == [b, c] && [b, c][1..] == [c] && [c][1..] == [];
    var s2 := Step(Step(s, a), b);
    assert Run(s2, [c]) == Step(s2, c);
    assert Run(Step(s, a), [b, c]) == Run(s2, [c]);
  }

  lemma ReadyUnsolved(s: Store, p: Id, k: nat)
    requires OneTaskEach(s) && k < |s.tasks| && s.tasks[k].problem == p && s.tasks[k].progress.Ready?
             && !HasSolution(s, p)
    ensures StatusOf(s, p) == Is(Ready)
  {
    OwnTask(s, p, k);
    StatusFromFind(s, p);
  }

  /** Only the progress of the task is left of the two writes. */
  lemma SavedThenRegenerated(s: Store, p: Id, k: nat)
    requires Inv(s) && p in s.problems && !s.problems[p].deleted && k < |s.tasks| && s.tasks[k].problem == p
             && !HasSolution(s, p)
    ensures var s3 := Step(Step(Step(s, WorkerSaves(k)), Regenerate(p)), WorkerMoves(k, Ready));
            s3 == Store(s.problems, s.tasks[k := s.tasks[k].(progress := Ready)], s.solutions)
  {
    hide Unsolved, HasSolution;
    var s1 := Saved(s, k);
    SavedThenUnsolved(s, p, k);
    OwnTask(s1, p, k);
    StatusFromFind(s1, p);
    NowSolved(s, k);
  }

  lemma LiveHere(s: Store, p: Id, user: string)
    requires p in s.problems && s.problems[p] == Problem(user, false)
    ensures p in LiveProblems(s, user)
  {
  }

  lemma SavedThenUnsolved(s: Store, p: Id, k: nat)
    requires k < |s.tasks| && s.tasks[k].problem == p && !HasSolution(s, p)
    ensures Unsolved(Saved(s, k), p) == s
  {
    var ss := Saved(s, k).solutions;
    assert ss[|s.solutions|].problem == p;
    assert forall j :: 0 <= j < |s.solutions| ==> ss[j] == s.solutions[j] && s.solutions[j].problem != p;
    assert FindSolution(ss, p) == |s.solutions|;
    assert ss[..|s.solutions|] + ss[|s.solutions| + 1..] == s.solutions;
  }

  // ---------------------------------------------------------------- regenerating

  function SolutionCount(ss: seq<Solution>, p: Id): nat {
    if ss == [] then 0 else (if ss[0].problem == p then 1 else 0) + SolutionCount(ss[1..], p)
  }

  lemma {:induction false} CountJoins(a: seq<Solution>, b: seq<Solution>, p: Id)
    ensures SolutionCount(a + b, p) == SolutionCount(a, p) + SolutionCount(b, p)
  {
    if a == [] {
      assert a + b == b;
    } else {
      assert (a + b)[1..] == a[1..] + b;
      CountJoins(a[1..], b, p);
    }
  }

  lemma {:induction false} CountNone(ss: seq<Solution>, p: Id)
    ensures SolutionCount(ss, p) == 0 <==> FindSolution(ss, p) == |ss|
  {
    if ss != [] {
      CountNone(ss[1..], p);
    }
  }

  lemma CountRemoved(ss: seq<Solution>, k: nat, p: Id)
    requires k < |ss| && ss[k].problem == p
    ensures SolutionCount(ss[..k] + ss[k + 1..], p) == SolutionCount(ss, p) - 1
  {
    var rest := [ss[k]] + ss[k + 1..];
    assert ss == ss[..k] + rest && rest[1..] == ss[k + 1..];
    CountJoins(ss[..k], rest, p);
    CountJoins(ss[..k], ss[k + 1..], p);
  }

  lemma CountDecides(ss: seq<Solution>, p: Id)
    ensures SolutionCount(ss, p) == 0 <==> FindSolution(ss, p) == |ss|
    ensures var k := FindSolution(ss, p);
            k < |ss| ==> SolutionCount(ss[..k] + ss[k + 1..], p) == SolutionCount(ss, p) - 1
  {
    hide SolutionCount;
    CountNone(ss, p);
    if FindSolution(ss, p) < |ss| {
      CountRemoved(ss, FindSolution(ss, p), p);
    }
  }

  /** A regeneration that reports pending has made the problem pending exactly when there was at most
      one stored solution; the task is pending in any case. */
  lemma RegenerateMakesPending(s: Store, p: Id)
    requires Inv(s) && p in s.problems && CanRegenerate(s, p)
    ensures var s' := Regenerated(s, p, s.problems[p].owner);
            && (StatusOf(s', p) == Is(Pending) <==> SolutionCount(s.solutions, p) <= 1)
            && HasTask(s', p) && s'.tasks[FindTask(s'.tasks, p)].progress.Pending?
  {
    hide SolutionCount, Inv, HasTask, FindTask, FindSolution, Regenerated, CanRegenerate;
    RegeneratedTask(s, p);
    RegeneratedSolutions(s, p);
    LeftUnsolved(s, p);
  }

  /** What deleting one solution leaves of them. */
  lemma LeftUnsolved(s: Store, p: Id)
    ensures FindSolution(Unsolved(s, p).solutions, p) == |Unsolved(s, p).solutions|
            <==> SolutionCount(s.solutions, p) <= 1
    ensures FindSolution(Unsolved(s, p).solutions, p) <= |Unsolved(s, p).solutions|
  {
    hide SolutionCount;
    CountDecides(s.solutions, p);
    CountDecides(Unsolved(s, p).solutions, p);
  }

  lemma RegeneratedSolutions(s: Store, p: Id)
    requires p in s.problems && CanRegenerate(s, p)
    ensures Regenerated(s, p, s.problems[p].owner).solutions == Unsolved(s, p).solutions
  {
    hide Unsolved, FindTask, FindSolution;
    UnsolvedTasks(s, p);
  }

  lemma UnsolvedTasks(s: Store, p: Id)
    ensures Unsolved(s, p).tasks == s.tasks
  {
  }

  /** The task of a regenerated problem is pending. */
  lemma RegeneratedTask(s: Store, p: Id)
    requires Inv(s) && p in s.problems && CanRegenerate(s, p)
    ensures var s' := Regenerated(s, p, s.problems[p].owner);
            HasTask(s', p) && FindTask(s'.tasks, p) < |s'.tasks| && s'.tasks[FindTask(s'.tasks, p)].progress.Pending?
  {
    hide Unsolved, HasSolution;
    RegenerateKeeps(s, p);
    UnsolvedTasks(s, p);
    var s' := Regenerated(s, p, s.problems[p].owner);
    var t := FindTask(s.tasks, p);
    assert t < |s'.tasks| && s'.tasks[t].problem == p;
    OwnTask(s', p, t);
  }
}
