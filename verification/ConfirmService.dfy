/** The confirm endpoint as code: claim, create, roll back. Each method takes the steps that `Confirm`
    gives one confirmer when nobody else moves. */
module ConfirmService {
  import opened Prelude
  import opened Confirm

  /** Which database calls of one request raise, and whether their write landed all the same. */
  datatype Faults = Faults(
    lookup: bool, enqueueExisting: bool, insert: Option<bool>, enqueue: bool, tags: bool,
    remove: Option<bool>, rollback: Option<bool>)

  const NO_FAULTS := Faults(false, false, None, false, false, None, None)

  function FaultAt(f: Faults, ph: Phase): Option<bool> {
    match ph
    case Found(_) => if f.enqueueExisting then Some(false) else None
    case Inserting(_) => f.insert
    case Enqueueing(_) => if f.enqueue then Some(false) else None
    case Tagging(_) => if f.tags then Some(false) else None
    case Compensating(_) => f.remove
    case RollingBack(_) => f.rollback
    case _ => None
  }

  function Rank(ph: Phase): nat {
    match ph
    case Inserting(_) => 5
    case Enqueueing(_) => 4
    case Tagging(_) => 3
    case Compensating(_) => 2
    case RollingBack(_) => 1
    case Found(_) => 1
    case _ => 0
  }

  /** One confirmer past its look-up, left alone until it ends. */
  function Drive(s: Store, c: Confirmer, f: Faults): (Store, Phase)
    decreases Rank(c.phase)
  {
    if Rank(c.phase) == 0 then (s, c.phase)
    else
      var (s', ph) := if FaultAt(f, c.phase).Some? then Failing(s, c, FaultAt(f, c.phase).value) else Success(s, c);
      Drive(s', c.(phase := ph), f)
  }

  function DriveEvents(h: nat, s: Store, c: Confirmer, f: Faults): seq<Event>
    decreases Rank(c.phase)
  {
    if Rank(c.phase) == 0 then []
    else
      var fault := FaultAt(f, c.phase);
      var (s', ph) := if fault.Some? then Failing(s, c, fault.value) else Success(s, c);
      [if fault.Some? then Fails(h, fault.value) else Succeeds(h)] + DriveEvents(h, s', c.(phase := ph), f)
  }

  /** Being left alone is one of the interleavings. */
  lemma {:induction false} DriveIsRun(w: World, h: nat, f: Faults)
    requires h in w.confirmers
    ensures var w', out := Run(w, DriveEvents(h, w.store, w.confirmers[h], f)), Drive(w.store, w.confirmers[h], f);
            w'.store == out.0 && w'.confirmers == w.confirmers[h := w.confirmers[h].(phase := out.1)]
    decreases Rank(w.confirmers[h].phase)
  {
    hide Success, Failing;
    var s, c := w.store, w.confirmers[h];
    assert w.confirmers[h := c] == w.confirmers;
    if Rank(c.phase) > 0 {
      StepLowersRank(s, c, f);
      var fault := FaultAt(f, c.phase);
      var e := if fault.Some? then Fails(h, fault.value) else Succeeds(h);
      var w1 := Step(w, e);
      DriveIsRun(w1, h, f);
      var rest := DriveEvents(h, w1.store, w1.confirmers[h], f);
      assert DriveEvents(h, s, c, f) == [e] + rest;
      assert ([e] + rest)[1..] == rest;
      var out := Drive(w1.store, w1.confirmers[h], f);
      assert w1.confirmers[h := w1.confirmers[h].(phase := out.1)] == w.confirmers[h := c.(phase := out.1)];
    }
  }

  lemma StepLowersRank(s: Store, c: Confirmer, f: Faults)
    requires Rank(c.phase) > 0
    ensures var out := if FaultAt(f, c.phase).Some? then Failing(s, c, FaultAt(f, c.phase).value) else Success(s, c);
            Rank(out.1) < Rank(c.phase)
  {
  }

  /** The look-up answers with a problem of the preview whenever there is one. */
  predicate Picks(s: Store, pv: Id, hit: Id) {
    hit in Matching(s, PreviewOrigin(pv)) || Matching(s, PreviewOrigin(pv)) == {}
  }

  lemma SomePick(s: Store, pv: Id)
    ensures exists hit :: Picks(s, pv, hit)
  {
    hide Matching;
    var found := Matching(s, PreviewOrigin(pv));
    if found != {} {
      var hit :| hit in found;
      assert Picks(s, pv, hit);
    } else {
      assert Picks(s, pv, pv);
    }
  }

  function Claimer(pv: Id, user: string, was: Preview): Confirmer {
    Confirmer(pv, was.status, was.draft, user, Claimed)
  }

  /** One request with nobody else about. */
  function Alone(s: Store, pv: Id, user: string, hit: Id, unused: Id, f: Faults): (Store, Phase) {
    var (s1, claimed) := Claim(s, pv, user);
    if claimed.None? then (s1, Refused(ClaimRefusal(s1, pv, user)))
    else
      var c := Claimer(pv, user, claimed.value);
      if f.lookup && DraftFailure(c.draft).None? then (s1, Lost(Claimed))
      else Drive(s1, c.(phase := LookedUp(s1, c, hit, unused)), f)
  }

  function AloneEvents(s: Store, pv: Id, user: string, hit: Id, unused: Id, f: Faults): seq<Event> {
    var (s1, claimed) := Claim(s, pv, user);
    if claimed.None? then [Confirming(0, pv, user)]
    else
      var c := Claimer(pv, user, claimed.value);
      if f.lookup && DraftFailure(c.draft).None? then [Confirming(0, pv, user), Fails(0, false)]
      else
        [Confirming(0, pv, user), LooksUp(0, hit, unused)]
        + DriveEvents(0, s1, c.(phase := LookedUp(s1, c, hit, unused)), f)
  }

  ghost predicate RunsTo(s: Store, events: seq<Event>, s': Store, ph: Phase) {
    var w' := Run(World(s, map[], {}), events);
    w'.store == s' && 0 in w'.confirmers && w'.confirmers[0].phase == ph
  }

  lemma TwoAndOn(w: World, a: Event, b: Event, rest: seq<Event>)
    ensures Run(w, [a, b] + rest) == Run(Step(Step(w, a), b), rest)
    ensures Run(w, [a]) == Step(w, a)
  {
    hide Step;
    assert ([a, b] + rest)[1..] == [b] + rest && ([b] + rest)[1..] == rest && [a][1..] == [];
    assert Run(Step(w, a), [b] + rest) == Run(Step(Step(w, a), b), rest);
  }

  /** The request alone is a run of the model, and it ends. */
  lemma AloneIsRun(s: Store, pv: Id, user: string, hit: Id, unused: Id, f: Faults)
    requires unused !in s.problems && Picks(s, pv, hit)
    ensures var out := Alone(s, pv, user, hit, unused, f);
            RunsTo(s, AloneEvents(s, pv, user, hit, unused, f), out.0, out.1) && !Active(out.1)
  {
    hide Success, Failing, Drive, DraftFailure, Matching, DriveEvents, Run;
    var w := World(s, map[], {});
    var (s1, claimed) := Claim(s, pv, user);
    var w1 := Step(w, Confirming(0, pv, user));
    TwoAndOn(w, Confirming(0, pv, user), Fails(0, false), []);
    if claimed.Some? {
      var c := Claimer(pv, user, claimed.value);
      assert w1.store == s1 && w1.confirmers == map[0 := c];
      if f.lookup && DraftFailure(c.draft).None? {
        assert [Confirming(0, pv, user), Fails(0, false)] + [] == [Confirming(0, pv, user), Fails(0, false)];
        LookUpFails(w1);
      } else {
        var looked := c.(phase := LookedUp(s1, c, hit, unused));
        var w2 := Step(w1, LooksUp(0, hit, unused));
        assert Matching(s1, PreviewOrigin(pv)) == Matching(s, PreviewOrigin(pv)) by { SameMatches(s, s1, pv); }
        TwoAndOn(w, Confirming(0, pv, user), LooksUp(0, hit, unused), DriveEvents(0, s1, looked, f));
        assert w2.store == s1 && w2.confirmers[0] == looked;
        DriveIsRun(w2, 0, f);
        DriveEnds(s1, looked, f);
      }
    }
  }

  lemma LookUpFails(w: World)
    requires 0 in w.confirmers && w.confirmers[0].phase.Claimed?
    ensures var w' := Run(w, []); w' == w
    ensures var w' := Step(w, Fails(0, false));
            w'.store == w.store && 0 in w'.confirmers && w'.confirmers[0].phase == Lost(Claimed)
    ensures Run(Step(w, Fails(0, false)), []) == Step(w, Fails(0, false))
  {
  }

  lemma SameMatches(s: Store, s1: Store, pv: Id)
    requires s1.problems == s.problems
    ensures Matching(s1, PreviewOrigin(pv)) == Matching(s, PreviewOrigin(pv))
  {
  }

  lemma {:induction false} DriveEnds(s: Store, c: Confirmer, f: Faults)
    requires !c.phase.Claimed?
    ensures !Active(Drive(s, c, f).1)
    decreases Rank(c.phase)
  {
    if Rank(c.phase) > 0 {
      StepLowersRank(s, c, f);
      var out := if FaultAt(f, c.phase).Some? then Failing(s, c, FaultAt(f, c.phase).value) else Success(s, c);
      DriveEnds(out.0, c.(phase := out.1), f);
    }
  }

  /** With a problem of the preview there already, the request returns one of them and inserts nothing. */
  lemma AloneReturnsExisting(s: Store, pv: Id, user: string, hit: Id, unused: Id, f: Faults)
    requires Picks(s, pv, hit) && Matching(s, PreviewOrigin(pv)) != {} && Claim(s, pv, user).1.Some?
    requires DraftFailure(s.previews[pv].draft).None? && !f.lookup && !f.enqueueExisting
    ensures Alone(s, pv, user, hit, unused, f) == (Claim(s, pv, user).0, Returned(hit))
            && hit in Matching(s, PreviewOrigin(pv))
  {
    hide DraftFailure, Matching;
    var (s1, claimed) := Claim(s, pv, user);
    SameMatches(s, s1, pv);
    var c := Claimer(pv, user, claimed.value);
    assert LookedUp(s1, c, hit, unused) == Found(hit);
    LastStep(s1, c.(phase := Found(hit)), f);
  }

  // ---------------------------------------------------------------- what a confirm that nothing disturbs does

  predicate HoldsText(v: Option<string>) {
    v.Some? && exists k :: 0 <= k < |v.value| && !PythonSpace(v.value[k])
  }

  /** A draft that can become a problem: no bad graph, a text and an answer that are more than space, and
      one of the four types. */
  predicate Complete(d: Draft) {
    && !d.graphRejected && HoldsText(d.text) && HoldsText(d.correctAnswer)
    && d.problemType in {Some("single-choice"), Some("multi-choice"), Some("fill-in-the-blank"), Some("short-answer")}
  }

  /** What a refused draft is refused for. */
  function Defect(d: Draft): Failure {
    if d.graphRejected then InvalidGraph
    else if HoldsText(d.text) && HoldsText(d.correctAnswer) && d.problemType.Some? then InvalidProblemType
    else InvalidPreview
  }

  lemma DraftFailsIff(d: Draft)
    ensures DraftFailure(d) == if Complete(d) then None else Some(Defect(d))
  {
  }

  /** No call fails and no problem of the preview is there yet: a complete draft becomes exactly one new
      problem, the user's and made from this preview, which is then confirmed; any other is refused for
      its defect, and the preview is given back as it was. */
  lemma UndisturbedConfirm(s: Store, pv: Id, user: string, hit: Id, unused: Id)
    requires pv in s.previews && s.previews[pv].owner == user && s.previews[pv].status in {Ready, VlmFailed}
    requires unused !in s.problems && Picks(s, pv, hit) && Matching(s, PreviewOrigin(pv)) == {}
    ensures var (s', ph) := Alone(s, pv, user, hit, unused, NO_FAULTS);
            if Complete(s.previews[pv].draft) then
              && ph == Returned(unused)
              && s'.previews == s.previews[pv := s.previews[pv].(status := Confirmed)]
              && s'.problems == s.problems[unused := Problem(user, Origin(Some(pv), None, None))]
            else ph == Refused(Defect(s.previews[pv].draft)) && s' == s
  {
    hide Complete, Defect, DraftFailure, Matching;
    var (s1, claimed) := Claim(s, pv, user);
    DraftFailsIff(s.previews[pv].draft);
    SameMatches(s, s1, pv);
    var c := Claimer(pv, user, claimed.value);
    assert s1.previews[pv := s.previews[pv]] == s.previews;
    UndisturbedDrive(s1, c.(phase := LookedUp(s1, c, hit, unused)));
  }

  lemma UndisturbedDrive(s: Store, c: Confirmer)
    requires c.phase.Inserting? || c.phase.RollingBack?
    ensures c.phase.Inserting? ==>
            Drive(s, c, NO_FAULTS) == (WithProblem(s, c.phase.problem, c), Returned(c.phase.problem))
    ensures c.phase.RollingBack? ==> Drive(s, c, NO_FAULTS) == (Restored(s, c), Refused(c.phase.why))
  {
    if c.phase.Inserting? {
      var p := c.phase.problem;
      var s1 := WithProblem(s, p, c);
      LastStep(s1, c.(phase := Returned(p)), NO_FAULTS);
      assert Drive(s1, c.(phase := Tagging(p)), NO_FAULTS) == Drive(s1, c.(phase := Returned(p)), NO_FAULTS);
      assert Drive(s1, c.(phase := Enqueueing(p)), NO_FAULTS) == Drive(s1, c.(phase := Tagging(p)), NO_FAULTS);
    } else {
      LastStep(s, c, NO_FAULTS);
    }
  }

  class PreviewStore {
    var previews: map<Id, Preview>
    var problems: map<Id, Problem>

    function State(): Store
      reads this
    {
      Store(previews, problems)
    }

    constructor ()
      ensures State() == EMPTY.store
    {
      previews, problems := map[], map[];
    }

    method ClaimPreview(pv: Id, user: string) returns (claimed: Option<Preview>)
      modifies this`previews
      ensures (State(), claimed) == Claim(old(State()), pv, user)
      ensures claimed.Some? <==>
                && pv in old(previews) && old(previews)[pv].owner == user
                && (old(previews)[pv].status.Ready? || old(previews)[pv].status.VlmFailed?)
      ensures claimed.Some? ==>
                claimed.value == old(previews)[pv] && previews[pv] == claimed.value.(status := Confirmed)
      ensures forall x :: x in previews && (x != pv || claimed.None?) ==>
              x in old(previews) && previews[x] == old(previews)[x]
      ensures previews.Keys == old(previews).Keys
    {
      if pv in previews && previews[pv].owner == user && Claimable(previews[pv].status) {
        claimed := Some(previews[pv]);
        previews := previews[pv := previews[pv].(status := Confirmed)];
      } else {
        claimed := None;
      }
    }

    /** Inserts and finishes a new problem; what raises after the insert began deletes it again. */
    method InsertProblem(c: Confirmer, p: Id, f: Faults) returns (ph: Phase)
      requires c.phase == Inserting(p)
      modifies this`problems
      ensures ph == Returned(p) || ph == RollingBack(CreationFailed)
      ensures Drive(old(State()), c, f) == Drive(State(), c.(phase := ph), f)
    {
      if f.insert.None? || f.insert.value {
        problems := problems[p := Problem(c.owner, PreviewOrigin(c.preview))];
      }
      if f.insert.None? && !f.enqueue && !f.tags {
        assert Drive(State(), c.(phase := Tagging(p)), f) == Drive(State(), c.(phase := Returned(p)), f);
        assert Drive(State(), c.(phase := Enqueueing(p)), f) == Drive(State(), c.(phase := Tagging(p)), f);
        return Returned(p);
      }
      assert f.insert.None? && !f.enqueue ==>
             Drive(State(), c.(phase := Enqueueing(p)), f) == Drive(State(), c.(phase := Tagging(p)), f);
      assert f.insert.None? && f.enqueue ==>
             Drive(State(), c.(phase := Enqueueing(p)), f) == Drive(State(), c.(phase := Compensating(p)), f);
      assert f.tags ==> Drive(State(), c.(phase := Tagging(p)), f) == Drive(State(), c.(phase := Compensating(p)), f);
      assert Drive(State(), c.(phase := Compensating(p)), f) == Drive(old(State()), c, f);
      if f.remove.None? || f.remove.value {
        problems := problems - {p};
      }
      return RollingBack(CreationFailed);
    }

    method CreateProblem(c: Confirmer, unused: Id, f: Faults) returns (ph: Phase)
      requires c.phase.Claimed? && unused !in problems && c.preview != ""
      modifies this`problems
      ensures Rank(ph) <= 1 && (f.lookup && DraftFailure(c.draft).None? ==>
                                ph == Lost(Claimed) && problems == old(problems))
      ensures !f.lookup || DraftFailure(c.draft).Some? ==>
                exists hit :: && Picks(old(State()), c.preview, hit)
                              && Drive(old(State()), c.(phase := LookedUp(old(State()), c, hit, unused)), f)
                                 == Drive(State(), c.(phase := ph), f)
    {
      hide DraftFailure, Drive, Matching;
      var failure := DraftFailure(c.draft);
      if failure.Some? {
        SomePick(State(), c.preview);
        assert forall hit :: LookedUp(State(), c, hit, unused) == RollingBack(failure.value);
        return RollingBack(failure.value);
      }
      if f.lookup {
        return Lost(Claimed);
      }
      var found := Matching(State(), PreviewOrigin(c.preview));
      if found != {} {
        var hit :| hit in found;
        assert Picks(State(), c.preview, hit) && LookedUp(State(), c, hit, unused) == Found(hit);
        ph := Found(hit);
      } else {
        assert Picks(State(), c.preview, unused) && LookedUp(State(), c, unused, unused) == Inserting(unused);
        ph := InsertProblem(c.(phase := Inserting(unused)), unused, f);
      }
    }

    /** The whole request. Nobody else moving, it does what `Alone` says, which is one of the runs of the
        model, and it comes to an end. */
    method ConfirmPreview(pv: Id, user: string, unused: Id, f: Faults) returns (ph: Phase)
      requires unused !in problems && pv != ""
      modifies this
      ensures exists hit :: && Picks(old(State()), pv, hit)
                            && (State(), ph) == Alone(old(State()), pv, user, hit, unused, f)
      ensures !Active(ph)
      ensures exists events :: RunsTo(old(State()), events, State(), ph)
    {
      hide DraftFailure, Matching, Drive, RunsTo, AloneEvents, Active;
      ghost var s := State();
      SomePick(s, pv);
      ghost var hit: Id :| Picks(s, pv, hit);
      var claimed := ClaimPreview(pv, user);
      if claimed.None? {
        AloneIsRun(s, pv, user, hit, unused, f);
        return Refused(if pv in previews && previews[pv].owner == user then AlreadyConfirmed else NotFound);
      }
      var c := Confirmer(pv, claimed.value.status, claimed.value.draft, user, Claimed);
      ghost var s1 := State();
      SameMatches(s, s1, pv);
      ph := CreateProblem(c, unused, f);
      if !f.lookup || DraftFailure(c.draft).Some? {
        hit :| Picks(s1, pv, hit) && Drive(s1, c.(phase := LookedUp(s1, c, hit, unused)), f)
          == Drive(State(), c.(phase := ph), f);
      }
      AloneIsRun(s, pv, user, hit, unused, f);
      ghost var here := State();
      ghost var was := ph;
      match ph {
        case Found(p) => ph := if f.enqueueExisting then Lost(ph) else Returned(p);
        case RollingBack(why) =>
          if f.rollback.None? || f.rollback.value {
            previews := previews[pv := previews[pv].(status := claimed.value.status)];
          }
          ph := if f.rollback.Some? then Lost(ph) else Refused(why);
        case _ =>
      }
      LastStep(here, c.(phase := was), f);
    }
  }

  /** From a phase with one step left, or none. */
  lemma LastStep(s: Store, c: Confirmer, f: Faults)
    requires Rank(c.phase) <= 1
    ensures Drive(s, c, f) == if Rank(c.phase) == 0 then (s, c.phase)
                              else if FaultAt(f, c.phase).Some? then Failing(s, c, FaultAt(f, c.phase).value)
                              else Success(s, c)
  {
  }
}
