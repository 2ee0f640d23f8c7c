/** Any number of concurrent confirms: what every interleaving keeps. */
module ConfirmTheorems {
  import opened Prelude
  import opened Confirm

  /** What a confirmer's phase says about the problems made from its preview. */
  predicate PhaseOk(s: Store, c: Confirmer) {
    match c.phase
    case Found(p) => p in MadeFrom(s, c.preview)
    case Inserting(p) => p !in s.problems && MadeFrom(s, c.preview) == {}
    case Enqueueing(p) => p in MadeFrom(s, c.preview)
    case Tagging(p) => p in MadeFrom(s, c.preview)
    case Compensating(p) => MadeFrom(s, c.preview) <= {p} && (p in s.problems ==> p in MadeFrom(s, c.preview))
    case Returned(p) => p in MadeFrom(s, c.preview)
    case Lost(Found(p)) => p in MadeFrom(s, c.preview)
    case Lost(Enqueueing(p)) => p in MadeFrom(s, c.preview)
    case Lost(Tagging(p)) => p in MadeFrom(s, c.preview)
    case Lost(Inserting(_)) => MadeFrom(s, c.preview) == {}
    case _ => true
  }

  predicate AtMostOneEach(s: Store) {
    forall p, q | p in s.problems && q in s.problems && p != q && s.problems[p].origin.previewId.Some? ::
      s.problems[p].origin.previewId != s.problems[q].origin.previewId
  }

  /** Phases that own the identity of a problem of their own making. */
  predicate Owns(ph: Phase, p: Id) {
    match ph
    case Inserting(q) => p == q
    case Enqueueing(q) => p == q
    case Tagging(q) => p == q
    case Compensating(q) => p == q
    case _ => false
  }

  /** The preview is confirmed on behalf of this confirmer: under way, done, or left behind. */
  predicate Holding(c: Confirmer) {
    Active(c.phase) || c.phase.Returned? || (c.phase.Lost? && !c.phase.at.RollingBack?)
  }

  /** Every confirmer by itself. */
  predicate EachOk(w: World) {
    forall h | h in w.confirmers ::
      && PhaseOk(w.store, w.confirmers[h])
      && (Holding(w.confirmers[h]) ==>
            w.confirmers[h].preview in w.store.previews && w.confirmers[h].preview != ""
            && w.store.previews[w.confirmers[h].preview].status.Confirmed?)
      && (Active(w.confirmers[h].phase) ==> Claimable(w.confirmers[h].before))
  }

  /** Two confirmers of one preview never both hold it, and no two are making the same problem. */
  ghost predicate Apart(c: Confirmer, d: Confirmer) {
    && (Holding(c) && Holding(d) ==> c.preview != d.preview)
    && (forall p :: Owns(c.phase, p) ==> !Owns(d.phase, p))
  }

  ghost predicate Exclusive(w: World) {
    forall g, h :: g in w.confirmers && h in w.confirmers && g != h ==> Apart(w.confirmers[g], w.confirmers[h])
  }

  ghost predicate Holder(w: World, pv: Id, h: nat) {
    h in w.confirmers && w.confirmers[h].preview == pv && !w.confirmers[h].phase.Refused?
  }

  /** A confirmed preview is being confirmed, has been confirmed, or was left behind by a lost confirmer. */
  ghost predicate ConfirmedHeld(w: World) {
    forall pv :: pv in w.store.previews && w.store.previews[pv].status.Confirmed? ==> exists h :: Holder(w, pv, h)
  }

  ghost predicate Inv(w: World) {
    "" !in w.store.previews && AtMostOneEach(w.store) && EachOk(w) && Exclusive(w) && ConfirmedHeld(w)
  }

  // ---------------------------------------------------------------- one confirmer moves

  /** Everything but the problems and the preview of `c` is left alone. */
  predicate OnlyTouches(s: Store, s': Store, c: Confirmer) {
    && (forall pv | pv in s.previews :: pv in s'.previews && (pv != c.preview ==> s'.previews[pv] == s.previews[pv]))
    && (forall pv | pv in s'.previews :: pv in s.previews)
    && (forall p | p in s.problems && s.problems[p].origin.previewId != Some(c.preview) ::
        p in s'.problems && s'.problems[p] == s.problems[p])
    && (forall p | p in s'.problems && s'.problems[p].origin.previewId != Some(c.preview) ::
        p in s.problems && s'.problems[p] == s.problems[p])
  }

  lemma OthersUnmoved(s: Store, s': Store, c: Confirmer, d: Confirmer)
    requires OnlyTouches(s, s', c) && PhaseOk(s, d) && (Holding(d) ==> d.preview != c.preview)
    requires forall p :: Owns(d.phase, p) && p in s'.problems ==> p in s.problems
    ensures PhaseOk(s', d)
  {
    if Holding(d) {
      assert MadeFrom(s', d.preview) == MadeFrom(s, d.preview);
    }
  }

  /** Enough to know about the moving confirmer alone. */
  lemma MoveKeeps(w: World, h: nat, s': Store, ph: Phase)
    requires Inv(w) && h in w.confirmers && Active(w.confirmers[h].phase)
    requires var c := w.confirmers[h];
             && OnlyTouches(w.store, s', c) && AtMostOneEach(s') && PhaseOk(s', c.(phase := ph))
             && (forall p :: p in s'.problems && p !in w.store.problems ==> Owns(c.phase, p))
             && (forall p :: Owns(ph, p) ==> Owns(c.phase, p) || Unused(w, p))
             && (Holding(c.(phase := ph)) ==> s'.previews[c.preview].status.Confirmed?)
             && (Active(ph) ==> Claimable(c.before))
             && (s'.previews[c.preview].status.Confirmed? ==> !ph.Refused?)
    ensures Inv(Moved(w, h, (s', ph)))
  {
    hide AtMostOneEach, PhaseOk;
    var c, w' := w.confirmers[h], Moved(w, h, (s', ph));
    forall g | g in w'.confirmers && g != h ensures PhaseOk(s', w'.confirmers[g]) {
      assert Apart(w.confirmers[g], c);
      OthersUnmoved(w.store, s', c, w.confirmers[g]);
    }
    forall g | g in w'.confirmers && g != h
      ensures Apart(w'.confirmers[g], w'.confirmers[h]) && Apart(w'.confirmers[h], w'.confirmers[g]) {
      assert Apart(w.confirmers[g], c) && Apart(c, w.confirmers[g]);
      forall p | Owns(ph, p) ensures !Owns(w.confirmers[g].phase, p) {
        assert Owns(w.confirmers[g].phase, p) ==> Mentions(w.confirmers[g].phase, p);
      }
    }
    forall pv | pv in s'.previews && s'.previews[pv].status.Confirmed? ensures exists g :: Holder(w', pv, g) {
      if pv == c.preview {
        assert Holder(w', pv, h);
      } else {
        var g :| Holder(w, pv, g);
        assert Holder(w', pv, g);
      }
    }
  }

  lemma InvHere(w: World, h: nat)
    requires Inv(w) && h in w.confirmers && Active(w.confirmers[h].phase)
    ensures var c := w.confirmers[h];
            && PhaseOk(w.store, c) && c.preview in w.store.previews && c.preview != ""
            && w.store.previews[c.preview].status.Confirmed? && Claimable(c.before)
  {
  }

  lemma MatchingIsMadeFrom(s: Store, pv: Id)
    requires pv != ""
    ensures Matching(s, PreviewOrigin(pv)) == MadeFrom(s, pv)
  {
    forall p | p in s.problems ensures p in Matching(s, PreviewOrigin(pv)) <==> p in MadeFrom(s, pv) {
      PreviewQueryFindsItsProblems(pv, s.problems[p].origin);
    }
    if s.problems != map[] {
      var p :| p in s.problems;
      PreviewQueryFindsItsProblems(pv, s.problems[p].origin);
    }
  }

  lemma InsertShape(s: Store, c: Confirmer, p: Id)
    requires AtMostOneEach(s) && p !in s.problems && MadeFrom(s, c.preview) == {}
    ensures var s' := WithProblem(s, p, c); AtMostOneEach(s') && MadeFrom(s', c.preview) == {p} && OnlyTouches(s, s', c)
  {
    assert forall q :: q in s.problems ==> q !in MadeFrom(s, c.preview);
  }

  lemma DeleteShape(s: Store, c: Confirmer, p: Id)
    requires AtMostOneEach(s) && (p in s.problems ==> p in MadeFrom(s, c.preview))
    ensures var s' := Without(s, p); AtMostOneEach(s') && OnlyTouches(s, s', c)
  {
  }

  lemma RestoreShape(s: Store, c: Confirmer)
    requires AtMostOneEach(s)
    ensures AtMostOneEach(Restored(s, c)) && OnlyTouches(s, Restored(s, c), c)
  {
  }

  lemma SuccessKeeps(w: World, h: nat)
    requires Inv(w) && h in w.confirmers && Active(w.confirmers[h].phase) && !w.confirmers[h].phase.Claimed?
    ensures Inv(Moved(w, h, Success(w.store, w.confirmers[h])))
  {
    hide Inv, MadeFrom, AtMostOneEach;
    var s, c := w.store, w.confirmers[h];
    InvHere(w, h);
    AtMostOneHere(w);
    match c.phase {
      case Inserting(p) => InsertShape(s, c, p);
      case Compensating(p) => DeleteShape(s, c, p);
      case RollingBack(why) => RestoreShape(s, c);
      case _ =>
    }
    MoveKeeps(w, h, Success(s, c).0, Success(s, c).1);
  }

  lemma AtMostOneHere(w: World)
    requires Inv(w)
    ensures AtMostOneEach(w.store)
  {
  }

  lemma FailingKeeps(w: World, h: nat, landed: bool)
    requires Inv(w) && h in w.confirmers && Active(w.confirmers[h].phase)
    ensures Inv(Moved(w, h, Failing(w.store, w.confirmers[h], landed)))
  {
    hide Inv, AtMostOneEach;
    var s, c := w.store, w.confirmers[h];
    InvHere(w, h);
    AtMostOneHere(w);
    assert OnlyTouches(s, s, c);
    match c.phase {
      case Inserting(p) => if landed { InsertShape(s, c, p); }
      case Compensating(p) => if landed { DeleteShape(s, c, p); }
      case Enqueueing(p) => OnlyProblem(s, c, p);
      case Tagging(p) => OnlyProblem(s, c, p);
      case RollingBack(why) => if landed { RestoreShape(s, c); }
      case _ =>
    }
    MoveKeeps(w, h, Failing(s, c, landed).0, Failing(s, c, landed).1);
  }

  lemma OnlyProblem(s: Store, c: Confirmer, p: Id)
    requires AtMostOneEach(s) && p in MadeFrom(s, c.preview)
    ensures MadeFrom(s, c.preview) == {p}
  {
  }

  lemma LookUpKeeps(w: World, h: nat, hit: Id, unused: Id)
    requires Inv(w) && h in w.confirmers && w.confirmers[h].phase.Claimed? && Unused(w, unused)
    ensures Inv(Moved(w, h, (w.store, LookedUp(w.store, w.confirmers[h], hit, unused))))
  {
    hide Inv, AtMostOneEach, DraftFailure, Matching, MadeFrom;
    InvHere(w, h);
    AtMostOneHere(w);
    MatchingIsMadeFrom(w.store, w.confirmers[h].preview);
    assert OnlyTouches(w.store, w.store, w.confirmers[h]);
    MoveKeeps(w, h, w.store, LookedUp(w.store, w.confirmers[h], hit, unused));
  }

  // ---------------------------------------------------------------- every event, every run

  lemma ClaimKeeps(w: World, h: nat, pv: Id, user: string)
    requires Inv(w) && h !in w.confirmers
    ensures Inv(Step(w, Confirming(h, pv, user)))
  {
    hide MadeFrom, PhaseOk, ClaimRefusal;
    var s, w' := w.store, Step(w, Confirming(h, pv, user));
    var claims := Claim(s, pv, user).1.Some?;
    NewlyOk(w'.store, w'.confirmers[h]);
    forall g | g in w.confirmers ensures PhaseOk(w'.store, w.confirmers[g]) {
      ProblemsDecide(s, w'.store, w.confirmers[g]);
    }
    forall x | x in w'.store.previews && w'.store.previews[x].status.Confirmed? ensures exists g :: Holder(w', x, g) {
      if claims && x == pv {
        assert Holder(w', x, h);
      } else {
        var g :| Holder(w, x, g);
        assert Holder(w', x, g);
      }
    }
  }

  lemma NewlyOk(s: Store, c: Confirmer)
    ensures c.phase.Claimed? || c.phase.Refused? ==> PhaseOk(s, c)
  {
  }

  lemma ProblemsDecide(s: Store, s': Store, c: Confirmer)
    requires s.problems == s'.problems && PhaseOk(s, c)
    ensures PhaseOk(s', c)
  {
    assert MadeFrom(s, c.preview) == MadeFrom(s', c.preview);
  }

  lemma PreviewKeeps(w: World, s': Store)
    requires Inv(w) && s'.problems == w.store.problems && "" !in s'.previews
    requires forall pv :: pv in w.store.previews ==>
             pv in s'.previews && (w.store.previews[pv].status.Confirmed? ==> s'.previews[pv] == w.store.previews[pv])
    requires forall pv :: pv in s'.previews && s'.previews[pv].status.Confirmed? ==>
             pv in w.store.previews && w.store.previews[pv].status.Confirmed?
    ensures Inv(w.(store := s'))
  {
    hide MadeFrom, PhaseOk;
    forall g | g in w.confirmers ensures PhaseOk(s', w.confirmers[g]) {
      ProblemsDecide(w.store, s', w.confirmers[g]);
    }
    forall x | x in s'.previews && s'.previews[x].status.Confirmed? ensures exists g :: Holder(w.(store := s'), x, g) {
      var g :| Holder(w, x, g);
      assert Holder(w.(store := s'), x, g);
    }
  }

  lemma NamedPreviews(w: World)
    requires Inv(w)
    ensures "" !in w.store.previews
  {
  }

  lemma OtherKeeps(w: World, p: Id, other: Problem)
    requires Inv(w) && Unused(w, p) && other.origin.previewId.None?
    ensures Inv(w.(store := w.store.(problems := w.store.problems[p := other])))
  {
    var s' := w.store.(problems := w.store.problems[p := other]);
    forall g | g in w.confirmers ensures PhaseOk(s', w.confirmers[g]) {
      assert MadeFrom(s', w.confirmers[g].preview) == MadeFrom(w.store, w.confirmers[g].preview);
      assert PhaseOk(w.store, w.confirmers[g]);
    }
    forall x | x in s'.previews && s'.previews[x].status.Confirmed? ensures exists g :: Holder(w.(store := s'), x, g) {
      var g :| Holder(w, x, g);
      assert Holder(w.(store := s'), x, g);
    }
  }

  lemma StepKeeps(w: World, e: Event)
    requires Inv(w)
    ensures Inv(Step(w, e))
  {
    hide Inv, Success, Failing, LookedUp, Unused, Claim;
    match e
    case NewPreview(pv, made) => NamedPreviews(w); PreviewKeeps(w, Step(w, e).store);
    case PreviewChanges(pv, status, draft) => NamedPreviews(w); PreviewKeeps(w, Step(w, e).store);
    case OtherProblem(p, other) => if Unused(w, p) && other.origin.previewId.None? { OtherKeeps(w, p, other); }
    case Confirming(h, pv, user) => if h !in w.confirmers { ClaimKeeps(w, h, pv, user); }
    case LooksUp(h, hit, unused) =>
      if h in w.confirmers && Unused(w, unused) {
        if w.confirmers[h].phase.Claimed? { LookUpKeeps(w, h, hit, unused); } else { Unmoved(w, h); }
      }
    case Succeeds(h) =>
      if h in w.confirmers {
        if Active(w.confirmers[h].phase) && !w.confirmers[h].phase.Claimed? {
          SuccessKeeps(w, h);
        } else {
          Unmoved(w, h);
        }
      }
    case Fails(h, landed) =>
      if h in w.confirmers {
        if Active(w.confirmers[h].phase) { FailingKeeps(w, h, landed); } else { Unmoved(w, h); }
      }
    case Vanishes(h) => if h in w.confirmers && Active(w.confirmers[h].phase) { VanishKeeps(w, h); }
  }

  lemma Unmoved(w: World, h: nat)
    requires h in w.confirmers
    ensures Moved(w, h, (w.store, w.confirmers[h].phase)) == w
    ensures !w.confirmers[h].phase.Claimed? ==>
            forall hit, unused :: LookedUp(w.store, w.confirmers[h], hit, unused) == w.confirmers[h].phase
    ensures !Active(w.confirmers[h].phase) || w.confirmers[h].phase.Claimed? ==>
            Success(w.store, w.confirmers[h]) == (w.store, w.confirmers[h].phase)
    ensures !Active(w.confirmers[h].phase) ==>
            forall landed :: Failing(w.store, w.confirmers[h], landed) == (w.store, w.confirmers[h].phase)
  {
    assert w.confirmers[h := w.confirmers[h]] == w.confirmers;
  }

  lemma VanishKeeps(w: World, h: nat)
    requires Inv(w) && h in w.confirmers && Active(w.confirmers[h].phase)
    ensures Inv(Moved(w, h, (w.store, Lost(w.confirmers[h].phase))))
  {
    hide Inv, AtMostOneEach, PhaseOk;
    InvHere(w, h);
    AtMostOneHere(w);
    LostIsOk(w.store, w.confirmers[h]);
    MoveKeeps(w, h, w.store, Lost(w.confirmers[h].phase));
  }

  lemma LostIsOk(s: Store, c: Confirmer)
    requires PhaseOk(s, c) && Active(c.phase)
    ensures PhaseOk(s, c.(phase := Lost(c.phase))) && OnlyTouches(s, s, c)
  {
  }

  lemma {:induction false} RunKeeps(w: World, events: seq<Event>)
    requires Inv(w)
    ensures Inv(Run(w, events))
    decreases |events|
  {
    hide Inv, Step;
    if events != [] {
      StepKeeps(w, events[0]);
      RunKeeps(Step(w, events[0]), events[1..]);
    }
  }

  ghost predicate Reachable(w: World) {
    exists events :: w == Run(EMPTY, events)
  }

  lemma ReachableInv(w: World)
    requires Reachable(w)
    ensures Inv(w)
  {
    var events :| w == Run(EMPTY, events);
    RunKeeps(EMPTY, events);
  }

  /** No interleaving leaves two problems made from one preview, or lets two confirms of it be under
      way, or succeed, together. */
  lemma ConfirmIsExclusive(w: World, pv: Id, g: nat, h: nat)
    requires Reachable(w)
    ensures |MadeFrom(w.store, pv)| <= 1
    ensures Holder(w, pv, g) && Holder(w, pv, h) && Holding(w.confirmers[g]) && Holding(w.confirmers[h]) ==> g == h
  {
    hide PhaseOk;
    ReachableInv(w);
    var made := MadeFrom(w.store, pv);
    if made != {} {
      var p :| p in made;
      assert made == {p};
    }
    if g in w.confirmers && h in w.confirmers && g != h {
      assert Apart(w.confirmers[g], w.confirmers[h]);
    }
  }

  /** A confirm that returned a problem has the preview confirmed for good, by that one problem. */
  lemma SuccessMeansConfirmed(w: World, h: nat, events: seq<Event>)
    requires Reachable(w) && h in w.confirmers && w.confirmers[h].phase.Returned?
    ensures var c, s := w.confirmers[h], Run(w, events).store;
            && c.preview in s.previews && s.previews[c.preview].status.Confirmed?
            && MadeFrom(s, c.preview) == {c.phase.problem}
  {
    hide Run, Inv;
    ReachableInv(w);
    ReturnedStays(w, h, events);
    ReturnedNow(Run(w, events), h);
  }

  lemma ReturnedNow(w: World, h: nat)
    requires Inv(w) && h in w.confirmers && w.confirmers[h].phase.Returned?
    ensures var c := w.confirmers[h];
            && c.preview in w.store.previews && w.store.previews[c.preview].status.Confirmed?
            && MadeFrom(w.store, c.preview) == {c.phase.problem}
  {
    OnlyProblem(w.store, w.confirmers[h], w.confirmers[h].phase.problem);
  }

  lemma {:induction false} ReturnedStays(w: World, h: nat, events: seq<Event>)
    requires Inv(w) && h in w.confirmers && w.confirmers[h].phase.Returned?
    ensures Inv(Run(w, events)) && h in Run(w, events).confirmers && Run(w, events).confirmers[h] == w.confirmers[h]
    decreases |events|
  {
    hide Inv, Step;
    if events != [] {
      StepKeeps(w, events[0]);
      ReturnedStep(w, h, events[0]);
      ReturnedStays(Step(w, events[0]), h, events[1..]);
    }
  }

  lemma ReturnedStep(w: World, h: nat, e: Event)
    requires h in w.confirmers && w.confirmers[h].phase.Returned?
    ensures h in Step(w, e).confirmers && Step(w, e).confirmers[h] == w.confirmers[h]
  {
    hide Unused, Claim, ClaimRefusal, MadeFrom, DraftFailure, Matching;
  }

  /** A confirmed preview whose confirms have all ended was confirmed by a successful one, unless a
      confirmer stopped without running its error path. */
  lemma QuietConfirmedHasItsProblem(w: World, pv: Id)
    requires Reachable(w) && pv in w.store.previews && w.store.previews[pv].status.Confirmed?
    requires forall h :: h in w.confirmers && w.confirmers[h].preview == pv ==>
             !Active(w.confirmers[h].phase) && !w.confirmers[h].phase.Lost?
    ensures |MadeFrom(w.store, pv)| == 1
    ensures exists h :: h in w.confirmers && w.confirmers[h].preview == pv && w.confirmers[h].phase.Returned?
                        && w.confirmers[h].phase.problem in MadeFrom(w.store, pv)
  {
    hide Exclusive, AtMostOneEach, MadeFrom, PhaseOk;
    ReachableInv(w);
    var h :| Holder(w, pv, h);
    ReturnedNow(w, h);
  }

  /** A refused confirm that had claimed the preview gave it back in the state it found it. */
  lemma RefusalRestores(w: World, h: nat)
    requires Reachable(w) && h in w.confirmers && w.confirmers[h].phase.RollingBack?
    ensures var c, w' := w.confirmers[h], Step(w, Succeeds(h));
            && w'.confirmers[h].phase == Refused(c.phase.why)
            && c.preview in w'.store.previews && w'.store.previews[c.preview].status == c.before && Claimable(c.before)
            && w'.store.problems == w.store.problems
  {
    hide PhaseOk, Exclusive, AtMostOneEach;
    ReachableInv(w);
  }

  // ---------------------------------------------------------------- whose problem it is

  ghost predicate Keeps(w: World, pv: Id, h: nat) {
    h in w.kept && h in w.confirmers && w.confirmers[h].preview == pv
  }

  /** What a confirmer's phase says about having inserted its problem and not deleted it. */
  predicate KeptPhase(w: World, h: nat)
    requires h in w.confirmers
  {
    match w.confirmers[h].phase
    case Claimed => h !in w.kept
    case Inserting(_) => h !in w.kept
    case Enqueueing(_) => h in w.kept
    case Tagging(_) => h in w.kept
    case Compensating(p) => h in w.kept <==> p in w.store.problems
    case _ => true
  }

  /** A problem is there exactly when one confirmer of its preview has inserted it and not deleted it. */
  ghost predicate KeptOk(w: World) {
    && (forall h :: h in w.kept ==> h in w.confirmers && MadeFrom(w.store, w.confirmers[h].preview) != {})
    && (forall g, h :: g in w.kept && h in w.kept && g != h ==> w.confirmers[g].preview != w.confirmers[h].preview)
    && (forall pv :: MadeFrom(w.store, pv) != {} ==> exists h :: Keeps(w, pv, h))
    && (forall h :: h in w.confirmers ==> KeptPhase(w, h))
  }

  /** A step that leaves the problems alone and who has kept them. */
  lemma KeptStays(w: World, w': World)
    requires KeptOk(w) && w'.kept == w.kept && w'.store.problems == w.store.problems
    requires forall h :: h in w.confirmers ==> h in w'.confirmers && w'.confirmers[h].preview == w.confirmers[h].preview
    requires forall h :: h in w'.confirmers ==> KeptPhase(w', h)
    ensures KeptOk(w')
  {
    hide KeptPhase;
    forall pv ensures MadeFrom(w'.store, pv) == MadeFrom(w.store, pv) {}
    forall pv | MadeFrom(w'.store, pv) != {} ensures exists h :: Keeps(w', pv, h) {
      var h :| Keeps(w, pv, h);
      assert Keeps(w', pv, h);
    }
  }

  /** The insert of one confirmer lands. */
  lemma KeptInsert(w: World, h: nat, p: Id, ph: Phase)
    requires Inv(w) && KeptOk(w) && h in w.confirmers && w.confirmers[h].phase == Inserting(p)
    requires ph == Enqueueing(p) || ph == Compensating(p)
    ensures KeptOk(Moved(w, h, (WithProblem(w.store, p, w.confirmers[h]), ph)))
  {
    hide AtMostOneEach, ConfirmedHeld, MadeFrom, Holding;
    var c, s' := w.confirmers[h], WithProblem(w.store, p, w.confirmers[h]);
    var w' := Moved(w, h, (s', ph));
    assert PhaseOk(w.store, c);
    InsertedAlone(w.store, c, p);
    forall g | g in w.kept ensures w.confirmers[g].preview != c.preview {}
    forall g | g in w'.confirmers && g != h ensures KeptPhase(w', g) {
      assert Apart(c, w.confirmers[g]) && KeptPhase(w, g);
      assert Owns(c.phase, p) && !Owns(w.confirmers[g].phase, p);
    }
    forall pv | MadeFrom(s', pv) != {} ensures exists g :: Keeps(w', pv, g) {
      if pv == c.preview {
        assert Keeps(w', pv, h);
      } else {
        var g :| Keeps(w, pv, g);
        assert Keeps(w', pv, g);
      }
    }
  }

  lemma InsertedAlone(s: Store, c: Confirmer, p: Id)
    requires p !in s.problems
    ensures var s' := WithProblem(s, p, c);
            p in MadeFrom(s', c.preview) && forall pv :: pv != c.preview ==> MadeFrom(s', pv) == MadeFrom(s, pv)
  {
  }

  /** The delete of one confirmer lands. */
  lemma KeptDelete(w: World, h: nat, p: Id, ph: Phase)
    requires Inv(w) && KeptOk(w) && h in w.confirmers && w.confirmers[h].phase == Compensating(p) && ph.RollingBack?
    ensures KeptOk(Moved(w, h, (Without(w.store, p), ph)))
  {
    hide AtMostOneEach, ConfirmedHeld, Holding;
    var c, s' := w.confirmers[h], Without(w.store, p);
    var w' := Moved(w, h, (s', ph));
    assert PhaseOk(w.store, c) && KeptPhase(w, h);
    DeletedAlone(w.store, c, p);
    forall g | g in w'.kept ensures MadeFrom(s', w'.confirmers[g].preview) != {} {
      assert w.confirmers[g].preview != c.preview;
    }
    forall g | g in w'.confirmers && g != h ensures KeptPhase(w', g) {
      assert Apart(w.confirmers[g], c) && KeptPhase(w, g);
    }
    forall pv | MadeFrom(s', pv) != {} ensures exists g :: Keeps(w', pv, g) {
      var g :| Keeps(w, pv, g);
      assert Keeps(w', pv, g);
    }
  }

  lemma DeletedAlone(s: Store, c: Confirmer, p: Id)
    requires MadeFrom(s, c.preview) <= {p} && (p in s.problems ==> p in MadeFrom(s, c.preview))
    ensures var s' := Without(s, p);
            MadeFrom(s', c.preview) == {} && forall pv :: pv != c.preview ==> MadeFrom(s', pv) == MadeFrom(s, pv)
  {
  }

  /** A move that does not touch the problems. */
  lemma KeptMove(w: World, h: nat, s': Store, ph: Phase)
    requires KeptOk(w) && h in w.confirmers && s'.problems == w.store.problems
    requires w.confirmers[h].phase.Inserting? ==> w.confirmers[h].phase.problem !in w.store.problems
    requires KeptPhase(World(s', w.confirmers[h := w.confirmers[h].(phase := ph)], w.kept), h)
    ensures KeptOk(Moved(w, h, (s', ph)))
  {
    var w' := World(s', w.confirmers[h := w.confirmers[h].(phase := ph)], w.kept);
    assert KeptPhase(w, h);
    assert Moved(w, h, (s', ph)) == w';
    forall g | g in w'.confirmers && g != h ensures KeptPhase(w', g) { assert KeptPhase(w, g); }
    KeptStays(w, w');
  }

  lemma KeptSuccess(w: World, h: nat)
    requires Inv(w) && KeptOk(w) && h in w.confirmers && Active(w.confirmers[h].phase)
             && !w.confirmers[h].phase.Claimed?
    ensures KeptOk(Moved(w, h, Success(w.store, w.confirmers[h])))
  {
    hide MadeFrom, AtMostOneEach, Exclusive, ConfirmedHeld;
    var c := w.confirmers[h];
    assert PhaseOk(w.store, c) && KeptPhase(w, h);
    match c.phase
    case Inserting(p) => KeptInsert(w, h, p, Enqueueing(p));
    case Compensating(p) => KeptDelete(w, h, p, RollingBack(CreationFailed));
    case _ => KeptMove(w, h, Success(w.store, c).0, Success(w.store, c).1);
  }

  lemma KeptFailing(w: World, h: nat, landed: bool)
    requires Inv(w) && KeptOk(w) && h in w.confirmers && Active(w.confirmers[h].phase)
    ensures KeptOk(Moved(w, h, Failing(w.store, w.confirmers[h], landed)))
  {
    hide MadeFrom, AtMostOneEach, Exclusive, ConfirmedHeld;
    var c := w.confirmers[h];
    assert PhaseOk(w.store, c) && KeptPhase(w, h);
    match c.phase
    case Inserting(p) =>
      if landed { KeptInsert(w, h, p, Compensating(p)); } else { KeptMove(w, h, w.store, Compensating(p)); }
    case Compensating(p) =>
      if landed { KeptDelete(w, h, p, RollingBack(CreationFailed)); } else { KeptAttempt(w, h, p); }
    case Enqueueing(p) => MadeIsStored(w.store, c.preview, p); KeptMove(w, h, w.store, Compensating(p));
    case Tagging(p) => MadeIsStored(w.store, c.preview, p); KeptMove(w, h, w.store, Compensating(p));
    case _ => KeptMove(w, h, Failing(w.store, c, landed).0, Failing(w.store, c, landed).1);
  }

  lemma MadeIsStored(s: Store, pv: Id, p: Id)
    requires p in MadeFrom(s, pv)
    ensures p in s.problems
  {
  }

  /** A delete that did not land. */
  lemma KeptAttempt(w: World, h: nat, p: Id)
    requires KeptOk(w) && h in w.confirmers && w.confirmers[h].phase == Compensating(p)
    ensures KeptOk(Moved(w, h, (w.store, RollingBack(CreationFailed))))
  {
    var w' := Moved(w, h, (w.store, RollingBack(CreationFailed)));
    assert KeptPhase(w, h);
    assert w'.kept == w.kept;
    forall g | g in w'.confirmers && g != h ensures KeptPhase(w', g) { assert KeptPhase(w, g); }
    KeptStays(w, w');
  }

  lemma KeptClaim(w: World, h: nat, pv: Id, user: string)
    requires KeptOk(w) && h !in w.confirmers
    ensures KeptOk(Step(w, Confirming(h, pv, user)))
  {
    var w' := Step(w, Confirming(h, pv, user));
    forall g | g in w'.confirmers && g != h ensures KeptPhase(w', g) { assert KeptPhase(w, g); }
    KeptStays(w, w');
  }

  lemma KeptOther(w: World, p: Id, other: Problem)
    requires KeptOk(w) && Unused(w, p) && other.origin.previewId.None?
    ensures KeptOk(w.(store := w.store.(problems := w.store.problems[p := other])))
  {
    var w' := w.(store := w.store.(problems := w.store.problems[p := other]));
    forall pv ensures MadeFrom(w'.store, pv) == MadeFrom(w.store, pv) {}
    forall g | g in w'.confirmers ensures KeptPhase(w', g) {
      assert KeptPhase(w, g) && !Mentions(w.confirmers[g].phase, p);
    }
    forall pv | MadeFrom(w'.store, pv) != {} ensures exists h :: Keeps(w', pv, h) {
      var h :| Keeps(w, pv, h);
      assert Keeps(w', pv, h);
    }
  }

  lemma KeptLookUp(w: World, h: nat, hit: Id, unused: Id)
    requires KeptOk(w) && h in w.confirmers && w.confirmers[h].phase.Claimed?
    ensures KeptOk(Moved(w, h, (w.store, LookedUp(w.store, w.confirmers[h], hit, unused))))
  {
    hide Matching, DraftFailure;
    assert KeptPhase(w, h);
    KeptMove(w, h, w.store, LookedUp(w.store, w.confirmers[h], hit, unused));
  }

  lemma KeptVanish(w: World, h: nat)
    requires Inv(w) && KeptOk(w) && h in w.confirmers && Active(w.confirmers[h].phase)
    ensures KeptOk(Moved(w, h, (w.store, Lost(w.confirmers[h].phase))))
  {
    hide MadeFrom, AtMostOneEach, Exclusive, ConfirmedHeld;
    assert PhaseOk(w.store, w.confirmers[h]) && KeptPhase(w, h);
    KeptMove(w, h, w.store, Lost(w.confirmers[h].phase));
  }

  lemma KeptPreview(w: World, s': Store)
    requires KeptOk(w) && s'.problems == w.store.problems
    ensures KeptOk(w.(store := s'))
  {
    var w' := w.(store := s');
    forall g | g in w'.confirmers ensures KeptPhase(w', g) { assert KeptPhase(w, g); }
    KeptStays(w, w');
  }

  lemma StepKeepsKept(w: World, e: Event)
    requires Inv(w) && KeptOk(w)
    ensures KeptOk(Step(w, e))
  {
    hide Inv, KeptOk, Success, Failing, LookedUp, Unused, Claim, Moved;
    match e
    case NewPreview(pv, made) => KeptPreview(w, Step(w, e).store);
    case PreviewChanges(pv, status, draft) => KeptPreview(w, Step(w, e).store);
    case OtherProblem(p, other) => if Unused(w, p) && other.origin.previewId.None? { KeptOther(w, p, other); }
    case Confirming(h, pv, user) => if h !in w.confirmers { KeptClaim(w, h, pv, user); }
    case LooksUp(h, hit, unused) =>
      if h in w.confirmers && Unused(w, unused) {
        if w.confirmers[h].phase.Claimed? { KeptLookUp(w, h, hit, unused); } else { Unmoved(w, h); }
      }
    case Succeeds(h) =>
      if h in w.confirmers {
        if Active(w.confirmers[h].phase) && !w.confirmers[h].phase.Claimed? {
          KeptSuccess(w, h);
        } else {
          Unmoved(w, h);
        }
      }
    case Fails(h, landed) =>
      if h in w.confirmers {
        if Active(w.confirmers[h].phase) { KeptFailing(w, h, landed); } else { Unmoved(w, h); }
      }
    case Vanishes(h) => if h in w.confirmers && Active(w.confirmers[h].phase) { KeptVanish(w, h); }
  }

  lemma {:induction false} RunKeepsKept(w: World, events: seq<Event>)
    requires Inv(w) && KeptOk(w)
    ensures KeptOk(Run(w, events))
    decreases |events|
  {
    hide Inv, KeptOk, Step;
    if events != [] {
      StepKeeps(w, events[0]);
      StepKeepsKept(w, events[0]);
      RunKeepsKept(Step(w, events[0]), events[1..]);
    }
  }

  /** At every point of every run a problem made from a preview is there exactly when some confirmer of
      it has landed its insert and not its delete. */
  lemma ProblemIffKept(w: World, pv: Id)
    requires Reachable(w)
    ensures MadeFrom(w.store, pv) != {} <==> exists h :: Keeps(w, pv, h)
  {
    hide KeptPhase;
    var events :| w == Run(EMPTY, events);
    RunKeepsKept(EMPTY, events);
  }

  /** A confirmed preview whose confirms have all ended has no problem exactly when every insert for it
      failed to land or was deleted again; one of its confirmers was then lost, before an insert landed or
      after a delete did. In detail: lost before its insert there is none, lost after it there is one,
      and lost elsewhere there is one exactly when somebody kept it. */
  lemma QuietConfirmedLacksItsProblemIff(w: World, pv: Id)
    requires Reachable(w) && pv in w.store.previews && w.store.previews[pv].status.Confirmed?
    requires forall h :: h in w.confirmers && w.confirmers[h].preview == pv ==> !Active(w.confirmers[h].phase)
    ensures MadeFrom(w.store, pv) == {} <==>
              && (forall h :: !Keeps(w, pv, h))
              && (exists h :: Holder(w, pv, h) && w.confirmers[h].phase.Lost? && !AfterInsert(w.confirmers[h].phase.at))
    ensures forall h :: Holder(w, pv, h) && w.confirmers[h].phase.Lost? && AfterInsert(w.confirmers[h].phase.at) ==>
            MadeFrom(w.store, pv) != {}
    ensures forall h :: Holder(w, pv, h) && w.confirmers[h].phase.Lost? && w.confirmers[h].phase.at.Inserting? ==>
            MadeFrom(w.store, pv) == {}
  {
    hide MadeFrom, Exclusive, AtMostOneEach;
    ReachableInv(w);
    ProblemIffKept(w, pv);
    var h :| Holder(w, pv, h);
    assert PhaseOk(w.store, w.confirmers[h]);
    forall g | Holder(w, pv, g) ensures PhaseOk(w.store, w.confirmers[g]) {}
  }

  /** Phases in which the confirmer's problem is there. */
  predicate AfterInsert(at: Phase) {
    at.Found? || at.Enqueueing? || at.Tagging?
  }

  // ---------------------------------------------------------------- previews left behind

  /** Confirmed, with nobody left who could give the preview back. */
  ghost predicate Abandoned(w: World, pv: Id) {
    && pv in w.store.previews && w.store.previews[pv].status.Confirmed?
    && forall h :: h in w.confirmers && w.confirmers[h].preview == pv ==> !Active(w.confirmers[h].phase)
  }

  /** The steps of a confirmer of another preview leave this one and its problems alone. */
  lemma OthersSpare(s: Store, c: Confirmer, pv: Id, landed: bool)
    requires PhaseOk(s, c) && c.preview != pv && pv in s.previews
    ensures MadeFrom(Success(s, c).0, pv) == MadeFrom(s, pv) && pv in Success(s, c).0.previews
            && Success(s, c).0.previews[pv] == s.previews[pv]
    ensures MadeFrom(Failing(s, c, landed).0, pv) == MadeFrom(s, pv) && pv in Failing(s, c, landed).0.previews
            && Failing(s, c, landed).0.previews[pv] == s.previews[pv]
  {
  }

  lemma AbandonedMove(w: World, pv: Id, h: nat, out: (Store, Phase))
    requires Abandoned(w, pv) && h in w.confirmers && w.confirmers[h].preview != pv
    requires pv in out.0.previews && out.0.previews[pv] == w.store.previews[pv]
    ensures Abandoned(Moved(w, h, out), pv)
  {
  }

  lemma AbandonedStep(w: World, pv: Id, e: Event)
    requires Inv(w) && Abandoned(w, pv)
    ensures Abandoned(Step(w, e), pv) && MadeFrom(Step(w, e).store, pv) == MadeFrom(w.store, pv)
  {
    hide Success, Failing, LookedUp, ClaimRefusal, Inv, MadeFrom, Moved, Unused;
    match e
    case OtherProblem(p, other) =>
      if Unused(w, p) && other.origin.previewId.None? { UnusedIsNew(w, p); OtherSpares(w.store, p, other, pv); }
    case LooksUp(h, hit, unused) =>
      if h in w.confirmers && Unused(w, unused) {
        if w.confirmers[h].phase.Claimed? {
          AbandonedMove(w, pv, h, (w.store, LookedUp(w.store, w.confirmers[h], hit, unused)));
          MovedStore(w, h, (w.store, LookedUp(w.store, w.confirmers[h], hit, unused)));
        } else {
          Unmoved(w, h);
        }
      }
    case Succeeds(h) =>
      if h in w.confirmers {
        if Active(w.confirmers[h].phase) && !w.confirmers[h].phase.Claimed? {
          InvHere(w, h);
          OthersSpare(w.store, w.confirmers[h], pv, false);
          AbandonedMove(w, pv, h, Success(w.store, w.confirmers[h]));
          MovedStore(w, h, Success(w.store, w.confirmers[h]));
        } else {
          Unmoved(w, h);
        }
      }
    case Fails(h, landed) =>
      if h in w.confirmers {
        if Active(w.confirmers[h].phase) {
          InvHere(w, h);
          OthersSpare(w.store, w.confirmers[h], pv, landed);
          AbandonedMove(w, pv, h, Failing(w.store, w.confirmers[h], landed));
          MovedStore(w, h, Failing(w.store, w.confirmers[h], landed));
        } else {
          Unmoved(w, h);
        }
      }
    case Vanishes(h) =>
      if h in w.confirmers && Active(w.confirmers[h].phase) {
        AbandonedMove(w, pv, h, (w.store, Lost(w.confirmers[h].phase)));
        MovedStore(w, h, (w.store, Lost(w.confirmers[h].phase)));
      }
    case _ => SameProblemsSameMade(w.store, Step(w, e).store, pv);
  }

  lemma UnusedIsNew(w: World, p: Id)
    requires Unused(w, p)
    ensures p !in w.store.problems
  {
  }

  lemma MovedStore(w: World, h: nat, out: (Store, Phase))
    requires h in w.confirmers
    ensures Moved(w, h, out).store == out.0
  {
  }

  lemma OtherSpares(s: Store, p: Id, other: Problem, pv: Id)
    requires p !in s.problems && other.origin.previewId.None?
    ensures MadeFrom(s.(problems := s.problems[p := other]), pv) == MadeFrom(s, pv)
  {
  }

  lemma SameProblemsSameMade(s: Store, s': Store, pv: Id)
    requires s.problems == s'.problems
    ensures MadeFrom(s, pv) == MadeFrom(s', pv)
  {
  }

  /** A confirmer lost between its claim and its return leaves the preview confirmed for ever with the
      problems it has then: none, when it was lost before the insert. */
  lemma {:induction false} AbandonedForEver(w: World, pv: Id, events: seq<Event>)
    requires Inv(w) && Abandoned(w, pv)
    ensures Abandoned(Run(w, events), pv) && MadeFrom(Run(w, events).store, pv) == MadeFrom(w.store, pv)
    decreases |events|
  {
    hide Inv, Step, Abandoned, MadeFrom;
    if events != [] {
      StepKeeps(w, events[0]);
      AbandonedStep(w, pv, events[0]);
      AbandonedForEver(Step(w, events[0]), pv, events[1..]);
    }
  }

  /** Such runs exist for every preview that can be confirmed: the look-up raises, the claim stays. */
  lemma LostLookUpStrandsPreview(w: World, h: nat, pv: Id, events: seq<Event>)
    requires Reachable(w) && h !in w.confirmers && pv in w.store.previews && Claimable(w.store.previews[pv].status)
    requires MadeFrom(w.store, pv) == {}
    ensures var w' := Run(Step(Step(w, Confirming(h, pv, w.store.previews[pv].owner)), Fails(h, false)), events);
            && pv in w'.store.previews && w'.store.previews[pv].status.Confirmed? && MadeFrom(w'.store, pv) == {}
  {
    hide Run, PhaseOk, Exclusive, AtMostOneEach, ConfirmedHeld;
    ReachableInv(w);
    var e1, e2 := Confirming(h, pv, w.store.previews[pv].owner), Fails(h, false);
    var w1 := Step(w, e1);
    StepKeeps(w, e1);
    StepKeeps(w1, e2);
    assert forall g :: g in w.confirmers && w.confirmers[g].preview == pv ==> !Active(w.confirmers[g].phase);
    AbandonedForEver(Step(w1, e2), pv, events);
  }
}
