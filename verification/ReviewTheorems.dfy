/** What holds at every point of every run of the editor. */
module ReviewTheorems {
  import opened Prelude
  import opened ReviewServer
  import opened ReviewRefs
  import opened ReviewWorld
  import opened ReviewSaves
  import opened ReviewQueue

  ghost predicate Inv(w: World) {
    SaveInv(w) && GenerateInv(w)
  }

  lemma StepKeepsSaves(w: World, e: Event)
    requires SaveInv(w) && Enabled(w, e)
    ensures SaveInv(Step(w, e))
  {
    hide SaveInv;
    match e
    case ServerWrites(op, time, raw) => HistoryGrows(w, op, time, raw);
    case SnapshotArrives(at) => SnapshotHolds(w, at);
    case UserEdits(t, p) => EditHolds(w, t, p);
    case TimerFires(t) => TimerHolds(w, t);
    case ValidationAnswers(t, d, v) => AnswerHolds(w, t, d, v);
    case SaveAccepted(_, _, _, _) => AcceptHolds(w, e);
    case SaveReturns(n, at) => ReturnHolds(w, n, at);
    case SaveFails(n, mismatch) => FailureHolds(w, n, mismatch);
    case GenerateClicked => GenerateFlagsHold(w, Step(w, e));
    case GenerateSettles(_) => GenerateFlagsHold(w, Step(w, e));
    case OtherItemSaves => GenerateFlagsHold(w, Step(w, e));
  }

  lemma GenerateFlagsHold(w: World, w': World)
    requires SaveInv(w)
    requires w'.hist == w.hist && w'.shown == w.shown && w'.calls == w.calls && w'.passed == w.passed
    requires w.nextSeq <= w'.nextSeq && w'.source == w.source && w'.candidate == w.candidate
    requires w'.refs.source == w.refs.source && w'.refs.candidate == w.refs.candidate
    ensures SaveInv(w')
  {
    hide History, Anchored, CallHolds, Tidy, Blank, Live, TargetDraft;
    assert Tracked(w, Source) && Tracked(w, Candidate);
    assert Tracked(w', Source) && Tracked(w', Candidate);
  }

  lemma StepKeepsGenerate(w: World, e: Event)
    requires Inv(w) && Enabled(w, e)
    ensures GenerateInv(Step(w, e))
  {
    hide SaveInv, GenerateInv, Queue, QueueKept, Confirms, Observe, Edit, Timer, Settle, FinishSave, Admits;
    var w' := Step(w, e);
    match e
    case ServerWrites(op, time, raw) => WriteKeepsGenerate(w, w', op, time, raw);
    case SnapshotArrives(at) => QueueHolds(w); QueueUnderSnapshot(w.refs, w.hist[at]); QueueKeptHolds(w, w');
    case UserEdits(t, p) => QueueHolds(w); QueueUnderEdit(w.refs, w.hist[w.shown], t, p); QueueKeptHolds(w, w');
    case TimerFires(t) => QueueHolds(w); QueueUnderTimer(w.refs, t, w.nextSeq); QueueKeptHolds(w, w');
    case ValidationAnswers(t, d, v) =>
      QueueHolds(w);
      QueueUnderAnswer(w.refs, t, d, v, w.nextSeq);
      QueueKeptHolds(w, w');
    case SaveAccepted(n, tags, time, raw) =>
      WriteKeepsGenerate(w, w', RequestWrite(Last(w.hist), w.calls[n].request, tags), time, raw);
    case SaveReturns(n, at) => ReturnKeepsGenerate(w, n, at);
    case SaveFails(n, mismatch) =>
      QueueHolds(w); QueueUnderFailure(w.refs, w.calls[n].request.target, n, mismatch); QueueKeptHolds(w, w');
    case GenerateClicked => ClickKeepsGenerate(w);
    case GenerateSettles(j) => SettleKeepsGenerate(w, j);
    case OtherItemSaves => QueueHolds(w); SameRefsKept(w, w'); QueueKeptHolds(w, w');
  }

  lemma SameRefsKept(w: World, w': World)
    requires Queue(w.refs) && w'.refs == w.refs
    ensures QueueKept(w.refs, w'.refs)
  {
  }

  lemma QueueHolds(w: World)
    requires GenerateInv(w)
    ensures Queue(w.refs)
  {
    hide Confirms;
  }

  lemma WriteKeepsGenerate(w: World, w': World, op: Write, time: int, raw: int)
    requires Inv(w) && Admits(Last(w.hist), op)
    requires w' == w.(hist := w.hist + [Stored(Last(w.hist), op, time, raw)], calls := w'.calls)
    ensures GenerateInv(w')
  {
    hide BuffersHold, CallsHold, GenerateInv, Admits, Stored, History;
    GrowthKeepsGenerate(w, w', Stored(Last(w.hist), op, time, raw));
  }

  lemma SettleKeepsGenerate(w: World, j: nat)
    requires GenerateInv(w) && Enabled(w, GenerateSettles(j))
    ensures GenerateInv(Step(w, GenerateSettles(j)))
  {
    hide MeaningAt, MeaningOfPayload;
  }

  lemma StepKeeps(w: World, e: Event)
    requires Inv(w) && Enabled(w, e)
    ensures Inv(Step(w, e))
  {
    hide SaveInv, GenerateInv, Enabled, Step;
    StepKeepsSaves(w, e);
    StepKeepsGenerate(w, e);
  }

  lemma MountedInv(i: Item)
    requires WellFormed(i)
    ensures Inv(Mounted(i))
  {
    hide SaveInv;
    MountedHolds(i);
    QueueUnderSnapshot(FRESH, i);
  }

  /** Every run keeps the invariant. */
  lemma {:induction false} RunKeeps(w: World, events: seq<Event>)
    requires Inv(w) && Runs(w, events)
    ensures Inv(After(w, events))
    decreases |events|
  {
    hide Inv, Step, Enabled;
    if events != [] {
      StepKeeps(w, events[0]);
      RunKeeps(Step(w, events[0]), events[1..]);
    }
  }

  // ---------------------------------------------------------------- no silent lost update

  /** Replacing target `t` of the stored item destroys nothing but content meaning `seen`. */
  predicate OverwritesOnly(i: Item, t: Target, seen: Meaning) {
    (t.Candidate? && i.candidate.None?) || MeaningAt(i, t) == seen
  }

  /** The last extraction result of another meaning that landed after history point `at`, if there is
      one, means what the user saw. */
  predicate LatestReadingMeans(hist: seq<Item>, at: nat, seen: Meaning) {
    forall e :: at < e < |hist| && hist[e - 1].readings < hist[e].readings == Last(hist).readings
                ==> MeaningAt(hist[e], Source) == seen
  }

  /** The readings counted at the end were reached at some point after `at`, unless nothing was read since. */
  lemma {:induction false} LatestReading(hist: seq<Item>, at: nat, k: nat) returns (e: nat)
    requires History(hist) && at < k < |hist| && hist[at].readings < hist[k].readings == Last(hist).readings
    ensures at < e < |hist| && hist[e - 1].readings < hist[e].readings == Last(hist).readings
    decreases k
  {
    hide WellFormed, SemanticChange;
    assert Later(hist[k - 1], hist[k]);
    if hist[k - 1].readings < hist[k].readings {
      e := k;
    } else {
      e := LatestReading(hist, at, k - 1);
    }
  }

  /** What an admitted source save overwrites means what its base meant, up to the extraction results
      that landed since. */
  lemma SourceOverwritten(hist: seq<Item>, at: nat, seen: Meaning)
    requires History(hist) && at < |hist| && hist[at].revision == Last(hist).revision
             && MeaningAt(hist[at], Source) == seen
    ensures MeaningAt(Last(hist), Source) == seen <==> LatestReadingMeans(hist, at, seen)
  {
    hide Squeeze, SemanticValue, TargetDraft, MeaningOf, SemanticChange, WellFormed, MeaningAt, History;
    var last := |hist| - 1;
    if hist[at].readings == hist[last].readings {
      SameRevisionSameMeaning(hist, at, last, Source);
      forall d | at <= d < |hist| ensures hist[at].readings <= hist[d].readings { NeverFewer(hist, at, d); }
    } else {
      NeverFewer(hist, at, last);
      var e := LatestReading(hist, at, last);
      RevisionBetween(hist, at, e);
      SameRevisionSameMeaning(hist, e, last, Source);
      forall d | at < d < |hist| && hist[d - 1].readings < hist[d].readings == Last(hist).readings
        ensures MeaningAt(hist[d], Source) == MeaningAt(hist[last], Source)
      {
        RevisionBetween(hist, at, d);
        SameRevisionSameMeaning(hist, d, last, Source);
      }
    }
  }

  lemma NeverFewer(hist: seq<Item>, j: nat, k: nat)
    requires History(hist) && j <= k < |hist|
    ensures hist[j].readings <= hist[k].readings
  {
    hide WellFormed, SemanticChange;
    assert Later(hist[j], hist[k]);
  }

  lemma RevisionBetween(hist: seq<Item>, j: nat, k: nat)
    requires History(hist) && j <= k < |hist| && hist[j].revision == Last(hist).revision
    ensures hist[k].revision == Last(hist).revision
  {
    hide WellFormed, SemanticChange;
    assert Later(hist[j], hist[k]) && Later(hist[k], hist[|hist| - 1]);
  }

  /** What an admitted candidate save overwrites means what its base meant: a requested variant is
      never extracted again. */
  lemma CandidateOverwritten(hist: seq<Item>, at: nat)
    requires History(hist) && at < |hist| && hist[at].revision == Last(hist).revision && Live(hist[at], Candidate)
    requires CandidateEditable(Last(hist).status) && Last(hist).candidate.Some?
    ensures MeaningAt(Last(hist), Candidate) == MeaningAt(hist[at], Candidate)
  {
    hide Squeeze, SemanticValue, TargetDraft, MeaningOf, SemanticChange;
    assert Later(hist[at], hist[|hist| - 1]);
    SameRevisionSameMeaning(hist, at, |hist| - 1, Candidate);
  }

  /** What the server would overwrite by admitting this save means what the editor showed when the
      pinned edit began, or when the pin was last moved by an acknowledged save. */
  lemma AdmittedSaveOverwritesItsBase(w: World, n: nat, tags: seq<string>)
    requires SaveInv(w) && n in w.calls && w.calls[n].pin.sound
    requires Admits(Last(w.hist), RequestWrite(Last(w.hist), w.calls[n].request, tags))
    ensures OverwritesOnly(Last(w.hist), w.calls[n].request.target, w.calls[n].pin.origin)
            <==> (w.calls[n].request.target.Source? ==>
                  LatestReadingMeans(w.hist, w.calls[n].pin.at, w.calls[n].pin.origin))
  {
    hide Squeeze, SemanticValue, TargetDraft, MeaningOf, SemanticChange, WellFormed, Later, BuffersHold, MeaningAt,
         LatestReadingMeans, History;
    var c := w.calls[n];
    assert CallHolds(w.hist, c);
    if c.request.target.Source? {
      SourceOverwritten(w.hist, c.pin.at, c.pin.origin);
    } else if Last(w.hist).candidate.Some? {
      CandidateOverwritten(w.hist, c.pin.at);
    }
  }

  /** Some run of the editor, mounted on some stored item, leads to this world. */
  ghost predicate Reachable(w: World) {
    exists i, events :: WellFormed(i) && Runs(Mounted(i), events) && w == After(Mounted(i), events)
  }

  lemma ReachableInv(w: World)
    requires Reachable(w)
    ensures Inv(w) && SaveInv(w) && GenerateInv(w)
  {
    hide SaveInv, GenerateInv, Mounted, WellFormed, After, Runs;
    var i, events :| WellFormed(i) && Runs(Mounted(i), events) && w == After(Mounted(i), events);
    MountedInv(i);
    RunKeeps(Mounted(i), events);
  }

  /** The server, as it stands, admits the save request `n`, whether or not it already did once. */
  predicate WouldAdmit(w: World, n: nat, tags: seq<string>) {
    && |w.hist| > 0 && n in w.calls
    && Admits(Last(w.hist), RequestWrite(Last(w.hist), w.calls[n].request, tags))
  }

  /** Every state of the item the request's revision may stand for, with the present extraction result
      behind it, means what its user saw. */
  predicate RevisionMeans(hist: seq<Item>, revision: nat, t: Target, seen: Meaning) {
    forall k | 0 <= k < |hist| && hist[k].revision == revision && hist[k].readings == Last(hist).readings
               && Live(hist[k], t) :: MeaningAt(hist[k], t) == seen
  }

  /** Sound pin or not: an admitted save overwrites only what its user has seen exactly when the revision
      it names means that. */
  lemma SaveLosesNothingIff(w: World, n: nat, tags: seq<string>)
    requires Reachable(w) && WouldAdmit(w, n, tags)
    ensures OverwritesOnly(Last(w.hist), w.calls[n].request.target, w.calls[n].pin.origin)
            <==> RevisionMeans(w.hist, w.calls[n].request.revision, w.calls[n].request.target, w.calls[n].pin.origin)
  {
    hide Squeeze, SemanticValue, TargetDraft, MeaningOf, SemanticChange, BuffersHold, CallsHold, Reachable, MeaningAt,
         Later;
    ReachableInv(w);
    var c, last := w.calls[n], |w.hist| - 1;
    var t := c.request.target;
    AdmittedRevision(w, n, tags);
    if Live(w.hist[last], t) {
      forall k | 0 <= k < |w.hist| && w.hist[k].revision == c.request.revision
        && w.hist[k].readings == w.hist[last].readings && Live(w.hist[k], t)
        ensures MeaningAt(w.hist[k], t) == MeaningAt(w.hist[last], t)
      {
        SameRevisionSameMeaning(w.hist, k, last, t);
      }
    } else {
      forall k | 0 <= k < |w.hist| && w.hist[k].revision == c.request.revision ensures !Live(w.hist[k], t) {
        SameRevisionSameLife(w.hist, k, t);
      }
    }
  }

  lemma AdmittedRevision(w: World, n: nat, tags: seq<string>)
    requires WouldAdmit(w, n, tags)
    ensures Last(w.hist).revision == w.calls[n].request.revision
    ensures w.calls[n].request.target.Candidate? ==> CandidateEditable(Last(w.hist).status)
  {
    hide Stored;
  }

  lemma SameRevisionSameLife(hist: seq<Item>, k: nat, t: Target)
    requires History(hist) && k < |hist| && hist[k].revision == Last(hist).revision && !Live(Last(hist), t)
    ensures !Live(hist[k], t)
  {
    hide SemanticChange;
    assert Later(hist[k], hist[|hist| - 1]);
  }

  /** Main result: in every interleaving of edits, reordered snapshots, own saves of either buffer, other
      writers and extraction results, a save with a sound pin overwrites nothing its user has not seen,
      unless it is a source save and an extraction result of another meaning landed since the pin. */
  lemma NoSilentLostUpdate(w: World, n: nat, tags: seq<string>)
    requires Reachable(w) && WouldAdmit(w, n, tags) && w.calls[n].pin.sound
    ensures OverwritesOnly(Last(w.hist), w.calls[n].request.target, w.calls[n].pin.origin)
            <==> (w.calls[n].request.target.Source? ==>
                  LatestReadingMeans(w.hist, w.calls[n].pin.at, w.calls[n].pin.origin))
  {
    hide SaveInv, GenerateInv, Inv, Reachable, Admits, RequestWrite, OverwritesOnly, LatestReadingMeans;
    ReachableInv(w);
    AdmittedSaveOverwritesItsBase(w, n, tags);
  }

  /** A pin is made, and moved, only where the editor's own data show that it is safe. */
  predicate Careful(w: World, e: Event) {
    |w.hist| > 0 && w.shown < |w.hist| &&
    match e
    case UserEdits(t, p) =>
      Locked(w.refs, t, p) || w.refs.Get(SaveTarget(t, p)).base.Some? 
      || SafeToPin(w.refs.Get(SaveTarget(t, p)), Shown(w.refs, w.hist[w.shown], SaveTarget(t, p)), SaveTarget(t, p))
    case SaveReturns(n, at) =>
      n in w.calls && at < |w.hist| &&
      var t := w.calls[n].request.target;
      (Owned(w.refs, t, n, w.hist[at])
       && SiblingConcerned(w.refs, t.Sibling(), Some(w.hist[at]))
       && SiblingUntouched(w.refs, t.Sibling(), w.refs.Get(t).inFlight.value, w.hist[at])
       && w.refs.Get(t.Sibling()).base.value.revision != w.hist[at].revision
       ==> SafeToRebase(w.Trace(t).evidence, t, w.refs.Get(t).inFlight.value, w.hist[at]))
    case _ => true
  }

  predicate CarefulRun(w: World, events: seq<Event>)
    requires Runs(w, events)
    decreases |events|
  {
    events == [] || (Careful(w, events[0]) && CarefulRun(Step(w, events[0]), events[1..]))
  }

  predicate AllSound(w: World) {
    && (w.refs.source.base.Some? ==> w.source.pin.sound)
    && (w.refs.candidate.base.Some? ==> w.candidate.pin.sound)
    && (forall n :: n in w.calls ==> w.calls[n].pin.sound)
  }

  lemma LaunchKeepsSound(w: World, t: Target, out: (Refs, Option<Request>))
    requires AllSound(w) && (out.1.Some? ==> w.refs.Get(t).base.Some?)
    requires out.0.source.base == w.refs.source.base && out.0.candidate.base == w.refs.candidate.base
    ensures AllSound(Launch(w, t, out))
  {
  }

  lemma BasesUnderSnapshot(r: Refs, i: Item)
    ensures var r' := Observe(r, i, false);
            && (r'.source.base == r.source.base || r'.source.base.None?)
            && (r'.candidate.base == r.candidate.base || r'.candidate.base.None?)
  {
    hide Observe, ObserveBuffer, MarkedBuffer;
    ObserveShape(r, i);
    BaseUnderSnapshot(r.source, r.candidate.inFlight.Some?, r.pendingTags, i, Source);
    BaseUnderSnapshot(r.candidate, r.source.inFlight.Some?, r.pendingTags, i, Candidate);
  }

  lemma BaseUnderSnapshot(b: Buffer, saving: bool, tags: Option<seq<string>>, i: Item, t: Target)
    ensures var (b1, m) := ObserveBuffer(b, saving, tags, i, t, false);
            MarkedBuffer(b1, m).base == b.base || MarkedBuffer(b1, m).base.None?
  {
    hide TargetDraft, IsStale, PredatesAck, HasState, Missing, Overtaken, Regenerated, Guarded;
  }

  lemma CarefulReturn(w: World, n: nat, at: nat)
    requires SaveInv(w) && AllSound(w) && Enabled(w, SaveReturns(n, at)) && Careful(w, SaveReturns(n, at))
    ensures AllSound(Step(w, SaveReturns(n, at)))
  {
    hide FinishSave, Disowned, SiblingUntouched, SafeToRebase, TargetDraft, MeaningOf, SaveInv, SavedStamp;
    var t := w.calls[n].request.target;
    if Owned(w.refs, t, n, w.hist[at]) {
      ReturnShape(w.refs, t, n, w.hist[at]);
    } else {
      UnownedReturnShape(w.refs, t, n, w.hist[at]);
    }
  }

  lemma CarefulEdit(w: World, t: Target, p: Patch)
    requires SaveInv(w) && AllSound(w) && Enabled(w, UserEdits(t, p)) && Careful(w, UserEdits(t, p))
    ensures AllSound(Step(w, UserEdits(t, p)))
  {
    hide TargetDraft, MeaningOf, CallsHold, SafeToPin, Anchored, History, TargetStamp;
  }

  lemma CarefulStep(w: World, e: Event)
    requires SaveInv(w) && AllSound(w) && Enabled(w, e) && Careful(w, e)
    ensures AllSound(Step(w, e))
  {
    hide Observe, FinishSave, Timer, Settle, ClickGenerate, TargetDraft, MeaningOf, Admits, Stored, Anchored, CallsHold,
         SiblingConcerned, SiblingUntouched, SafeToRebase, Disowned, History, RequestWrite, Ignores, Return, Edit,
         SafeToPin, SafeToGenerate;
    match e
    case UserEdits(t, p) => CarefulEdit(w, t, p);
    case SnapshotArrives(at) => BasesUnderSnapshot(w.refs, w.hist[at]);
    case TimerFires(t) =>
      TimerShape(w.refs, t, w.nextSeq);
      LaunchKeepsSound(w, t, Timer(w.refs, t, w.nextSeq));
    case ValidationAnswers(t, d, v) =>
      AnswerShape(w.refs, t, d, v, w.nextSeq);
      var w0 := w.(passed := if v.Valid? then w.passed + {d.graphDsl} else w.passed);
      LaunchKeepsSound(w0, t, Settle(w.refs, t, d, v, w.nextSeq));
    case SaveReturns(n, at) => CarefulReturn(w, n, at);
    case SaveFails(n, mismatch) => FailureShape(w.refs, w.calls[n].request.target, n, mismatch);
    case GenerateClicked => ClickKeepsBuffers(w.refs, w.hist[w.shown]);
    case _ =>
  }

  lemma ClickKeepsBuffers(r: Refs, i: Item)
    ensures var r' := ClickGenerate(r, i).0; r'.source == r.source && r'.candidate == r.candidate
  {
    hide TargetDraft;
  }

  lemma {:induction false} CarefulRunIsSound(w: World, events: seq<Event>)
    requires Inv(w) && AllSound(w) && Runs(w, events) && CarefulRun(w, events)
    ensures AllSound(After(w, events)) && Inv(After(w, events))
    decreases |events|
  {
    hide Inv, Step, Enabled, AllSound, Careful;
    if events != [] {
      InvIsSaveInv(w);
      CarefulStep(w, events[0]);
      StepKeeps(w, events[0]);
      CarefulRunIsSound(Step(w, events[0]), events[1..]);
    }
  }

  lemma InvIsSaveInv(w: World)
    requires Inv(w)
    ensures SaveInv(w)
  {
  }

  lemma MountedIsSound(i: Item)
    ensures AllSound(Mounted(i))
  {
    hide Observe, TargetDraft, MeaningOf;
    BasesUnderSnapshot(FRESH, i);
  }

  lemma CallIsSound(w: World, n: nat)
    requires AllSound(w) && n in w.calls
    ensures w.calls[n].pin.sound
  {
  }

  ghost predicate ReachableCarefully(w: World) {
    exists i, events :: WellFormed(i) && Runs(Mounted(i), events) && CarefulRun(Mounted(i), events)
                        && w == After(Mounted(i), events)
  }

  /** In a careful run no save at all, of either buffer, can silently overwrite another writer; only an
      extraction result since the pin can be lost. */
  lemma CarefulRunsLoseNothing(w: World, n: nat, tags: seq<string>)
    requires ReachableCarefully(w) && WouldAdmit(w, n, tags)
    ensures OverwritesOnly(Last(w.hist), w.calls[n].request.target, w.calls[n].pin.origin)
            <==> (w.calls[n].request.target.Source? ==>
                  LatestReadingMeans(w.hist, w.calls[n].pin.at, w.calls[n].pin.origin))
  {
    hide SaveInv, GenerateInv, Inv, Mounted, WellFormed, After, Runs, CarefulRun, Admits, RequestWrite, OverwritesOnly,
         AllSound, LatestReadingMeans;
    var i, events :| WellFormed(i) && Runs(Mounted(i), events) && CarefulRun(Mounted(i), events)
                     && w == After(Mounted(i), events);
    MountedInv(i);
    MountedIsSound(i);
    CarefulRunIsSound(Mounted(i), events);
    CallIsSound(w, n);
    InvIsSaveInv(w);
    AdmittedSaveOverwritesItsBase(w, n, tags);
  }
}
