/** Further laws of the editor: what cleans a buffer, what can touch local text, what cancels a
    queued Generate, and the order in which server versions take effect. */
module ReviewLaws {
  import opened Prelude
  import opened ReviewServer
  import opened ReviewRefs
  import opened ReviewWorld
  import opened ReviewSaves
  import opened ReviewQueue
  import opened ReviewTheorems

  // ---------------------------------------------------------------- becoming clean

  /** A dirty buffer becomes clean by a save exactly when the response is the current one, owns up
      to the sent draft and finds it still in the buffer. */
  lemma CleanBySavingIff(r: Refs, t: Target, n: nat, o: Outcome)
    requires r.Get(t).dirty
    ensures var b := r.Get(t);
            !FinishSave(r, t, n, o).0.Get(t).dirty <==>
              && o.Saved? && b.inFlight.Some? && b.inFlight.value.seqNo == n
              && !Disowned(b, t, b.inFlight.value, o.item)
              && LandedWhole(r, t, b.inFlight.value.sent)
  {
    hide TargetDraft, IsStale, Disowned, SavedStamp, SiblingUntouched, SiblingConcerned, Acknowledge, LandedWhole,
         MarkConflict;
    var b := r.Get(t);
    if b.inFlight.Some? {
      var save, saved := b.inFlight.value, SavedItem(o);
      var r0 := r.Put(t, b.(inFlight := None));
      ConflictKeepsDirty(r0, t);
      ConflictKeepsDirty(CancelGenerate(r0, t), t);
      AcknowledgeKeepsText(r, t, save, saved);
    }
  }

  lemma ConflictKeepsDirty(r: Refs, t: Target)
    ensures MarkConflict(r, t).Get(t).dirty == r.Get(t).dirty
  {
  }

  lemma AcknowledgeKeepsText(r: Refs, t: Target, save: Save, saved: Option<Item>)
    ensures var r' := Acknowledge(r.Put(t, r.Get(t).(inFlight := None)), t, save, saved);
            && r'.Get(t).dirty == r.Get(t).dirty && r'.Get(t).draft == r.Get(t).draft
            && (LandedWhole(r', t, save.sent) <==> LandedWhole(r, t, save.sent))
  {
    hide TargetDraft, IsStale, SavedStamp, SiblingUntouched, SiblingConcerned;
  }

  /** With an item in the response, that means: the item shows exactly the sent draft, one revision
      ahead at most, in the same generation, and the local draft is still the sent one. */
  lemma CleanMeansConfirmed(r: Refs, t: Target, n: nat, i: Item)
    requires r.Get(t).dirty && !FinishSave(r, t, n, Saved(Some(i))).0.Get(t).dirty
    ensures var b, save := r.Get(t), r.Get(t).inFlight.value;
            && b.inFlight.Some? && save.seqNo == n
            && TargetDraft(i, t) == save.sent
            && i.revision <= save.revision + 1
            && GenerationOf(i, t) == save.generation
            && !i.lifecycle.Deleted?
            && b.draft.Some?
            && (b.draft.value == save.sent
                || (t.Candidate? && r.pendingTags.Some? && b.draft.value.(tags := save.sent.tags) == save.sent))
  {
    hide TargetDraft, IsStale, SavedStamp, SiblingUntouched, FinishSave;
    CleanBySavingIff(r, t, n, Saved(Some(i)));
  }

  /** A response without an item confirms nothing, yet cleans the buffer under the same local tests. */
  lemma EmptyResponseCleans(r: Refs, t: Target, n: nat)
    requires r.Get(t).dirty && r.Get(t).inFlight.Some? && r.Get(t).inFlight.value.seqNo == n
    requires LandedWhole(r, t, r.Get(t).inFlight.value.sent)
    ensures !FinishSave(r, t, n, Saved(None)).0.Get(t).dirty <==>
              (r.Get(t).stamp.Some? ==>
                 && r.Get(t).stamp.value.revision <= r.Get(t).inFlight.value.revision
                 && r.Get(t).stamp.value.generation == r.Get(t).inFlight.value.generation)
  {
    hide TargetDraft, IsStale, SavedStamp, SiblingUntouched, FinishSave;
    CleanBySavingIff(r, t, n, Saved(None));
  }

  /** The response to the save this buffer waits for, owning up to it. */
  predicate Lands(w: World, e: Event, t: Target) {
    e.SaveReturns? && e.seqNo in w.calls && e.at < |w.hist|
    && w.calls[e.seqNo].request.target == t && Owned(w.refs, t, e.seqNo, w.hist[e.at])
    && LandedWhole(w.refs, t, w.refs.Get(t).inFlight.value.sent)
  }

  /** Whatever happens, a dirty buffer becomes clean in two ways only: by the owned response to the save
      it waits for, when its draft is the one that was sent, or by a snapshot that ends its life; and
      that response always cleans it. */
  lemma OnlyLandingCleans(w: World, e: Event, t: Target)
    requires Enabled(w, e) && w.refs.Get(t).dirty
    ensures Step(w, e).refs.Get(t).dirty ==> !Lands(w, e, t)
    ensures !Step(w, e).refs.Get(t).dirty ==> Lands(w, e, t) || Ends(w, e, t)
  {
    hide Observe, FinishSave, Timer, Settle, TargetDraft, Admits, Stored, Ends, Return, SeenAfter, RequestWrite,
         SafeToGenerate, SafeToPin, MeaningOf, Edit, Shown, Disowned, LandedWhole;
    match e
    case SnapshotArrives(at) => if !Ends(w, e, t) { SnapshotKeepsDirty(w, at, t); }
    case UserEdits(x, p) => EditKeepsDirty(w.refs, w.hist[w.shown], x, p, t);
    case TimerFires(x) => TimerShape(w.refs, x, w.nextSeq);
    case ValidationAnswers(x, d, v) => AnswerShape(w.refs, x, d, v, w.nextSeq);
    case SaveReturns(n, at) =>
      ReturnRefs(w, n, at);
      ReturnCleans(w.refs, w.calls[n].request.target, n, w.hist[at], t);
    case SaveFails(n, mismatch) => FailureShape(w.refs, w.calls[n].request.target, n, mismatch);
    case _ =>
  }

  lemma SnapshotKeepsDirty(w: World, at: nat, t: Target)
    requires at < |w.hist| && w.refs.Get(t).dirty && !Ends(w, SnapshotArrives(at), t)
    ensures Observe(w.refs, w.hist[at], false).Get(t).dirty
  {
    hide Observe, ObserveBuffer, MarkedBuffer, TargetDraft, Ignores, Missing, Regenerated;
    ObserveShape(w.refs, w.hist[at]);
    SnapshotSparesGuarded(w.refs.Get(t), w.refs.Get(t.Sibling()).inFlight.Some?, w.refs.pendingTags, w.hist[at], t);
  }

  lemma EditKeepsDirty(r: Refs, i: Item, x: Target, p: Patch, t: Target)
    ensures r.Get(t).dirty ==> Edit(r, i, x, p).Get(t).dirty
  {
    hide TargetDraft, TargetStamp;
  }

  lemma ReturnCleans(r: Refs, x: Target, n: nat, i: Item, t: Target)
    requires r.Get(t).dirty
    ensures !FinishSave(r, x, n, Saved(Some(i))).0.Get(t).dirty
            <==> x == t && Owned(r, t, n, i) && LandedWhole(r, t, r.Get(t).inFlight.value.sent)
  {
    hide TargetDraft, Disowned, FinishSave, LandedWhole, SiblingConcerned, SiblingUntouched;
    if x == t {
      CleanBySavingIff(r, t, n, Saved(Some(i)));
    } else if Owned(r, x, n, i) {
      ReturnShape(r, x, n, i);
    } else {
      UnownedReturnShape(r, x, n, i);
    }
  }

  // ---------------------------------------------------------------- local text

  /** A snapshot that ends the life of a buffer: its target is gone, or its candidate was regenerated. */
  predicate Ends(w: World, e: Event, t: Target) {
    e.SnapshotArrives? && e.at < |w.hist| &&
    var b, i := w.refs.Get(t), w.hist[e.at];
    !Ignores(b, i, t) && (Missing(i, t, false) || Regenerated(b, i, t))
  }

  lemma SnapshotSparesGuarded(b: Buffer, saving: bool, tags: Option<seq<string>>, i: Item, t: Target)
    requires Guarded(b)
    requires Ignores(b, i, t) || (!Missing(i, t, false) && !Regenerated(b, i, t))
    ensures var (b1, m) := ObserveBuffer(b, saving, tags, i, t, false);
            var b' := MarkedBuffer(b1, m);
            b'.draft == b.draft && b'.dirty == b.dirty && (b.conflict ==> b'.conflict)
  {
    hide TargetDraft, IsStale, PredatesAck, HasState, Overtaken;
  }

  lemma ReturnSparesDraft(r: Refs, t: Target, n: nat, o: Outcome, x: Target)
    requires o.Saved? ==> o.item.Some?
    ensures var r' := FinishSave(r, t, n, o).0;
            r'.Get(x).draft == r.Get(x).draft && (r.Get(x).conflict ==> r'.Get(x).conflict)
  {
    hide TargetDraft, IsStale, Disowned, SavedStamp, SiblingUntouched, FinishSave, SiblingConcerned;
    assert x == t || x == t.Sibling();
    if o.Refused? {
      FailureShape(r, t, n, o.mismatch);
    } else if Owned(r, t, n, o.item.value) {
      ReturnShape(r, t, n, o.item.value);
    } else {
      UnownedReturnShape(r, t, n, o.item.value);
    }
  }

  lemma ReturnRefs(w: World, n: nat, at: nat)
    requires n in w.calls && at < |w.hist|
    ensures Return(w, n, at).refs == FinishSave(w.refs, w.calls[n].request.target, n, Saved(Some(w.hist[at]))).0
  {
    hide FinishSave, Disowned, SiblingConcerned, SiblingUntouched, SafeToRebase, MeaningOf, TargetDraft;
  }

  lemma EditKeepsConflict(r: Refs, i: Item, x: Target, p: Patch, t: Target)
    ensures Edit(r, i, x, p).Get(t).conflict == r.Get(t).conflict
  {
    hide TargetDraft, TargetStamp;
  }

  lemma SnapshotSparesText(w: World, at: nat, t: Target)
    requires at < |w.hist| && Guarded(w.refs.Get(t)) && !Ends(w, SnapshotArrives(at), t)
    ensures var r' := Observe(w.refs, w.hist[at], false);
            r'.Get(t).draft == w.refs.Get(t).draft && (w.refs.Get(t).conflict ==> r'.Get(t).conflict)
  {
    hide Observe, ObserveBuffer, MarkedBuffer, TargetDraft, Ignores, Missing, Regenerated;
    ObserveShape(w.refs, w.hist[at]);
    var saving := w.refs.Get(t.Sibling()).inFlight.Some?;
    SnapshotSparesGuarded(w.refs.Get(t), saving, w.refs.pendingTags, w.hist[at], t);
  }

  /** Nothing but the user replaces the text of a dirty, saving, failed or conflicted buffer, until
      its target disappears or its candidate is regenerated; and a conflict lasts as long. */
  lemma LocalTextSurvives(w: World, e: Event, t: Target)
    requires Enabled(w, e) && Guarded(w.refs.Get(t)) && !Ends(w, e, t)
    ensures !e.UserEdits? ==> Step(w, e).refs.Get(t).draft == w.refs.Get(t).draft
    ensures w.refs.Get(t).conflict ==> Step(w, e).refs.Get(t).conflict
  {
    hide Observe, FinishSave, Timer, Settle, TargetDraft, Admits, Stored, Ends, Guarded, Return, SeenAfter,
         RequestWrite, SafeToGenerate, SafeToPin, MeaningOf, Edit, Shown;
    match e
    case SnapshotArrives(at) => SnapshotSparesText(w, at, t);
    case UserEdits(x, p) => EditKeepsConflict(w.refs, w.hist[w.shown], x, p, t);
    case TimerFires(x) => TimerShape(w.refs, x, w.nextSeq);
    case ValidationAnswers(x, d, v) => AnswerShape(w.refs, x, d, v, w.nextSeq);
    case SaveReturns(n, at) =>
      ReturnRefs(w, n, at);
      ReturnSparesDraft(w.refs, w.calls[n].request.target, n, Saved(Some(w.hist[at])), t);
    case SaveFails(n, mismatch) => ReturnSparesDraft(w.refs, w.calls[n].request.target, n, Refused(mismatch), t);
    case _ =>
  }

  /** A conflicted buffer sends no save. */
  lemma ConflictSendsNothing(w: World, e: Event, n: nat)
    requires Enabled(w, e) && n in Step(w, e).calls && n !in w.calls
    ensures !w.refs.Get(Step(w, e).calls[n].request.target).conflict
  {
    hide Observe, FinishSave, Timer, Settle, TargetDraft, Admits, Stored, RequestWrite, SafeToRebase, MeaningOf,
         Disowned, SiblingConcerned, SiblingUntouched;
    match e
    case TimerFires(x) => TimerShape(w.refs, x, w.nextSeq);
    case ValidationAnswers(x, d, v) => AnswerShape(w.refs, x, d, v, w.nextSeq);
    case _ =>
  }

  predicate Undisturbed(w: World, events: seq<Event>, t: Target)
    requires Runs(w, events)
    decreases |events|
  {
    events == [] || (!Ends(w, events[0], t) && !events[0].UserEdits? && Undisturbed(Step(w, events[0]), events[1..], t))
  }

  /** Over a whole run: a conflicted buffer keeps its text and its conflict while nobody edits it
      and its target lives, whatever polls, saves and other writers do. */
  lemma {:induction false} ConflictedTextSurvivesRuns(w: World, events: seq<Event>, t: Target)
    requires Runs(w, events) && Undisturbed(w, events, t) && w.refs.Get(t).conflict
    ensures After(w, events).refs.Get(t).conflict
    ensures After(w, events).refs.Get(t).draft == w.refs.Get(t).draft
    decreases |events|
  {
    hide Step, Enabled, Ends;
    if events != [] {
      LocalTextSurvives(w, events[0], t);
      ConflictedTextSurvivesRuns(Step(w, events[0]), events[1..], t);
    }
  }

  // ---------------------------------------------------------------- versions only move forward

  predicate NotOlder(a: Stamp, b: Stamp) {
    && a.revision <= b.revision && a.generation <= b.generation
    && (a.time < b.time || (a.time == b.time && a.raw <= b.raw))
  }

  lemma StampUnderSnapshot(b: Buffer, saving: bool, tags: Option<seq<string>>, i: Item, t: Target)
    requires b.stamp.Some?
    ensures var (b1, m) := ObserveBuffer(b, saving, tags, i, t, false);
            MarkedBuffer(b1, m).stamp.Some? && NotOlder(b.stamp.value, MarkedBuffer(b1, m).stamp.value)
  {
    hide TargetDraft, PredatesAck, HasState, Overtaken;
  }

  lemma StampUnderReturn(r: Refs, t: Target, n: nat, i: Item, x: Target)
    requires r.Get(x).stamp.Some?
    ensures var r' := FinishSave(r, t, n, Saved(Some(i))).0;
            r'.Get(x).stamp.Some? && NotOlder(r.Get(x).stamp.value, r'.Get(x).stamp.value)
  {
    hide TargetDraft, FinishSave, SiblingConcerned;
    assert x == t || x == t.Sibling();
    if Owned(r, t, n, i) {
      ReturnShape(r, t, n, i);
    } else {
      UnownedReturnShape(r, t, n, i);
    }
  }

  lemma EditKeepsStamp(r: Refs, i: Item, t: Target, p: Patch, x: Target)
    ensures Edit(r, i, t, p).Get(x).stamp == r.Get(x).stamp
  {
    hide TargetDraft;
  }

  lemma NotOlderThanItself(a: Stamp)
    ensures NotOlder(a, a)
  {
  }

  /** No event, acknowledgement or sibling rebase ever takes a buffer back to an older version. */
  lemma StampsNeverDecrease(w: World, e: Event, t: Target)
    requires Enabled(w, e) && w.refs.Get(t).stamp.Some?
    ensures Step(w, e).refs.Get(t).stamp.Some?
    ensures NotOlder(w.refs.Get(t).stamp.value, Step(w, e).refs.Get(t).stamp.value)
  {
    hide Observe, ObserveBuffer, MarkedBuffer, FinishSave, Timer, Settle, TargetDraft, Admits, Stored, Ignores, Missing,
         RequestWrite, Disowned, SiblingConcerned, SiblingUntouched, SafeToRebase, MeaningOf, NotOlder, Edit,
         ClickGenerate, SafeToGenerate, SafeToPin, PayloadOf;
    NotOlderThanItself(w.refs.Get(t).stamp.value);
    match e
    case SnapshotArrives(at) =>
      ObserveShape(w.refs, w.hist[at]);
      StampUnderSnapshot(w.refs.Get(t), w.refs.Get(t.Sibling()).inFlight.Some?, w.refs.pendingTags, w.hist[at], t);
    case UserEdits(x, p) => EditKeepsStamp(w.refs, w.hist[w.shown], x, p, t);
    case GenerateClicked => ClickKeepsBuffers(w.refs, w.hist[w.shown]);
    case TimerFires(x) => TimerShape(w.refs, x, w.nextSeq);
    case ValidationAnswers(x, d, v) => AnswerShape(w.refs, x, d, v, w.nextSeq);
    case SaveReturns(n, at) => StampUnderReturn(w.refs, w.calls[n].request.target, n, w.hist[at], t);
    case SaveFails(n, mismatch) => FailureShape(w.refs, w.calls[n].request.target, n, mismatch);
    case _ =>
  }

  lemma {:induction false} StampsNeverDecreaseOverRuns(w: World, events: seq<Event>, t: Target)
    requires Runs(w, events) && w.refs.Get(t).stamp.Some?
    ensures After(w, events).refs.Get(t).stamp.Some?
    ensures NotOlder(w.refs.Get(t).stamp.value, After(w, events).refs.Get(t).stamp.value)
    decreases |events|
  {
    hide Step, Enabled;
    if events != [] {
      StampsNeverDecrease(w, events[0], t);
      StampsNeverDecreaseOverRuns(Step(w, events[0]), events[1..], t);
    }
  }

  /** Call `n` is the save its buffer is waiting for. */
  predicate Current(w: World, n: nat)
    requires n in w.calls
  {
    var f := w.refs.Get(w.calls[n].request.target).inFlight;
    f.Some? && f.value.seqNo == n
  }

  /** A success or failure of a save that no buffer is waiting for. */
  predicate AnswersOther(w: World, e: Event) {
    (e.SaveReturns? || e.SaveFails?) && e.seqNo in w.calls && Enabled(w, e) && !Current(w, e.seqNo)
  }

  predicate NoTrace(w: World, e: Event) {
    Enabled(w, e) && Step(w, e) == w
  }

  lemma OtherAnswerLeavesNoTrace(w: World, e: Event)
    requires AnswersOther(w, e)
    ensures NoTrace(w, e)
  {
    hide TargetDraft, Disowned, SiblingUntouched, SiblingConcerned, Acknowledge, MeaningOf, MarkConflict,
         CancelGenerate;
  }

  /** At most one tracked save per item, whose number is a known call; a success or failure of any other
      call changes nothing. */
  lemma OneSaveAtATime(w: World)
    requires Reachable(w)
    ensures !(w.refs.source.inFlight.Some? && w.refs.candidate.inFlight.Some?)
    ensures forall t :: w.refs.Get(t).inFlight.Some? ==>
              w.refs.Get(t).inFlight.value.seqNo in w.calls
              && w.calls[w.refs.Get(t).inFlight.value.seqNo].request.target == t
    ensures forall e :: AnswersOther(w, e) ==> NoTrace(w, e)
  {
    hide Reachable, GenerateInv, Inv, Anchored, History, Tidy, CallHolds, TargetDraft, Live, AnswersOther, NoTrace;
    ReachableInv(w);
    assert Tracked(w, Source) && Tracked(w, Candidate);
    forall e | AnswersOther(w, e) ensures NoTrace(w, e) { OtherAnswerLeavesNoTrace(w, e); }
  }

  /** No save ever leaves with a graph that was not blank and not found valid exactly as sent. */
  lemma OnlyValidatedGraphsAreSaved(w: World, n: nat)
    requires Reachable(w) && n in w.calls
    ensures Blank(w.calls[n].request.draft.graphDsl) || w.calls[n].request.draft.graphDsl in w.passed
  {
    hide Reachable, GenerateInv, Inv, BuffersHold, History, CallHolds, Blank, Tracked;
    ReachableInv(w);
  }

  // ---------------------------------------------------------------- queued Generate

  /** Each click sends at most one Generate, carrying the payload reviewed at that click; while one
      is queued its source is dirty, still holds that payload, and nothing else is out. */
  lemma GenerateFollowsClicks(w: World)
    requires Reachable(w)
    ensures forall j :: 0 <= j < |w.sent| ==>
              w.sent[j].click < |w.clicks| && w.sent[j].fire.payload == w.clicks[w.sent[j].click]
    ensures forall j, k :: 0 <= j < k < |w.sent| ==> w.sent[j].click < w.sent[k].click
    ensures w.refs.pendingGenerate.Some? ==>
              && |w.clicks| > 0 && w.refs.pendingGenerate.value == w.clicks[|w.clicks| - 1]
              && (forall j :: 0 <= j < |w.sent| ==> w.sent[j].click < |w.clicks| - 1 && w.sent[j].settled)
              && w.refs.source.dirty && w.refs.source.draft.Some?
              && PayloadOf(w.refs.source.draft.value) == w.refs.pendingGenerate.value
  {
    hide Reachable, SaveInv, Inv, Confirms;
    ReachableInv(w);
  }

  /** A Generate that the server can still admit confirms a source meaning exactly its payload, up to
      the extraction results that landed since: always when it was queued behind a save, and when sent
      directly under `SafeToGenerate`, which is what `sound` records. */
  lemma GenerateConfirmsReviewedSource(w: World, j: nat)
    requires Reachable(w) && j < |w.sent| && w.sent[j].sound
    requires |w.hist| > 0 && Last(w.hist).revision == w.sent[j].fire.revision
    ensures MeaningAt(Last(w.hist), Source) == MeaningOfPayload(w.sent[j].fire.payload)
            <==> LatestReadingMeans(w.hist, w.sent[j].at, MeaningOfPayload(w.sent[j].fire.payload))
  {
    hide Reachable, BuffersHold, CallsHold, History, MeaningAt, MeaningOfPayload, LatestReadingMeans;
    ReachableInv(w);
    assert Confirms(w.hist, w.sent[j]);
    SourceOverwritten(w.hist, w.sent[j].at, MeaningOfPayload(w.sent[j].fire.payload));
  }

  /** What was sent stays sent, whatever follows. */
  lemma StepKeepsSent(w: World, e: Event, j: nat)
    requires Enabled(w, e) && j < |w.sent|
    ensures j < |Step(w, e).sent| && Step(w, e).sent[j].(settled := false) == w.sent[j].(settled := false)
  {
    hide Observe, FinishSave, Timer, Settle, Edit, ClickGenerate, TargetDraft, Admits, Stored, RequestWrite, MeaningOf,
         Disowned, SiblingConcerned, SiblingUntouched, PayloadOf, Ignores, SafeToGenerate, SafeToPin, RebasedPin;
  }

  lemma {:induction false} RunKeepsSent(w: World, events: seq<Event>, j: nat)
    requires Runs(w, events) && j < |w.sent|
    ensures j < |After(w, events).sent| && After(w, events).sent[j].(settled := false) == w.sent[j].(settled := false)
    decreases |events|
  {
    hide Step, Enabled;
    if events != [] {
      StepKeepsSent(w, events[0], j);
      RunKeepsSent(Step(w, events[0]), events[1..], j);
    }
  }

  /** A Generate that a save response fires confirms its payload: after any further run, as long as the
      server can still admit it, the stored source means the payload up to the extraction results that
      landed since the item of the response. */
  lemma QueuedGenerateConfirms(w: World, n: nat, at: nat, events: seq<Event>)
    requires Reachable(w) && Enabled(w, SaveReturns(n, at)) && |Step(w, SaveReturns(n, at)).sent| > |w.sent|
    requires Runs(Step(w, SaveReturns(n, at)), events)
    ensures var fire, w' := Step(w, SaveReturns(n, at)).sent[|w.sent|].fire, After(Step(w, SaveReturns(n, at)), events);
            && |w'.hist| > 0
            && (Last(w'.hist).revision == fire.revision ==>
                  (MeaningAt(Last(w'.hist), Source) == MeaningOfPayload(fire.payload)
                   <==> LatestReadingMeans(w'.hist, at, MeaningOfPayload(fire.payload))))
  {
    hide Reachable, BuffersHold, CallsHold, History, MeaningAt, MeaningOfPayload, LatestReadingMeans, Step, Runs, After,
         Enabled;
    ReachableInv(w);
    var w1 := Step(w, SaveReturns(n, at));
    var w' := After(w1, events);
    StepKeeps(w, SaveReturns(n, at));
    RunKeeps(w1, events);
    FiredByResponse(w, n, at);
    RunKeepsSent(w1, events, |w.sent|);
    var g := w'.sent[|w.sent|];
    assert Confirms(w'.hist, g);
    if Last(w'.hist).revision == g.fire.revision {
      SourceOverwritten(w'.hist, g.at, MeaningOfPayload(g.fire.payload));
    }
  }

  lemma FiredByResponse(w: World, n: nat, at: nat)
    requires Enabled(w, SaveReturns(n, at)) && |Step(w, SaveReturns(n, at)).sent| > |w.sent|
    ensures var g := Step(w, SaveReturns(n, at)).sent[|w.sent|]; g.at == at && g.sound
  {
    hide FinishSave, TargetDraft, MeaningOf, Disowned, SiblingConcerned, SiblingUntouched, RebasedPin;
  }

  /** A Generate sent straight from a click, sound or not: whenever the server can still admit it and no
      extraction result landed since, it confirms the stored source exactly when the draft on screen
      meant, at the click, what the snapshot on screen said. */
  lemma DirectGenerateConfirmsIff(hist: seq<Item>, shown: nat, r: Refs)
    requires History(hist) && shown < |hist| && ClickGenerate(r, hist[shown]).1.Some?
    requires Last(hist).revision == ClickGenerate(r, hist[shown]).1.value.revision
    requires Last(hist).readings == hist[shown].readings
    ensures MeaningAt(Last(hist), Source) == MeaningOfPayload(ClickGenerate(r, hist[shown]).1.value.payload)
            <==> SafeToGenerate(r, hist[shown])
  {
    hide MeaningOf, MeaningOfPayload, MeaningAt, PayloadOf, Shown, History;
    SameRevisionSameMeaning(hist, shown, |hist| - 1, Source);
    PayloadMeaning(Shown(r, hist[shown], Source));
  }

  /** Something went wrong with the source, or it stopped being dirty. */
  predicate Unsettled(b: Buffer, b': Buffer) {
    (b'.conflict && !b.conflict) || b'.failures > b.failures || (b'.rejected && !b.rejected) || (b.dirty && !b'.dirty)
  }

  lemma SnapshotCancels(r: Refs, i: Item)
    requires Queue(r) && Unsettled(r.source, Observe(r, i, false).source)
    ensures Observe(r, i, false).pendingGenerate.None?
  {
    hide TargetDraft, IsStale, PredatesAck, Overtaken, HasState;
  }

  lemma AnswerCancels(r: Refs, t: Target, d: Draft, v: Validation, n: nat)
    requires Queue(r)
    ensures Unsettled(r.source, Settle(r, t, d, v, n).0.source) ==> Settle(r, t, d, v, n).0.pendingGenerate.None?
  {
    hide Blank;
  }

  lemma TimerIsQuiet(r: Refs, t: Target, n: nat)
    ensures !Unsettled(r.source, Timer(r, t, n).0.source)
  {
    hide Blank;
  }

  lemma EditIsQuiet(r: Refs, i: Item, t: Target, p: Patch)
    ensures !Unsettled(r.source, Edit(r, i, t, p).source)
  {
    hide TargetDraft;
  }

  lemma ReturnCancels(r: Refs, t: Target, n: nat, i: Item)
    requires Queue(r) && Unsettled(r.source, FinishSave(r, t, n, Saved(Some(i))).0.source)
    ensures FinishSave(r, t, n, Saved(Some(i))).0.pendingGenerate.None?
  {
    hide TargetDraft, IsStale, SiblingUntouched, SavedStamp, SiblingConcerned, Disowned, PayloadOf;
  }

  lemma FailureCancels(r: Refs, t: Target, n: nat, mismatch: bool)
    requires Queue(r) && Unsettled(r.source, FinishSave(r, t, n, Refused(mismatch)).0.source)
    ensures FinishSave(r, t, n, Refused(mismatch)).0.pendingGenerate.None?
  {
    hide TargetDraft, IsStale, Disowned, Acknowledge;
  }

  /** A conflict, a rejected or unavailable validation, a failed save or a reset of the source leaves
      no Generate queued. */
  lemma TroubleCancelsGenerate(w: World, e: Event)
    requires GenerateInv(w) && Enabled(w, e) && Unsettled(w.refs.source, Step(w, e).refs.source)
    ensures Step(w, e).refs.pendingGenerate.None?
  {
    hide Observe, FinishSave, Timer, Settle, Edit, TargetDraft, Admits, Stored, RequestWrite, SafeToRebase, MeaningOf,
         Disowned, SiblingConcerned, SiblingUntouched, Confirms, PayloadOf, Ignores, Queue;
    QueueHolds(w);
    match e
    case SnapshotArrives(at) => SnapshotCancels(w.refs, w.hist[at]);
    case UserEdits(t, p) => EditIsQuiet(w.refs, w.hist[w.shown], t, p);
    case TimerFires(t) => TimerIsQuiet(w.refs, t, w.nextSeq);
    case ValidationAnswers(t, d, v) => AnswerCancels(w.refs, t, d, v, w.nextSeq);
    case SaveReturns(n, at) => ReturnCancels(w.refs, w.calls[n].request.target, n, w.hist[at]);
    case SaveFails(n, mismatch) => FailureCancels(w.refs, w.calls[n].request.target, n, mismatch);
    case _ =>
  }
}
