/** The queued Generate: what it waits for, what cancels it and what it confirms. */
module ReviewQueue {
  import opened Prelude
  import opened ReviewServer
  import opened ReviewRefs
  import opened ReviewWorld
  import opened ReviewSaves

  /** A queued Generate sits on a dirty source whose content is still the confirmed one. */
  predicate Queue(r: Refs) {
    r.pendingGenerate.Some? ==>
      r.generating && r.source.dirty && r.source.draft.Some?
      && PayloadOf(r.source.draft.value) == r.pendingGenerate.value
  }

  /** The queue is untouched, or it is cancelled and the source unlocked. */
  predicate QueueKept(r: Refs, r': Refs) {
    && Queue(r')
    && ((r'.pendingGenerate == r.pendingGenerate && r'.generating == r.generating)
        || (r.pendingGenerate.Some? && r'.pendingGenerate.None? && !r'.generating))
  }

  lemma QueueUnderSnapshot(r: Refs, i: Item)
    requires Queue(r)
    ensures QueueKept(r, Observe(r, i, false))
  {
    hide TargetDraft, IsStale, PredatesAck;
  }

  lemma QueueUnderEdit(r: Refs, i: Item, t: Target, p: Patch)
    requires Queue(r)
    ensures QueueKept(r, Edit(r, i, t, p))
  {
    hide TargetDraft;
  }

  lemma QueueUnderTimer(r: Refs, t: Target, n: nat)
    requires Queue(r)
    ensures QueueKept(r, Timer(r, t, n).0)
  {
    hide Blank;
  }

  lemma QueueUnderAnswer(r: Refs, t: Target, d: Draft, v: Validation, n: nat)
    requires Queue(r)
    ensures QueueKept(r, Settle(r, t, d, v, n).0)
  {
  }

  lemma QueueUnderFailure(r: Refs, t: Target, n: nat, mismatch: bool)
    requires Queue(r)
    ensures QueueKept(r, FinishSave(r, t, n, Refused(mismatch)).0)
  {
    hide TargetDraft, IsStale, Disowned, Acknowledge;
  }

  lemma QueueUnderAcknowledge(r: Refs, t: Target, save: Save, i: Item)
    requires Queue(r)
    ensures var r' := Acknowledge(r, t, save, Some(i));
            QueueKept(r, r') && (r.source.dirty ==> r'.source.dirty) && r'.Get(t).draft == r.Get(t).draft
  {
    hide TargetDraft, IsStale, SiblingUntouched, SavedStamp;
  }

  /** A landed save fires the Generate queued on it: with the confirmed payload, which is the sent
      draft's, at the revision the server returned for exactly that draft. */
  lemma QueueUnderReturn(r: Refs, t: Target, n: nat, i: Item)
    requires Queue(r)
    ensures var (r', fire) := FinishSave(r, t, n, Saved(Some(i)));
            if fire.None? then QueueKept(r, r')
            else
              && r.pendingGenerate == Some(fire.value.payload)
              && r' == r'.(pendingGenerate := None, generating := r.generating)
              && fire.value.revision == i.revision
              && TargetDraft(i, Source) == r.source.draft.value
              && PayloadOf(TargetDraft(i, Source)) == fire.value.payload
  {
    hide TargetDraft, IsStale, SiblingUntouched, SavedStamp, Acknowledge;
    var b := r.Get(t);
    if Owned(r, t, n, i) {
      var save := b.inFlight.value;
      var r0 := r.Put(t, b.(inFlight := None));
      QueueUnderAcknowledge(r0, t, save, i);
    } else {
      UnownedReturnShape(r, t, n, i);
    }
  }

  /** The Generate was sent at a revision of the history, and if sound for what that point means. */
  ghost predicate Confirms(hist: seq<Item>, g: Generation) {
    && g.at < |hist| && hist[g.at].revision == g.fire.revision
    && (g.sound ==> MeaningAt(hist[g.at], Source) == MeaningOfPayload(g.fire.payload))
  }

  ghost predicate GenerateInv(w: World) {
    && |w.hist| > 0
    && Queue(w.refs)
    && (w.refs.pendingGenerate.Some? ==>
          && |w.clicks| > 0 && w.clicks[|w.clicks| - 1] == w.refs.pendingGenerate.value
          && (forall j :: 0 <= j < |w.sent| ==> w.sent[j].click < |w.clicks| - 1))
    && (forall j :: 0 <= j < |w.sent| ==>
          && w.sent[j].click < |w.clicks|
          && w.sent[j].fire.payload == w.clicks[w.sent[j].click]
          && Confirms(w.hist, w.sent[j])
          && (!w.sent[j].settled ==> j == |w.sent| - 1 && w.refs.generating && w.refs.pendingGenerate.None?))
    && (forall j, k :: 0 <= j < k < |w.sent| ==> w.sent[j].click < w.sent[k].click)
    && (w.refs.generating ==> w.refs.pendingGenerate.Some? || (|w.sent| > 0 && !w.sent[|w.sent| - 1].settled))
  }

  lemma QueueKeptHolds(w: World, w': World)
    requires GenerateInv(w) && QueueKept(w.refs, w'.refs)
    requires w'.hist == w.hist && w'.clicks == w.clicks && w'.sent == w.sent
    ensures GenerateInv(w')
  {
    hide Queue, Confirms;
    assert Queue(w'.refs);
  }

  lemma PayloadMeaning(d: Draft)
    ensures MeaningOfPayload(PayloadOf(d)) == MeaningOf(d, Source)
  {
    hide Squeeze, SemanticValue;
  }

  lemma GrowthKeepsGenerate(w: World, w': World, next: Item)
    requires GenerateInv(w) && w' == w.(hist := w.hist + [next], calls := w'.calls)
    ensures GenerateInv(w')
  {
    hide Queue, MeaningAt, MeaningOfPayload;
    forall j | 0 <= j < |w.sent| ensures Confirms(w'.hist, w.sent[j]) {
      assert w'.hist[w.sent[j].at] == w.hist[w.sent[j].at];
    }
  }

  lemma ClickKeepsGenerate(w: World)
    requires SaveInv(w) && GenerateInv(w)
    ensures GenerateInv(Step(w, GenerateClicked))
  {
    hide Squeeze, SemanticValue, TargetDraft, MeaningOf, History, CallsHold, BuffersHold, PayloadOf, MeaningOfPayload;
    var w' := Step(w, GenerateClicked);
    PayloadMeaning(Shown(w.refs, w.hist[w.shown], Source));
    DirtyHasDraft(w);
    if !w.refs.generating && w.refs.pendingGenerate.None? {
      assert w'.clicks == w.clicks + [PayloadOf(Shown(w.refs, w.hist[w.shown], Source))];
    }
  }

  lemma DirtyHasDraft(w: World)
    requires BuffersHold(w)
    ensures w.refs.source.dirty ==> w.refs.source.draft.Some?
    ensures w.refs.source.inFlight.Some? ==> w.refs.source.dirty
  {
    hide Anchored;
  }

  lemma ReturnKeepsGenerate(w: World, seqNo: nat, at: nat)
    requires SaveInv(w) && GenerateInv(w) && Enabled(w, SaveReturns(seqNo, at))
    ensures GenerateInv(Step(w, SaveReturns(seqNo, at)))
  {
    hide Squeeze, SemanticValue, TargetDraft, MeaningOf, History, CallsHold, BuffersHold, PayloadOf, FinishSave,
         Disowned, SiblingUntouched, SiblingConcerned, SafeToRebase, MeaningOfPayload;
    var t := w.calls[seqNo].request.target;
    var i := w.hist[at];
    var (r', fire) := FinishSave(w.refs, t, seqNo, Saved(Some(i)));
    var w' := Step(w, SaveReturns(seqNo, at));
    assert w'.refs == r' && w'.hist == w.hist && w'.clicks == w.clicks;
    QueueUnderReturn(w.refs, t, seqNo, i);
    if fire.None? {
      assert w'.sent == w.sent;
      QueueKeptHolds(w, w');
    } else {
      PayloadMeaning(TargetDraft(i, Source));
      assert w'.sent == w.sent + [Generation(|w.clicks| - 1, fire.value, at, true, false)];
    }
  }
}
