/** What the buffers, requests and stored items hold, field by field: edits and saves lose no field and
    mix none up, and snapshots reach a quiet buffer. */
module ReviewContents {
  import opened Prelude
  import opened ReviewServer
  import opened ReviewRefs
  import opened ReviewWorld
  import opened ReviewSaves

  // ---------------------------------------------------------------- an edit

  /** In every world an edit does to the item on screen what the patch says, and nothing else happens. */
  lemma EditReachesBuffer(w: World, t: Target, p: Patch)
    requires w.shown < |w.hist|
    ensures var w' := Step(w, UserEdits(t, p));
            && EditMeans(w.refs, w'.refs, w.hist[w.shown], t, p)
            && w'.hist == w.hist && w'.calls == w.calls && w'.sent == w.sent && w'.shown == w.shown
  {
    hide EditMeans, TargetDraft, MeaningOf, SafeToPin;
    EditTakesPatch(w.refs, w.hist[w.shown], t, p);
    EditShape(w, t, p);
  }

  // ---------------------------------------------------------------- a request

  lemma BlankIff(g: string)
    ensures Blank(g) <==> forall c :: c in g ==> ScriptSpace(c)
  {
    if forall c :: c in g ==> ScriptSpace(c) {
      assert forall k :: 0 <= k < |g| ==> g[k] in g;
    }
  }

  /** The timer sends exactly when the buffer has an edit to save whose graph is blank and nothing is in
      its way; what it sends is the whole draft, against the pinned revision. */
  lemma TimerSendsIff(r: Refs, t: Target, n: nat)
    ensures var b, q := r.Get(t), Timer(r, t, n).1;
            && (q.Some? <==>
                  && b.dirty && b.draft.Some? && (forall c :: c in b.draft.value.graphDsl ==> ScriptSpace(c))
                  && !b.conflict && !b.rejected && !b.validating
                  && r.source.inFlight.None? && r.candidate.inFlight.None?)
            && (q.Some? ==>
                  && q.value.target == t && q.value.seqNo == n && Some(q.value.draft) == b.draft
                  && (b.base.Some? ==> q.value.revision == b.base.value.revision)
                  && (b.base.None? && b.stamp.Some? ==> q.value.revision == b.stamp.value.revision))
  {
    if r.Get(t).draft.Some? {
      BlankIff(r.Get(t).draft.value.graphDsl);
    }
  }

  /** A draft found valid is sent in the same way, as it was validated, if it is still the one shown. */
  lemma ValidDraftIsSentIff(r: Refs, t: Target, sent: Draft, v: Validation, n: nat)
    ensures var b, q := r.Get(t), Settle(r, t, sent, v, n).1;
            && (q.Some? <==>
                  && v == Valid && b.draft == Some(sent) && b.dirty && !b.conflict
                  && r.source.inFlight.None? && r.candidate.inFlight.None?)
            && (q.Some? ==>
                  && q.value.target == t && q.value.seqNo == n && q.value.draft == sent
                  && (b.base.Some? ==> q.value.revision == b.base.value.revision))
    ensures var b, b' := r.Get(t), Settle(r, t, sent, v, n).0.Get(t);
            b.draft == Some(sent) ==>
              && (v == Invalid ==> b'.rejected && b'.failures == b.failures)
              && (v == Unavailable ==> b'.rejected == b.rejected && b'.failures == b.failures + 1)
              && (v == Valid ==> !b'.rejected && b'.failures == b.failures)
  {
  }

  // ---------------------------------------------------------------- a stored item

  lemma NoneForEmpty(s: string)
    ensures NullIfEmpty(s).GetOr("") == s
  {
  }

  /** Whatever draft a save carries is what its buffer shows of the item then stored, with the tags the
      server made of those sent; a candidate has no subject of its own. */
  lemma SavedDraftIsShown(i: Item, q: Request, tags: seq<string>, time: int, raw: int)
    requires Admits(i, RequestWrite(i, q, tags))
    ensures var shown, d := TargetDraft(Stored(i, RequestWrite(i, q, tags), time, raw), q.target), q.draft;
            && shown.text == d.text && shown.problemType == d.problemType && shown.graphDsl == d.graphDsl
            && shown.correctAnswer == d.correctAnswer && shown.tags == tags
            && shown.subject == (if q.target.Source? then d.subject
                                 else if i.original.Some? && i.original.value.subject.Some? then
                                   i.original.value.subject.value
                                 else if i.content.subject.Some? then i.content.subject.value else "math")
  {
    hide SemanticChange;
    NoneForEmpty(q.draft.graphDsl);
  }

  /** A save leaves the other target as it is, apart from the tags both show; a source save of another
      meaning withdraws the candidate, which was made for the source as it was. */
  lemma SaveSparesOther(i: Item, q: Request, tags: seq<string>, time: int, raw: int)
    requires Admits(i, RequestWrite(i, q, tags))
    ensures var j := Stored(i, RequestWrite(i, q, tags), time, raw);
            && (q.target.Candidate? ==> j.content == i.content && j.original == i.original)
            && (q.target.Source? ==>
                  if MeaningAt(j, Source) == MeaningAt(i, Source)
                    && !SemanticChange(Some(i.content), Some(j.content)) then
                    j.candidate == i.candidate && j.original == i.original && j.status == i.status
                  else j.candidate.None? && j.original.None? && j.status.NotRequested?)
            && j.tags == tags && j.generation == i.generation && j.lifecycle == i.lifecycle
            && j.time == time && j.raw == raw
  {
    hide Squeeze, SemanticValue, MeaningOf, TargetDraft;
    var j := Stored(i, RequestWrite(i, q, tags), time, raw);
    if q.target.Source? && !SemanticChange(Some(i.content), Some(j.content)) {
      SameContentSameMeaning(i, j);
    }
  }

  /** What an item without a field shows in its place. */
  lemma AbsentFieldsShow(i: Item, t: Target)
    ensures var c, d := if t.Candidate? && i.candidate.Some? then i.candidate.value else i.content, TargetDraft(i, t);
            && (c.text.None? ==> d.text == "") && (c.graphDsl.None? ==> d.graphDsl == "")
            && (c.correctAnswer.None? ==> d.correctAnswer == "")
            && (c.problemType.None? ==> d.problemType == "short-answer")
            && (t.Source? && c.subject.None? ==> d.subject == "math")
  {
  }

  // ---------------------------------------------------------------- the workers' round

  /** A Generate that is admitted confirms the reviewed source and starts a new generation; claimed and
      checkpointed, it ends with the produced candidate, in the state the validation gave it, one
      revision on: the workers move neither revision nor generation. */
  lemma GenerationRound(i: Item, o: Content, c: Content, outcome: VariationStatus)
    requires Admits(i, RequestGeneration(i.revision, o)) && outcome in {Ready, Failed, NeedsValidation}
    ensures var j := Written(i, RequestGeneration(i.revision, o));
            && j.content == o && j.original == Some(o) && j.candidate.None? && j.tags == i.tags
            && j.revision == i.revision + 1 && j.generation == i.generation + 1
            && Admits(j, Claim) && !Admits(j, RequestGeneration(j.revision, o))
            && !Admits(j, WriteCandidate(j.revision, c, None))
            && var k := Written(j, Claim);
               && Admits(k, Checkpoint(c)) && !Admits(k, WriteCandidate(k.revision, c, None))
               && var l := Written(k, Checkpoint(c));
                  && Admits(l, Verdict(outcome)) && !Admits(l, Checkpoint(c))
                  && Written(l, Verdict(outcome)) == j.(candidate := Some(c), status := outcome)
  {
  }

  /** An edited candidate goes back to a worker, which keeps it and gives it a new verdict, or is attested
      by the teacher at once; either way it stays as edited. */
  lemma RevalidationRound(i: Item, outcome: VariationStatus)
    requires i.lifecycle.Editable? && i.status == NeedsValidation && i.candidate.Some?
    requires outcome in {Ready, Failed, NeedsValidation}
    ensures Admits(i, Attest(i.revision)) && Written(i, Attest(i.revision)) == i.(status := Ready)
    ensures Admits(i, Revalidate(i.revision))
            && var j := Written(i, Revalidate(i.revision));
               && Admits(j, Claim) && !Admits(j, Revalidate(j.revision)) && !Admits(j, Attest(j.revision))
               && var k := Written(j, Claim);
                  && !Admits(k, Checkpoint(i.candidate.value)) && Admits(k, Verdict(outcome))
                  && Written(k, Verdict(outcome)) == i.(status := outcome)
  {
  }

  /** A deleted item takes nothing but its restoration, which gives it back as it was with work under way
      queued again; a submitted one takes nothing any more. */
  lemma LeavingTheBatch(i: Item, w: Write)
    requires i.lifecycle.Editable?
    ensures var d, s := Written(i, Delete), Written(i, Submit);
            && (Admits(d, w) ==> w == Undelete || w == Touch)
            && Admits(d, Undelete)
            && Written(d, Undelete)
               == i.(status := if i.status in {Queued, Generating, Validating} then Queued else i.status)
            && (Admits(s, w) ==> w == Touch && Written(s, w) == s)
            && s.content == i.content && s.candidate == i.candidate && s.tags == i.tags && s.revision == i.revision
  {
  }

  // ---------------------------------------------------------------- a snapshot

  /** A buffer with nothing of its own follows every snapshot that is not older than the last in clock,
      revision or generation, and no other. */
  lemma QuietBufferFollows(b: Buffer, i: Item, t: Target)
    requires b.stamp.Some? && b.ack.None? && b.draft == b.server && b.server.Some?
    requires !b.dirty && b.base.None? && b.inFlight.None? && !b.conflict && b.failures == 0
    requires i.lifecycle.Editable? && (t.Candidate? ==> i.candidate.Some?)
             && (t.Source? ==> b.stamp.value.generation == 0)
    ensures var s, (b1, m) := b.stamp.value, ObserveBuffer(b, false, None, i, t, false);
            var b' := MarkedBuffer(b1, m);
            var current := && (i.time > s.time || (i.time == s.time && i.raw >= s.raw)) && i.revision >= s.revision
                           && (t.Candidate? ==> i.generation >= s.generation);
            if current then
              && b'.draft == Some(TargetDraft(i, t)) == b'.server && b'.stamp.Some?
              && b'.stamp.value.revision == i.revision
              && b'.stamp.value.time == i.time && b'.stamp.value.raw == i.raw && !b'.dirty && !b'.conflict
            else b' == b
  {
    hide TargetDraft;
  }

  /** A buffer with an edit to save, while no save of the item is out, keeps its draft whatever current
      snapshot arrives of its generation, and falls into conflict exactly when that shows another
      revision or another draft than the edit was made on. */
  lemma EditedBufferConflictsIff(b: Buffer, i: Item, t: Target)
    requires b.dirty && b.base.Some? && b.draft.Some? && b.inFlight.None? && !b.conflict && b.server.Some?
             && b.ack.None?
    requires i.lifecycle.Editable? && (t.Candidate? ==> i.candidate.Some?)
    requires b.stamp.Some? && i.revision >= b.stamp.value.revision && i.time > b.stamp.value.time
    requires (if t.Candidate? then i.generation else 0) == b.stamp.value.generation == b.base.value.generation
    ensures var (b1, m) := ObserveBuffer(b, false, None, i, t, false);
            var b' := MarkedBuffer(b1, m);
            && b'.draft == b.draft && b'.dirty && b'.base == b.base
            && (b'.conflict <==> i.revision != b.base.value.revision || b.server != Some(TargetDraft(i, t)))
  {
    hide TargetDraft;
  }

  /** While a save of either buffer of the item is out, no snapshot of the generation puts an edited
      buffer in conflict: the response decides. */
  lemma SnapshotWhileSavingKeeps(b: Buffer, siblingSaving: bool, i: Item, t: Target)
    requires b.dirty && b.base.Some? && b.draft.Some? && !b.conflict && (siblingSaving || b.inFlight.Some?)
    requires i.lifecycle.Editable? && (t.Candidate? ==> i.candidate.Some?)
    requires b.stamp.Some? && (t.Candidate? ==> i.generation == b.stamp.value.generation)
    ensures var (b1, m) := ObserveBuffer(b, siblingSaving, None, i, t, false);
            var b' := MarkedBuffer(b1, m);
            b'.draft == b.draft && b'.dirty && b'.base == b.base && b'.inFlight == b.inFlight && !b'.conflict
  {
    hide TargetDraft;
  }

  /** Deletion, and for a candidate its withdrawal, empties a buffer; regeneration replaces all it held. */
  lemma EndedBufferIsEmpty(b: Buffer, saving: bool, i: Item, t: Target)
    requires b.stamp.Some? && b.ack.None? && i.time > b.stamp.value.time && i.revision >= b.stamp.value.revision
    requires (if t.Candidate? then i.generation else 0) >= b.stamp.value.generation
    ensures var (b1, m) := ObserveBuffer(b, saving, None, i, t, false);
            var b' := MarkedBuffer(b1, m);
            && (i.lifecycle.Deleted? || (t.Candidate? && i.candidate.None?) ==>
                  && b'.draft.None? && b'.server.None? && !b'.dirty && b'.base.None? && b'.inFlight.None?
                  && !b'.conflict && b'.failures == 0)
            && (!i.lifecycle.Deleted? && t.Candidate? && i.candidate.Some?
                && i.generation > b.stamp.value.generation ==>
                  && b'.draft == Some(TargetDraft(i, t)) == b'.server && !b'.dirty && b'.base.None? && b'.inFlight.None?
                  && !b'.conflict && b'.failures == 0)
  {
    hide TargetDraft;
  }

  // ---------------------------------------------------------------- a response

  /** A save that fails leaves the draft and the pin: a revision mismatch is a conflict, anything else
      counts as a failure. */
  lemma FailedSaveKeepsDraft(r: Refs, t: Target, n: nat, mismatch: bool)
    requires r.Get(t).inFlight.Some? && r.Get(t).inFlight.value.seqNo == n && r.Get(t).stamp.Some? && !r.Get(t).conflict
    requires var save, s := r.Get(t).inFlight.value, r.Get(t).stamp.value;
             s.revision == save.revision && s.generation == save.generation
    ensures var b, r' := r.Get(t), FinishSave(r, t, n, Refused(mismatch)).0;
            r'.Get(t) == if mismatch then b.(inFlight := None, conflict := true)
                         else b.(inFlight := None, failures := b.failures + 1)
  {
  }

  /** The response to a save that nothing has overtaken leaves the buffer at the version it shows: its
      revision, its clock reading, what was sent as the server's draft and no failures; edits made since
      stay, pinned to that version. */
  lemma OwnResponseAdopts(r: Refs, t: Target, n: nat, i: Item)
    requires var b := r.Get(t);
             && b.inFlight.Some? && b.inFlight.value.seqNo == n && b.stamp.Some? && b.dirty && b.draft.Some?
             && !b.conflict
             && b.stamp.value.revision == b.inFlight.value.revision
             && b.stamp.value.generation == b.inFlight.value.generation
    requires var b := r.Get(t);
             && i.lifecycle.Editable? && i.time > b.stamp.value.time
             && i.revision in {b.stamp.value.revision, b.stamp.value.revision + 1}
             && GenerationOf(i, t) == b.stamp.value.generation && TargetDraft(i, t) == b.inFlight.value.sent
    requires r.pendingTags.None?
    ensures var b, b' := r.Get(t), FinishSave(r, t, n, Saved(Some(i))).0.Get(t);
            && b'.stamp == Some(Stamp(i.revision, b.stamp.value.generation, i.time, i.raw))
            && b'.server == Some(b.inFlight.value.sent) && b'.failures == 0 && b'.inFlight.None? && !b'.conflict
            && b'.draft == b.draft && b'.ack == Some(Ack(b.inFlight.value.sent, b.server))
            && (if b.draft == Some(b.inFlight.value.sent) then !b'.dirty && b'.base.None?
                else b'.dirty && b'.base == b'.stamp)
  {
    hide TargetDraft, SiblingUntouched, MarkConflict, Rebase;
    var b := r.Get(t);
    assert IsStale(b.stamp.value, Some(TargetStamp(i, t)));
    assert !Disowned(b, t, b.inFlight.value, Some(i));
    var r0 := r.Put(t, b.(inFlight := None));
    SiblingSpared(r0, t, b.inFlight.value, i);
  }

  /** Whatever happens to the sibling, the saved buffer is acknowledged. */
  lemma SiblingSpared(r: Refs, t: Target, save: Save, i: Item)
    requires r.Get(t).stamp.Some? && !IsStale(TargetStamp(i, t), r.Get(t).stamp)
    ensures var b, b' := r.Get(t), Acknowledge(r, t, save, Some(i)).Get(t);
            b' == b.(base := Some(TargetStamp(i, t)), stamp := Some(TargetStamp(i, t)),
                     ack := Some(Ack(save.sent, b.server)),
                     server := Some(save.sent), failures := 0)
    ensures r.pendingTags.None? ==> Acknowledge(r, t, save, Some(i)).pendingTags.None?
  {
    hide TargetDraft, SiblingUntouched, IsStale, TargetStamp;
  }

  /** After a save has landed, a snapshot that still shows what was there before, under the very stamp
      the save was acknowledged with, does not bring it back. */
  lemma OldDraftStaysAway(b: Buffer, i: Item, t: Target, saved: Draft)
    requires b.ack == Some(Ack(saved, Some(TargetDraft(i, t)))) && saved != TargetDraft(i, t)
    requires b.stamp == Some(TargetStamp(i, t)) && i.lifecycle.Editable? && (t.Candidate? ==> i.candidate.Some?)
    ensures var (b1, m) := ObserveBuffer(b, false, None, i, t, false); MarkedBuffer(b1, m) == b
  {
    hide TargetDraft;
  }

  /** A snapshot under that stamp with a draft that is neither the saved one nor the one before is news,
      and is taken as any other. */
  lemma ThirdDraftIsTaken(b: Buffer, i: Item, t: Target, saved: Draft, previous: Option<Draft>)
    requires b.ack == Some(Ack(saved, previous)) && TargetDraft(i, t) != saved && Some(TargetDraft(i, t)) != previous
    requires b.stamp == Some(TargetStamp(i, t)) && i.lifecycle.Editable? && (t.Candidate? ==> i.candidate.Some?)
    requires !b.dirty && b.base.None? && b.inFlight.None? && !b.conflict && b.failures == 0 && b.server == Some(saved)
    ensures var (b1, m) := ObserveBuffer(b, false, None, i, t, false);
            var b' := MarkedBuffer(b1, m);
            b'.server == Some(TargetDraft(i, t)) == b'.draft && b'.ack.None?
  {
    hide TargetDraft;
  }
}
