/** The invariant of the two autosave buffers and of the saves under way, and its preservation
    by every event. */
module ReviewSaves {
  import opened Prelude
  import opened ReviewServer
  import opened ReviewRefs
  import opened ReviewWorld

  // ---------------------------------------------------------------- the invariant

  ghost predicate PinHolds(hist: seq<Item>, pin: Pin, revision: nat, t: Target) {
    && pin.at < |hist|
    && hist[pin.at].revision == revision
    && (pin.sound ==> Live(hist[pin.at], t) && MeaningAt(hist[pin.at], t) == pin.origin)
  }

  /** Which flags go together in one buffer. */
  predicate Tidy(b: Buffer) {
    && (b.dirty <==> b.base.Some?)
    && (b.dirty ==> b.draft.Some?)
    && (b.inFlight.Some? ==> b.dirty && !b.conflict)
    && (b.conflict ==> b.dirty)
    && b.stamp.Some?
    && (b.inFlight.Some? ==> b.base.value.revision == b.inFlight.value.revision
                             && b.base.value.generation == b.inFlight.value.generation)
  }

  /** The stamp and the adopted server draft are those of one history point; the pin is that of the base. */
  ghost predicate Anchored(hist: seq<Item>, b: Buffer, tr: Trace, t: Target)
    requires Tidy(b)
  {
    && tr.seen < |hist|
    && hist[tr.seen].revision == b.stamp.value.revision
    && GenerationOf(hist[tr.seen], t) == b.stamp.value.generation
    && (b.server.Some? ==> b.server.value == TargetDraft(hist[tr.seen], t) && Live(hist[tr.seen], t))
    && (b.server.Some? && !b.dirty && b.failures == 0 ==>
          b.draft.Some? && MeaningOf(b.draft.value, t) == MeaningOf(b.server.value, t))
    && (b.base.Some? ==>
          && PinHolds(hist, tr.pin, b.base.value.revision, t)
          && GenerationOf(hist[tr.pin.at], t) == b.base.value.generation)
  }

  /** A save in flight is a known call and remembers what the sibling showed when it left. */
  ghost predicate Tracked(w: World, t: Target) {
    var b := w.refs.Get(t);
    b.inFlight.Some? ==>
      var save := b.inFlight.value;
      && save.seqNo in w.calls
      && w.calls[save.seqNo].request == Request(t, save.seqNo, save.revision, save.sent)
      && w.Trace(t).captured < |w.hist|
      && w.Trace(t).evidence.Some? && w.Trace(t).evidence.value.revision == w.hist[w.Trace(t).captured].revision
      && (w.calls[save.seqNo].accepted.Some? ==> w.Trace(t).captured <= w.calls[save.seqNo].accepted.value)
      && (save.siblingDraft.Some? ==>
            && TargetDraft(w.hist[w.Trace(t).captured], t.Sibling()) == save.siblingDraft.value
            && Live(w.hist[w.Trace(t).captured], t.Sibling()))
  }

  ghost predicate CallHolds(hist: seq<Item>, c: Call) {
    && PinHolds(hist, c.pin, c.request.revision, c.request.target)
    && (c.accepted.Some? ==>
          var a := c.accepted.value;
          && a + 1 < |hist|
          && hist[a].revision == c.request.revision
          && (c.request.target.Candidate? ==>
                && !hist[a].status.NotRequested? && hist[a + 1].candidate.Some?
                && hist[a + 1].generation == hist[a].generation
                && hist[a + 1].content == hist[a].content))
  }

  ghost predicate BuffersHold(w: World) {
    && Tidy(w.refs.source) && Tidy(w.refs.candidate)
    && Anchored(w.hist, w.refs.source, w.source, Source)
    && Anchored(w.hist, w.refs.candidate, w.candidate, Candidate)
    && !(w.refs.source.inFlight.Some? && w.refs.candidate.inFlight.Some?)
  }

  ghost predicate CallsHold(w: World) {
    && (forall n :: n in w.calls ==> n < w.nextSeq && CallHolds(w.hist, w.calls[n]))
    && (forall n :: n in w.calls ==>
          Blank(w.calls[n].request.draft.graphDsl) || w.calls[n].request.draft.graphDsl in w.passed)
    && Tracked(w, Source) && Tracked(w, Candidate)
  }

  ghost predicate SaveInv(w: World) {
    History(w.hist) && w.shown < |w.hist| && BuffersHold(w) && CallsHold(w)
  }

  // ---------------------------------------------------------------- preservation, event by event

  lemma MountedHolds(i: Item)
    requires WellFormed(i)
    ensures SaveInv(Mounted(i))
  {
    hide Squeeze, SemanticValue, Later, MeaningOf, TargetDraft;
    LaterReflexive(i);
    var w := Mounted(i);
    assert History(w.hist);
    assert Anchored(w.hist, w.refs.source, w.source, Source);
    assert Anchored(w.hist, w.refs.candidate, w.candidate, Candidate);
  }

  lemma HistoryGrows(w: World, op: Write, time: int, raw: int)
    requires SaveInv(w) && Admits(Last(w.hist), op)
    ensures SaveInv(w.(hist := w.hist + [Stored(Last(w.hist), op, time, raw)]))
  {
    hide Squeeze, SemanticValue, Later, MeaningOf, TargetDraft, Admits, Stored, WellFormed;
    var w' := w.(hist := w.hist + [Stored(Last(w.hist), op, time, raw)]);
    HistoryExtends(w.hist, op, time, raw);
    assert forall k :: 0 <= k < |w.hist| ==> w'.hist[k] == w.hist[k];
    assert Anchored(w'.hist, w'.refs.source, w'.source, Source);
    assert Anchored(w'.hist, w'.refs.candidate, w'.candidate, Candidate);
    forall n | n in w.calls ensures CallHolds(w'.hist, w'.calls[n]) {
      assert CallHolds(w.hist, w.calls[n]);
    }
  }

  /** What an accepted save leaves behind: it was composed against the revision it replaced. */
  lemma AcceptedCall(i: Item, q: Request, tags: seq<string>, time: int, raw: int)
    requires Admits(i, RequestWrite(i, q, tags))
    ensures i.revision == q.revision
    ensures var j := Stored(i, RequestWrite(i, q, tags), time, raw);
            q.target.Candidate? ==>
              !i.status.NotRequested? && j.candidate.Some? && j.generation == i.generation && j.content == i.content
  {
    hide Squeeze, SemanticValue;
  }

  lemma AcceptHolds(w: World, e: Event)
    requires SaveInv(w) && e.SaveAccepted? && Enabled(w, e)
    ensures SaveInv(Step(w, e))
  {
    hide Squeeze, SemanticValue, Later, MeaningOf, TargetDraft, Admits, Stored, WellFormed, RequestWrite, History,
         Anchored, Tidy, PinHolds;
    var call := w.calls[e.seqNo];
    var op := RequestWrite(Last(w.hist), call.request, e.tags);
    HistoryGrows(w, op, e.time, e.raw);
    AcceptedCall(Last(w.hist), call.request, e.tags, e.time, e.raw);
    var w1 := w.(hist := w.hist + [Stored(Last(w.hist), op, e.time, e.raw)]);
    var w' := Step(w, e);
    forall n | n in w'.calls ensures n < w'.nextSeq && CallHolds(w'.hist, w'.calls[n]) {
      assert CallHolds(w1.hist, w1.calls[n]);
    }
    assert Tracked(w1, Source) && Tracked(w1, Candidate);
  }

  lemma ObserveTidy(hist: seq<Item>, b: Buffer, t: Target, saving: bool, tags: Option<seq<string>>, at: nat)
    requires Tidy(b) && at < |hist|
    ensures var (b1, m) := ObserveBuffer(b, saving, tags, hist[at], t, false);
            var b' := MarkedBuffer(b1, m);
            Tidy(b') && (b'.inFlight == b.inFlight || b'.inFlight.None?)
  {
    hide IsStale, PredatesAck, TargetDraft, TargetStamp;
  }

  lemma ObserveAnchored(hist: seq<Item>, b: Buffer, tr: Trace, t: Target, saving: bool, tags: Option<seq<string>>,
                        at: nat)
    requires Tidy(b) && Anchored(hist, b, tr, t) && at < |hist|
    ensures var (b1, m) := ObserveBuffer(b, saving, tags, hist[at], t, false);
            var b' := MarkedBuffer(b1, m);
            var tr' := if Ignores(b, hist[at], t) then tr else tr.(seen := at);
            Tidy(b') && Anchored(hist, b', tr', t)
  {
    hide IsStale, PredatesAck, TargetDraft, MeaningOf, PinHolds, TargetStamp;
    ObserveTidy(hist, b, t, saving, tags, at);
    StampOf(hist[at], t);
    if tags.Some? {
      ShownTagsCarryNoMeaning(TargetDraft(hist[at], t), tags.value, t);
    }
  }

  lemma ObserveBufferHolds(hist: seq<Item>, b: Buffer, tr: Trace, t: Target, saving: bool, tags: Option<seq<string>>,
                           at: nat)
    requires Tidy(b) && Anchored(hist, b, tr, t) && at < |hist|
    ensures var (b1, m) := ObserveBuffer(b, saving, tags, hist[at], t, false);
            var b' := MarkedBuffer(b1, m);
            var tr' := if Ignores(b, hist[at], t) then tr else tr.(seen := at);
            && Tidy(b') && Anchored(hist, b', tr', t)
            && (b'.inFlight == b.inFlight || b'.inFlight.None?)
  {
    hide ObserveBuffer, MarkedBuffer, Ignores, Tidy, Anchored;
    ObserveTidy(hist, b, t, saving, tags, at);
    ObserveAnchored(hist, b, tr, t, saving, tags, at);
  }

  lemma StampOf(i: Item, t: Target)
    ensures TargetStamp(i, t).revision == i.revision && TargetStamp(i, t).generation == GenerationOf(i, t)
  {
  }

  lemma ShownTagsCarryNoMeaning(d: Draft, tags: seq<string>, t: Target)
    ensures MeaningOf(d.(tags := tags), t) == MeaningOf(d, t)
  {
    hide SemanticValue;
  }

  lemma ObserveShape(r: Refs, i: Item)
    ensures var (b1, m1) := ObserveBuffer(r.source, r.candidate.inFlight.Some?, r.pendingTags, i, Source, false);
            Observe(r, i, false).source == MarkedBuffer(b1, m1)
    ensures var (b2, m2) := ObserveBuffer(r.candidate, r.source.inFlight.Some?, r.pendingTags, i, Candidate, false);
            Observe(r, i, false).candidate == MarkedBuffer(b2, m2)
  {
    hide TargetDraft, IsStale, PredatesAck, HasState;
  }

  lemma SnapshotHolds(w: World, at: nat)
    requires SaveInv(w) && at < |w.hist|
    ensures SaveInv(Step(w, SnapshotArrives(at)))
  {
    hide Squeeze, SemanticValue, Later, MeaningOf, TargetDraft, IsStale, PredatesAck, ObserveBuffer, MarkedBuffer,
         Observe, CallHolds, History, Ignores, Anchored;
    var i := w.hist[at];
    ObserveShape(w.refs, i);
    ObserveBufferHolds(w.hist, w.refs.source, w.source, Source, w.refs.candidate.inFlight.Some?, w.refs.pendingTags,
                       at);
    ObserveBufferHolds(w.hist, w.refs.candidate, w.candidate, Candidate, w.refs.source.inFlight.Some?,
                       w.refs.pendingTags, at);
  }

  function PinAfterEdit(b: Buffer, tr: Trace, x: Target, i: Item, t: Target, p: Patch): Trace {
    if x != SaveTarget(t, p) || b.base.Some? then tr
    else tr.(pin := Pin(tr.seen, MeaningOf(b.draft.GetOr(TargetDraft(i, x)), x),
                    SafeToPin(b, b.draft.GetOr(TargetDraft(i, x)), x)))
  }

  lemma EditBufferHolds(hist: seq<Item>, b: Buffer, tr: Trace, x: Target, i: Item, t: Target, p: Patch)
    requires Tidy(b) && Anchored(hist, b, tr, x)
    ensures var b' := EditBuffer(b, x, i, t, p);
            && Tidy(b') && Anchored(hist, b', PinAfterEdit(b, tr, x, i, t, p), x)
            && b'.inFlight == b.inFlight
  {
    hide Squeeze, SemanticValue, TargetDraft;
  }

  /** An edit event changes the buffers and pins of the item and nothing else. */
  lemma EditShape(w: World, t: Target, p: Patch)
    requires w.shown < |w.hist|
    ensures var i, w' := w.hist[w.shown], Step(w, UserEdits(t, p));
            if Locked(w.refs, t, p) then w' == w
            else
              && w'.refs.source == EditBuffer(w.refs.source, Source, i, t, p)
              && w'.refs.candidate == EditBuffer(w.refs.candidate, Candidate, i, t, p)
              && w'.source == PinAfterEdit(w.refs.source, w.source, Source, i, t, p)
              && w'.candidate == PinAfterEdit(w.refs.candidate, w.candidate, Candidate, i, t, p)
              && w' == w.(refs := w'.refs, source := w'.source, candidate := w'.candidate)
  {
    hide TargetDraft, MeaningOf, EditBuffer, SafeToPin;
  }

  lemma EditHolds(w: World, t: Target, p: Patch)
    requires SaveInv(w)
    ensures SaveInv(Step(w, UserEdits(t, p)))
  {
    hide Later, TargetDraft, CallHolds, History, MeaningOf, EditBuffer, Anchored, SafeToPin, Blank, Tidy, Step, Live,
         MeaningAt;
    var i, w' := w.hist[w.shown], Step(w, UserEdits(t, p));
    EditShape(w, t, p);
    EditBufferHolds(w.hist, w.refs.source, w.source, Source, i, t, p);
    EditBufferHolds(w.hist, w.refs.candidate, w.candidate, Candidate, i, t, p);
    assert Tracked(w, Source) && Tracked(w, Candidate);
  }

  // A dispatch hands the pin to the call and remembers where the sibling stood.

  predicate SameAnchor(b: Buffer, tr: Trace, b': Buffer, tr': Trace) {
    && b'.draft == b.draft && b'.dirty == b.dirty && b'.failures == b.failures && b'.server == b.server
    && b'.stamp == b.stamp && b'.base == b.base && tr'.seen == tr.seen && tr'.pin == tr.pin
  }

  lemma SameAnchorHolds(hist: seq<Item>, b: Buffer, tr: Trace, b': Buffer, tr': Trace, t: Target)
    requires Tidy(b) && Tidy(b') && Anchored(hist, b, tr, t) && SameAnchor(b, tr, b', tr')
    ensures Anchored(hist, b', tr', t)
  {
    hide Squeeze, SemanticValue, TargetDraft, MeaningOf, PinHolds;
  }

  lemma LaunchedCallHolds(w: World, t: Target, q: Request)
    requires SaveInv(w) && w.refs.Get(t).base.Some? && q.target == t
    requires q.revision == w.refs.Get(t).base.value.revision
    ensures CallHolds(w.hist, Call(q, w.Trace(t).pin, None))
  {
    hide Squeeze, SemanticValue, Later, TargetDraft, History, MeaningOf;
  }

  lemma LaunchedIsTracked(w: World, t: Target, q: Request, save: Save)
    requires SaveInv(w)
    requires save.siblingDraft == w.refs.Get(t.Sibling()).server
    ensures var at := w.Trace(t.Sibling()).seen;
            && at < |w.hist|
            && w.refs.Get(t.Sibling()).stamp.Some?
            && w.refs.Get(t.Sibling()).stamp.value.revision == w.hist[at].revision
            && (save.siblingDraft.Some? ==>
                  TargetDraft(w.hist[at], t.Sibling()) == save.siblingDraft.value && Live(w.hist[at], t.Sibling()))
  {
    hide Squeeze, SemanticValue, Later, TargetDraft, History, MeaningOf, CallHolds;
    assert Anchored(w.hist, w.refs.Get(t.Sibling()), w.Trace(t.Sibling()), t.Sibling());
  }

  /** `r` is what the editor holds when the request leaves: the refs, up to validation flags of `t`. */
  predicate ReadyToSend(w: World, r: Refs, t: Target, draft: Draft) {
    && r.Get(t).(rejected := w.refs.Get(t).rejected, validating := w.refs.Get(t).validating) == w.refs.Get(t)
    && r.Get(t.Sibling()) == w.refs.Get(t.Sibling())
    && (Blank(draft.graphDsl) || draft.graphDsl in w.passed)
  }

  lemma DispatchBuffersHold(w: World, r: Refs, t: Target, draft: Draft)
    requires SaveInv(w) && ReadyToSend(w, r, t, draft)
    ensures BuffersHold(Launch(w, t, Dispatch(r, t, draft, w.nextSeq)))
  {
    hide Squeeze, SemanticValue, Later, TargetDraft, History, MeaningOf, Anchored, CallsHold, Blank;
    var w' := Launch(w, t, Dispatch(r, t, draft, w.nextSeq));
    var s := t.Sibling();
    assert w'.refs.Get(s) == w.refs.Get(s) && w'.Trace(s) == w.Trace(s);
    SameAnchorHolds(w.hist, w.refs.Get(t), w.Trace(t), w'.refs.Get(t), w'.Trace(t), t);
  }

  lemma DispatchCallsHold(w: World, r: Refs, t: Target, draft: Draft)
    requires SaveInv(w) && ReadyToSend(w, r, t, draft)
    ensures CallsHold(Launch(w, t, Dispatch(r, t, draft, w.nextSeq)))
  {
    hide Squeeze, SemanticValue, Later, TargetDraft, History, MeaningOf, Anchored, CallHolds, Blank, Live;
    var (r', q) := Dispatch(r, t, draft, w.nextSeq);
    var w' := Launch(w, t, (r', q));
    if q.Some? {
      LaunchedCallHolds(w, t, q.value);
      forall n | n in w'.calls ensures n < w'.nextSeq && CallHolds(w'.hist, w'.calls[n]) {
        if n != w.nextSeq { assert CallHolds(w.hist, w.calls[n]); }
      }
      LaunchedIsTracked(w, t, q.value, w'.refs.Get(t).inFlight.value);
    }
    assert Tracked(w, t) && Tracked(w, t.Sibling());
    assert Tracked(w', t);
    assert Tracked(w', t.Sibling());
  }

  lemma DispatchHolds(w: World, r: Refs, t: Target, draft: Draft)
    requires SaveInv(w) && ReadyToSend(w, r, t, draft)
    ensures SaveInv(Launch(w, t, Dispatch(r, t, draft, w.nextSeq)))
  {
    hide Dispatch, BuffersHold, CallsHold, ReadyToSend;
    DispatchBuffersHold(w, r, t, draft);
    DispatchCallsHold(w, r, t, draft);
  }

  /** Flags that no invariant mentions may change freely; a failure count may grow on a pinned buffer. */
  lemma FlagsHold(w: World, r: Refs, t: Target)
    requires SaveInv(w)
    requires var b, b' := w.refs.Get(t), r.Get(t);
             && b'.(rejected := b.rejected, validating := b.validating, failures := b.failures) == b
             && (b'.failures == b.failures || b'.failures != 0)
             && r.Get(t.Sibling()) == w.refs.Get(t.Sibling())
    ensures SaveInv(w.(refs := r))
  {
    hide Squeeze, SemanticValue, Later, TargetDraft, History, MeaningOf, CallHolds, PinHolds;
    assert Tracked(w, t) && Tracked(w, t.Sibling());
  }

  lemma TimerHolds(w: World, t: Target)
    requires SaveInv(w) && Enabled(w, TimerFires(t))
    ensures SaveInv(Step(w, TimerFires(t)))
  {
    hide Dispatch, SaveInv, Blank;
    var b := w.refs.Get(t);
    var w' := Step(w, TimerFires(t));
    if b.validating || b.rejected || !Sendable(w.refs, t) || b.draft.None? {
      assert w' == w;
    } else if Blank(b.draft.value.graphDsl) {
      DispatchHolds(w, w.refs.Put(t, b.(rejected := false)), t, b.draft.value);
    } else {
      FlagsHold(w, w.refs.Put(t, b.(validating := true)), t);
    }
  }

  lemma MorePassed(w: World, dsl: string)
    requires SaveInv(w)
    ensures SaveInv(w.(passed := w.passed + {dsl}))
  {
    hide Squeeze, SemanticValue, Later, TargetDraft, History, MeaningOf, CallHolds, PinHolds, Anchored, Blank;
    var w' := w.(passed := w.passed + {dsl});
    forall n | n in w'.calls
      ensures n < w'.nextSeq && CallHolds(w'.hist, w'.calls[n])
      ensures Blank(w'.calls[n].request.draft.graphDsl) || w'.calls[n].request.draft.graphDsl in w'.passed
    {
      assert n in w.calls;
    }
    assert Tracked(w, Source) && Tracked(w, Candidate);
  }

  lemma AnswerHolds(w: World, t: Target, draft: Draft, answer: Validation)
    requires SaveInv(w) && Enabled(w, ValidationAnswers(t, draft, answer))
    ensures SaveInv(Step(w, ValidationAnswers(t, draft, answer)))
  {
    hide Dispatch, SaveInv, Blank, Settle;
    MorePassed(w, draft.graphDsl);
    var w0 := w.(passed := if answer.Valid? then w.passed + {draft.graphDsl} else w.passed);
    var r0 := w.refs.Put(t, w.refs.Get(t).(validating := false));
    var b := r0.Get(t);
    if b.draft == Some(draft) && answer.Valid? {
      ValidAnswerShape(w.refs, t, draft, w.nextSeq);
      DispatchHolds(w0, r0.Put(t, b.(rejected := false)), t, draft);
    } else {
      OtherAnswerShape(w.refs, t, draft, answer, w.nextSeq);
      FlagsHold(w0, Settle(w.refs, t, draft, answer, w.nextSeq).0, t);
    }
  }

  lemma ValidAnswerShape(r: Refs, t: Target, d: Draft, n: nat)
    requires r.Get(t).draft == Some(d)
    ensures Settle(r, t, d, Valid, n) == Dispatch(r.Put(t, r.Get(t).(validating := false, rejected := false)), t, d, n)
  {
    hide Dispatch;
  }

  lemma OtherAnswerShape(r: Refs, t: Target, d: Draft, v: Validation, n: nat)
    requires r.Get(t).draft != Some(d) || !v.Valid?
    ensures var (r', q) := Settle(r, t, d, v, n);
            var b, b' := r.Get(t), r'.Get(t);
            && q.None?
            && b'.(rejected := b.rejected, validating := b.validating, failures := b.failures) == b
            && (b'.failures == b.failures || b'.failures != 0)
            && r'.Get(t.Sibling()) == r.Get(t.Sibling())
  {
  }

  /** All a timer or a validation answer can change in its buffer. */
  predicate SentFrom(b: Buffer, b': Buffer) {
    b'.(rejected := b.rejected, validating := b.validating, failures := b.failures, inFlight := b.inFlight) == b
  }

  lemma TimerShape(r: Refs, t: Target, n: nat)
    ensures var (r', q) := Timer(r, t, n);
            && SentFrom(r.Get(t), r'.Get(t)) && r'.Get(t.Sibling()) == r.Get(t.Sibling())
            && (q.Some? ==> q.value.target == t && r.Get(t).dirty && !r.Get(t).conflict)
  {
    hide Blank;
  }

  lemma AnswerShape(r: Refs, t: Target, d: Draft, v: Validation, n: nat)
    ensures var (r', q) := Settle(r, t, d, v, n);
            && SentFrom(r.Get(t), r'.Get(t)) && r'.Get(t.Sibling()) == r.Get(t.Sibling())
            && (q.Some? ==> q.value.target == t && r.Get(t).dirty && !r.Get(t).conflict)
  {
    hide Blank;
  }

  // ---------------------------------------------------------------- a save returns

  /** The buffer a successful, owned save leaves behind. */
  function OwnBuffer(b: Buffer, t: Target, save: Save, i: Item, clean: bool): Buffer {
    var stamp := SavedStamp(b, t, save, Some(i));
    b.(inFlight := None, failures := 0, stamp := Some(stamp), ack := Some(Ack(save.sent, b.server)),
       server := Some(save.sent), dirty := b.dirty && !clean, base := if clean then None else Some(stamp))
  }

  function SiblingBuffer(r: Refs, s: Target, save: Save, i: Item): Buffer {
    var b := r.Get(s);
    if !SiblingConcerned(r, s, Some(i)) then b
    else if SiblingUntouched(r, s, save, i) then
      b.(base := Some(TargetStamp(i, s)), stamp := Some(TargetStamp(i, s)), server := Some(TargetDraft(i, s)))
    else b.(conflict := true)
  }

  predicate Owned(r: Refs, t: Target, seqNo: nat, i: Item) {
    var b := r.Get(t);
    b.inFlight.Some? && b.inFlight.value.seqNo == seqNo && !Disowned(b, t, b.inFlight.value, Some(i))
  }

  lemma SiblingOnly(r: Refs, r': Refs, s: Target, save: Save, i: Item)
    requires r.Get(s) == r'.Get(s)
    ensures SiblingUntouched(r, s, save, i) == SiblingUntouched(r', s, save, i)
  {
  }

  lemma StampOnly(b: Buffer, t: Target, save: Save, i: Item)
    ensures SavedStamp(b.(inFlight := None), t, save, Some(i)) == SavedStamp(b, t, save, Some(i))
  {
    hide IsStale;
  }

  lemma AcknowledgeShape(r: Refs, t: Target, save: Save, i: Item)
    ensures var r' := Acknowledge(r, t, save, Some(i));
            var stamp := SavedStamp(r.Get(t), t, save, Some(i));
            && r'.Get(t.Sibling()) == SiblingBuffer(r, t.Sibling(), save, i)
            && r'.Get(t) == r.Get(t).(failures := 0, base := Some(stamp), stamp := Some(stamp),
                                      ack := Some(Ack(save.sent, r.Get(t).server)), server := Some(save.sent))
  {
    hide TargetDraft, IsStale, SavedStamp, SiblingUntouched;
    var s := t.Sibling();
    var stamp := SavedStamp(r.Get(t), t, save, Some(i));
    var r1 := r.Put(t, r.Get(t).(base := Some(stamp), stamp := Some(stamp),
                                 ack := Some(Ack(save.sent, r.Get(t).server)), server := Some(save.sent)));
    var r2 := if t.Source? && r.pendingTags == Some(save.sent.tags) then ForgetTags(r1) else r1;
    assert r2.Get(s) == r.Get(s);
    SiblingOnly(r2, r, s, save, i);
  }

  lemma ReturnShape(r: Refs, t: Target, seqNo: nat, i: Item)
    requires Owned(r, t, seqNo, i)
    ensures var save := r.Get(t).inFlight.value;
            var r' := FinishSave(r, t, seqNo, Saved(Some(i))).0;
            && r'.Get(t.Sibling()) == SiblingBuffer(r, t.Sibling(), save, i)
            && (r'.Get(t) == OwnBuffer(r.Get(t), t, save, i, false)
                || (r'.Get(t) == OwnBuffer(r.Get(t), t, save, i, true)
                    && var d := r.Get(t).draft;
                       d.Some? && (d.value == save.sent || d.value.(tags := save.sent.tags) == save.sent)))
  {
    hide TargetDraft, IsStale, Disowned, SavedStamp, SiblingUntouched;
    var save := r.Get(t).inFlight.value;
    var s := t.Sibling();
    var r0 := r.Put(t, r.Get(t).(inFlight := None));
    assert r0.Get(s) == r.Get(s);
    AcknowledgeShape(r0, t, save, i);
    assert SiblingUntouched(r0, s, save, i) == SiblingUntouched(r, s, save, i) by { SiblingOnly(r0, r, s, save, i); }
    assert SavedStamp(r0.Get(t), t, save, Some(i)) == SavedStamp(r.Get(t), t, save, Some(i)) by {
      StampOnly(r.Get(t), t, save, i);
    }
  }

  /** An owned result shows a live target: either another draft of this generation's candidate, or its withdrawal. */
  lemma ReturnedIsLive(hist: seq<Item>, b: Buffer, tr: Trace, t: Target, call: Call, at: nat)
    requires History(hist) && Tidy(b) && Anchored(hist, b, tr, t) && b.inFlight.Some?
    requires CallHolds(hist, call) && call.request.target == t && call.request.revision == b.inFlight.value.revision
    requires call.accepted.Some? && call.accepted.value < at < |hist|
    requires GenerationOf(hist[at], t) == b.inFlight.value.generation
    ensures Live(hist[at], t)
    ensures t.Candidate? && hist[at].candidate.Some? ==>
              !SemanticChange(Some(hist[call.accepted.value].content), Some(hist[at].content))
  {
    hide Squeeze, SemanticValue, TargetDraft, MeaningOf, WellFormed, SemanticChange;
    if t.Candidate? {
      var a := call.accepted.value;
      var p := tr.pin.at;
      assert Later(hist[a], hist[p]) || Later(hist[p], hist[a]);
      assert hist[a].generation == hist[p].generation;
      assert Later(hist[a + 1], hist[at]);
    }
  }

  lemma OwnBufferHolds(hist: seq<Item>, b: Buffer, tr: Trace, t: Target, at: nat, clean: bool)
    requires Tidy(b) && Anchored(hist, b, tr, t) && b.inFlight.Some? && at < |hist|
    requires !Disowned(b, t, b.inFlight.value, Some(hist[at])) && Live(hist[at], t)
    requires clean ==> b.draft.Some? && MeaningOf(b.draft.value, t) == MeaningOf(b.inFlight.value.sent, t)
    ensures var save := b.inFlight.value;
            var b' := OwnBuffer(b, t, save, hist[at], clean);
            && Tidy(b')
            && Anchored(hist, b', tr.(seen := at, pin := Pin(at, MeaningOf(save.sent, t), true)), t)
  {
    hide Squeeze, SemanticValue, TargetDraft, MeaningOf, IsStale;
  }

  /** Why a sound pin stays sound when the sibling's save moves its base to another revision: the
      returned item shows the same meaning of this target as the old base revision did. */
  lemma RebaseKeepsMeaning(hist: seq<Item>, pinAt: nat, capturedAt: nat, acceptedAt: nat, at: nat, s: Target)
    requires History(hist) && pinAt < |hist| && acceptedAt < at < |hist|
    requires Live(hist[pinAt], s) && Live(hist[at], s) && !hist[pinAt].status.NotRequested?
    requires hist[pinAt].revision == hist[acceptedAt].revision
    requires (capturedAt < |hist| && Live(hist[capturedAt], s)
              && hist[capturedAt].revision == hist[acceptedAt].revision
              && MeaningAt(hist[capturedAt], s) == MeaningAt(hist[at], s))
             || (s.Source? && !SemanticChange(Some(hist[acceptedAt].content), Some(hist[at].content)))
    ensures MeaningAt(hist[pinAt], s) == MeaningAt(hist[at], s)
  {
    hide Squeeze, SemanticValue, TargetDraft, MeaningOf, WellFormed, Later, SemanticChange;
    if capturedAt < |hist| && Live(hist[capturedAt], s)
       && hist[capturedAt].revision == hist[acceptedAt].revision
       && MeaningAt(hist[capturedAt], s) == MeaningAt(hist[at], s) {
      SameRevisionSameMeaning(hist, pinAt, capturedAt, s);
    } else {
      SameRevisionSameMeaning(hist, pinAt, acceptedAt, s);
      SameContentSameMeaning(hist[acceptedAt], hist[at]);
    }
  }

  /** A pin the sibling's save may move names a version for which a variant has been requested. */
  lemma PinWasRequested(w: World, seqNo: nat, at: nat, t: Target)
    requires ReturnsOwned(w, seqNo, at, t)
    requires var s, save := t.Sibling(), w.refs.Get(t).inFlight.value;
             SiblingConcerned(w.refs, s, Some(w.hist[at])) && SiblingUntouched(w.refs, s, save, w.hist[at])
             && w.refs.Get(s).base.value.revision != w.hist[at].revision
    ensures var pinAt := w.Trace(t.Sibling()).pin.at;
            pinAt < |w.hist| && !w.hist[pinAt].status.NotRequested?
            && w.hist[pinAt].revision == w.hist[w.calls[seqNo].accepted.value].revision
  {
    hide Squeeze, SemanticValue, TargetDraft, IsStale, SemanticChange, Disowned, Tidy, MeaningOf, Live;
    var s, a := t.Sibling(), w.calls[seqNo].accepted.value;
    assert Anchored(w.hist, w.refs.Get(s), w.Trace(s), s);
    ReturnFacts(w, seqNo, at, t);
    var p := w.Trace(s).pin.at;
    assert Later(w.hist[a], w.hist[p]) || Later(w.hist[p], w.hist[a]);
    if s.Candidate? {
      assert Later(w.hist[p], w.hist[at]) || Later(w.hist[at], w.hist[p]);
    }
  }

  /** The premises every lemma about an owned return shares. */
  ghost predicate ReturnsOwned(w: World, seqNo: nat, at: nat, t: Target) {
    && SaveInv(w) && Enabled(w, SaveReturns(seqNo, at))
    && t == w.calls[seqNo].request.target
    && Owned(w.refs, t, seqNo, w.hist[at])
  }

  function RebasedTrace(w: World, t: Target, save: Save, at: nat): Trace
    requires at < |w.hist|
  {
    var s := t.Sibling();
    var i := w.hist[at];
    if SiblingConcerned(w.refs, s, Some(i)) && SiblingUntouched(w.refs, s, save, i) then
      w.Trace(s).(seen := at, pin := RebasedPin(w, t, save, at))
    else w.Trace(s)
  }

  lemma ReturnFacts(w: World, seqNo: nat, at: nat, t: Target)
    requires ReturnsOwned(w, seqNo, at, t)
    ensures var b, call := w.refs.Get(t), w.calls[seqNo];
            var a := call.accepted.value;
            && CallHolds(w.hist, call)
            && call.request.revision == b.inFlight.value.revision == w.hist[a].revision
            && GenerationOf(w.hist[at], t) == b.inFlight.value.generation
            && Live(w.hist[at], t)
            && (t.Candidate? && w.hist[at].candidate.Some? ==>
                  !SemanticChange(Some(w.hist[a].content), Some(w.hist[at].content)))
  {
    hide Squeeze, SemanticValue, TargetDraft, MeaningOf, IsStale, Later, SemanticChange, PinHolds, Live;
    assert CallHolds(w.hist, w.calls[seqNo]);
    assert Tracked(w, t);
    assert Anchored(w.hist, w.refs.Get(t), w.Trace(t), t);
    ReturnedIsLive(w.hist, w.refs.Get(t), w.Trace(t), t, w.calls[seqNo], at);
  }

  lemma SoundRebase(w: World, seqNo: nat, at: nat, t: Target)
    requires ReturnsOwned(w, seqNo, at, t)
    requires var s, save := t.Sibling(), w.refs.Get(t).inFlight.value;
             SiblingConcerned(w.refs, s, Some(w.hist[at])) && SiblingUntouched(w.refs, s, save, w.hist[at])
             && w.refs.Get(s).base.value.revision != w.hist[at].revision
             && w.Trace(s).pin.sound && SafeToRebase(w.Trace(t).evidence, t, save, w.hist[at])
    ensures Live(w.hist[at], t.Sibling())
    ensures MeaningAt(w.hist[at], t.Sibling()) == w.Trace(t.Sibling()).pin.origin
  {
    hide Squeeze, SemanticValue, TargetDraft, IsStale, Later, SemanticChange, Disowned, History, Tidy;
    var s, save := t.Sibling(), w.refs.Get(t).inFlight.value;
    var captured, pinAt := w.Trace(t).captured, w.Trace(s).pin.at;
    assert Anchored(w.hist, w.refs.Get(s), w.Trace(s), s);
    assert Tracked(w, t);
    ReturnFacts(w, seqNo, at, t);
    assert MeaningOf(save.siblingDraft.value.(tags := save.sent.tags), s) == MeaningOf(save.siblingDraft.value, s);
    assert MeaningAt(w.hist[captured], s) == MeaningAt(w.hist[at], s);
    PinWasRequested(w, seqNo, at, t);
    RebaseKeepsMeaning(w.hist, pinAt, captured, w.calls[seqNo].accepted.value, at, s);
  }

  lemma SiblingBufferHolds(w: World, seqNo: nat, at: nat, t: Target)
    requires ReturnsOwned(w, seqNo, at, t)
    ensures var s, save := t.Sibling(), w.refs.Get(t).inFlight.value;
            var b' := SiblingBuffer(w.refs, s, save, w.hist[at]);
            && Tidy(b') && b'.inFlight.None?
            && Anchored(w.hist, b', RebasedTrace(w, t, save, at), s)
  {
    hide Squeeze, SemanticValue, TargetDraft, MeaningOf, IsStale, Later, SemanticChange, Disowned, History,
         SafeToRebase, CallHolds, Tracked;
    var s, save := t.Sibling(), w.refs.Get(t).inFlight.value;
    assert Anchored(w.hist, w.refs.Get(s), w.Trace(s), s);
    if SiblingConcerned(w.refs, s, Some(w.hist[at])) && SiblingUntouched(w.refs, s, save, w.hist[at])
       && w.refs.Get(s).base.value.revision != w.hist[at].revision
       && w.Trace(s).pin.sound && SafeToRebase(w.Trace(t).evidence, t, save, w.hist[at]) {
      SoundRebase(w, seqNo, at, t);
    }
  }

  lemma OwnedReturnBuffers(w: World, seqNo: nat, at: nat, t: Target)
    requires ReturnsOwned(w, seqNo, at, t)
    ensures BuffersHold(Step(w, SaveReturns(seqNo, at)))
    ensures Step(w, SaveReturns(seqNo, at)).refs.Get(t).inFlight.None?
    ensures Step(w, SaveReturns(seqNo, at)).refs.Get(t.Sibling()).inFlight.None?
  {
    hide Squeeze, SemanticValue, TargetDraft, IsStale, Later, SemanticChange, Disowned, History, SafeToRebase,
         CallHolds, Tracked, FinishSave, OwnBuffer, SiblingBuffer, Anchored, MeaningOf, SiblingUntouched,
         SiblingConcerned;
    var i := w.hist[at];
    var s, save, b := t.Sibling(), w.refs.Get(t).inFlight.value, w.refs.Get(t);
    var w' := Step(w, SaveReturns(seqNo, at));
    ReturnFacts(w, seqNo, at, t);
    ReturnShape(w.refs, t, seqNo, i);
    SiblingBufferHolds(w, seqNo, at, t);
    assert w'.Trace(s) == RebasedTrace(w, t, save, at);
    var clean := w'.refs.Get(t) != OwnBuffer(b, t, save, i, false);
    if clean { TagsCarryNoMeaning(b.draft.value, save.sent, t); }
    OwnBufferHolds(w.hist, b, w.Trace(t), t, at, clean);
    assert w'.refs.Get(t).inFlight.None? by {
      assert OwnBuffer(b, t, save, i, clean).inFlight.None? by { OwnBufferIdle(b, t, save, i, clean); }
    }
  }

  lemma TagsCarryNoMeaning(d: Draft, sent: Draft, t: Target)
    requires d == sent || d.(tags := sent.tags) == sent
    ensures MeaningOf(d, t) == MeaningOf(sent, t)
  {
    hide SemanticValue;
  }

  lemma OwnBufferIdle(b: Buffer, t: Target, save: Save, i: Item, clean: bool)
    ensures OwnBuffer(b, t, save, i, clean).inFlight.None?
  {
    hide SavedStamp;
  }

  /** A result that is not this save's own work only marks the buffer, and a result of an
      abandoned save does nothing at all. */
  lemma UnownedReturnShape(r: Refs, t: Target, seqNo: nat, i: Item)
    requires !Owned(r, t, seqNo, i)
    ensures var (r', fire) := FinishSave(r, t, seqNo, Saved(Some(i)));
            var b := r.Get(t);
            && fire.None?
            && r'.Get(t.Sibling()) == r.Get(t.Sibling())
            && r'.Get(t) == (if b.inFlight.None? || b.inFlight.value.seqNo != seqNo then b
                             else b.(inFlight := None, conflict := true))
  {
    hide TargetDraft, IsStale, Disowned, SavedStamp, Acknowledge;
  }

  /** The refs of one save end, nothing is launched: calls and history are as before. */
  lemma EndedCalls(w: World, w': World)
    requires SaveInv(w)
    requires w'.hist == w.hist && w'.calls == w.calls && w'.nextSeq == w.nextSeq && w'.passed == w.passed
    requires forall t :: w'.refs.Get(t).inFlight.None?
                         || (w'.refs.Get(t).inFlight == w.refs.Get(t).inFlight && w'.Trace(t) == w.Trace(t))
    ensures CallsHold(w')
  {
    hide Squeeze, SemanticValue, TargetDraft, Later, History, BuffersHold, CallHolds, Blank, Live;
    assert Tracked(w, Source) && Tracked(w, Candidate);
    assert w'.refs.Get(Source).inFlight.None? || w'.refs.Get(Source).inFlight == w.refs.Get(Source).inFlight;
    assert w'.refs.Get(Candidate).inFlight.None? || w'.refs.Get(Candidate).inFlight == w.refs.Get(Candidate).inFlight;
  }

  lemma MarkedBuffersHold(w: World, r: Refs, t: Target, b: Buffer)
    requires SaveInv(w) && r.Get(t.Sibling()) == w.refs.Get(t.Sibling()) && r.Get(t) == b
    requires var was := w.refs.Get(t);
             && b.inFlight.None? && was.dirty
             && b.(inFlight := was.inFlight, conflict := was.conflict, failures := was.failures) == was
    ensures BuffersHold(w.(refs := r))
  {
    hide Squeeze, SemanticValue, TargetDraft, Later, History, CallsHold, MeaningOf, PinHolds;
  }

  lemma ReturnHolds(w: World, seqNo: nat, at: nat)
    requires SaveInv(w) && Enabled(w, SaveReturns(seqNo, at))
    ensures SaveInv(Step(w, SaveReturns(seqNo, at)))
  {
    hide FinishSave, Owned, Disowned, SiblingUntouched, SiblingConcerned, Later, TargetDraft, History, BuffersHold,
         CallsHold, MeaningOf, SafeToRebase;
    var t := w.calls[seqNo].request.target;
    var w' := Step(w, SaveReturns(seqNo, at));
    if Owned(w.refs, t, seqNo, w.hist[at]) {
      OwnedReturnBuffers(w, seqNo, at, t);
      forall x: Target ensures w'.refs.Get(x).inFlight.None? { assert x == t || x == t.Sibling(); }
    } else {
      UnownedReturnShape(w.refs, t, seqNo, w.hist[at]);
      UnownedReturn(w, seqNo, at);
    }
    EndedCalls(w, w');
  }

  lemma UnownedReturn(w: World, seqNo: nat, at: nat)
    requires SaveInv(w) && Enabled(w, SaveReturns(seqNo, at))
    requires !Owned(w.refs, w.calls[seqNo].request.target, seqNo, w.hist[at])
    ensures var w' := Step(w, SaveReturns(seqNo, at));
            && BuffersHold(w') && w'.source == w.source && w'.candidate == w.candidate
            && (forall t :: w'.refs.Get(t).inFlight.None? || w'.refs.Get(t).inFlight == w.refs.Get(t).inFlight)
  {
    hide FinishSave, Disowned, SiblingUntouched, SiblingConcerned, Later, TargetDraft, History, CallsHold, MeaningOf,
         SafeToRebase, Anchored;
    var t := w.calls[seqNo].request.target;
    var b := w.refs.Get(t);
    var w' := Step(w, SaveReturns(seqNo, at));
    UnownedReturnShape(w.refs, t, seqNo, w.hist[at]);
    if b.inFlight.Some? && b.inFlight.value.seqNo == seqNo {
      MarkedBuffersHold(w, w'.refs, t, w'.refs.Get(t));
    }
  }

  lemma FailureShape(r: Refs, t: Target, seqNo: nat, mismatch: bool)
    ensures var (r', fire) := FinishSave(r, t, seqNo, Refused(mismatch));
            var b, b' := r.Get(t), r'.Get(t);
            && fire.None?
            && r'.Get(t.Sibling()) == r.Get(t.Sibling())
            && (if b.inFlight.None? || b.inFlight.value.seqNo != seqNo then b' == b
                else b' == b.(inFlight := None, conflict := true) || b' == Bump(b.(inFlight := None))
                     || b' == b.(inFlight := None))
  {
    hide TargetDraft, IsStale, Disowned, SavedStamp, Acknowledge;
  }

  lemma FailureHolds(w: World, seqNo: nat, mismatch: bool)
    requires SaveInv(w) && Enabled(w, SaveFails(seqNo, mismatch))
    ensures SaveInv(Step(w, SaveFails(seqNo, mismatch)))
  {
    hide FinishSave, Later, TargetDraft, History, CallsHold, MeaningOf, Anchored;
    var t := w.calls[seqNo].request.target;
    var b := w.refs.Get(t);
    var w' := Step(w, SaveFails(seqNo, mismatch));
    FailureShape(w.refs, t, seqNo, mismatch);
    if b.inFlight.Some? && b.inFlight.value.seqNo == seqNo {
      MarkedBuffersHold(w, w'.refs, t, w'.refs.Get(t));
    }
    EndedCalls(w, w');
  }
}
