/** Runs in which an admitted save or Generate does overwrite content its user has not seen, where an
    edit fails `SafeToPin` or a click fails `SafeToGenerate`. */
module ReviewFindings {
  import opened Prelude
  import opened ReviewServer
  import opened ReviewRefs
  import opened ReviewWorld
  import opened ReviewSaves
  import opened ReviewTheorems

  lemma RunStep(w: World, e: Event, rest: seq<Event>)
    requires Enabled(w, e) && Runs(Step(w, e), rest)
    ensures Runs(w, [e] + rest) && After(w, [e] + rest) == After(Step(w, e), rest)
  {
    hide Step, Enabled;
    assert ([e] + rest)[1..] == rest;
  }

  // ---------------------------------------------------------------- 1. a dropped candidate shown again

  /** Nothing of this buffer is pinned, under way or in trouble. */
  predicate Idle(b: Buffer) {
    !b.dirty && b.base.None? && b.inFlight.None? && !b.conflict && !b.rejected && !b.validating && b.failures == 0
  }

  /** A text edit of a candidate whose graph is blank. */
  predicate TextEdit(p: Patch) {
    p.text.Some? && p.graphDsl.None? && p.tags.None?
  }

  /** The item after Generate has been requested on it. */
  function Requested(i: Item, o: Content): Item {
    i.(content := o, original := Some(o), candidate := None, status := Queued,
       revision := i.revision + 1, generation := i.generation + 1, time := i.time + 1)
  }

  /** A buffer that has adopted a draft and nothing since. */
  function Calm(d: Draft, stamp: Stamp): Buffer {
    Buffer(Some(d), false, 0, false, false, false, Some(d), None, Some(stamp), None, None)
  }

  function Fresh(i: Item, t: Target): Buffer {
    if t.Candidate? && i.candidate.None? then FRESH_BUFFER.(stamp := Some(TargetStamp(i, t)))
    else Calm(TargetDraft(i, t), TargetStamp(i, t))
  }

  lemma FreshBuffer(i: Item, t: Target)
    requires i.lifecycle.Editable?
    ensures var (b, m) := ObserveBuffer(FRESH_BUFFER, false, None, i, t, false); MarkedBuffer(b, m) == Fresh(i, t)
  {
    hide TargetDraft, TargetStamp;
  }

  lemma FlagsUnderSnapshot(r: Refs, i: Item)
    requires r.pendingGenerate.None? && r.pendingTags.None? && !r.generating
    ensures var r' := Observe(r, i, false); r'.pendingGenerate.None? && r'.pendingTags.None? && !r'.generating
  {
    hide TargetDraft, ObserveBuffer, MarkedBuffer;
  }

  lemma MountedRefs(i: Item)
    requires i.lifecycle.Editable?
    ensures Mounted(i).refs == Refs(Fresh(i, Source), Fresh(i, Candidate), None, None, false)
  {
    hide TargetDraft, TargetStamp, ObserveBuffer, MarkedBuffer, Fresh, Observe;
    ObserveShape(FRESH, i);
    FreshBuffer(i, Source);
    FreshBuffer(i, Candidate);
    FlagsUnderSnapshot(FRESH, i);
  }

  lemma MountedIdle(i: Item)
    requires i.lifecycle.Editable? && i.candidate.Some?
    ensures var r := Mounted(i).refs;
            && Idle(r.source) && Idle(r.candidate) && !r.generating
            && r.candidate.server == Some(TargetDraft(i, Candidate)) && r.candidate.draft == r.candidate.server
            && r.source.server == Some(TargetDraft(i, Source)) && r.source.draft == r.source.server
            && r.candidate.stamp == Some(TargetStamp(i, Candidate))
            && r.source.stamp == Some(TargetStamp(i, Source))
            && r.pendingTags.None?
  {
    hide TargetDraft, TargetStamp, Mounted;
    MountedRefs(i);
  }

  /** The poll that shows the regeneration drops the candidate buffer, and an older poll arriving
      after it changes nothing but what is on screen. */
  lemma DropThenStale(r: Refs, i: Item, o: Content)
    requires i.lifecycle.Editable? && i.candidate.Some?
    requires Idle(r.candidate) && Idle(r.source) && r.candidate.server.Some?
    requires r.candidate.stamp == Some(TargetStamp(i, Candidate)) && r.source.stamp == Some(TargetStamp(i, Source))
    ensures var r' := Observe(r, Requested(i, o), false);
            && Idle(r'.source) && Idle(r'.candidate)
            && r'.candidate.draft.None? && r'.candidate.server.None?
            && r'.candidate.stamp == Some(TargetStamp(Requested(i, o), Candidate))
            && Observe(r', i, false) == r'
  {
    hide TargetDraft;
    ObserveShape(r, Requested(i, o));
    var r' := Observe(r, Requested(i, o), false);
    ObserveShape(r', i);
  }

  /** Where the run stands before the edit: the regeneration is stored, its poll has been seen, and
      the old item is on screen again. */
  ghost predicate ShownAgain(w: World, i: Item, o: Content) {
    && w.hist == [i, Requested(i, o)] && w.shown == 0
    && Idle(w.refs.source) && Idle(w.refs.candidate)
    && w.refs.candidate.draft.None? && w.refs.candidate.server.None?
    && w.refs.candidate.stamp == Some(TargetStamp(Requested(i, o), Candidate))
    && w.calls == map[] && w.nextSeq == 0
  }

  function Prologue(i: Item, o: Content): seq<Event> {
    [ServerWrites(RequestGeneration(i.revision, o), i.time + 1, i.raw), SnapshotArrives(1), SnapshotArrives(0)]
  }

  /** The user edits the re-shown candidate, the worker finishes the new one, the timer fires. */
  function Epilogue(i: Item, c: Content, p: Patch): seq<Event> {
    [UserEdits(Candidate, p),
     ServerWrites(Claim, i.time + 1, i.raw), ServerWrites(Checkpoint(c), i.time + 1, i.raw),
     ServerWrites(Verdict(Ready), i.time + 1, i.raw),
     TimerFires(Candidate)]
  }

  lemma PrologueRuns(i: Item, o: Content)
    requires i.lifecycle.Editable? && i.candidate.Some? && i.status.Ready?
    ensures Runs(Mounted(i), Prologue(i, o)) && ShownAgain(After(Mounted(i), Prologue(i, o)), i, o)
  {
    hide TargetDraft, Observe, Idle, MeaningOf, Ignores;
    var e := Prologue(i, o);
    var w0 := Mounted(i);
    MountedIdle(i);
    var w1 := Step(w0, e[0]);
    assert w1.hist == [i, Requested(i, o)];
    var w2 := Step(w1, e[1]);
    DropThenStale(w0.refs, i, o);
    var w3 := Step(w2, e[2]);
    assert ShownAgain(w3, i, o);
    assert Runs(w3, []) && After(w3, []) == w3;
    RunStep(w2, e[2], []);
    RunStep(w1, e[1], [e[2]]);
    RunStep(w0, e[0], [e[1], e[2]]);
    assert [e[1]] + [e[2]] == [e[1], e[2]] && [e[0]] + [e[1], e[2]] == e && [e[2]] + [] == [e[2]];
  }

  /** The item once the worker has produced candidate `c` for the new generation. */
  function Produced(i: Item, o: Content, c: Content): Item {
    Requested(i, o).(candidate := Some(c), status := Ready)
  }

  lemma EditPinsUnseen(w: World, i: Item, o: Content, p: Patch)
    requires ShownAgain(w, i, o) && TextEdit(p)
    ensures var w1 := Step(w, UserEdits(Candidate, p));
            var b := w1.refs.candidate;
            && b == w.refs.candidate.(dirty := true, base := w.refs.candidate.stamp,
                                      draft := Some(p.ApplyTo(TargetDraft(i, Candidate))))
            && w1.refs.source == w.refs.source
            && w1.candidate.pin.origin == MeaningAt(i, Candidate) && !w1.candidate.pin.sound
            && w1.hist == w.hist && w1.calls == w.calls && w1.nextSeq == w.nextSeq && w1.shown == w.shown
            && Enabled(w, UserEdits(Candidate, p))
  {
    hide TargetDraft, MeaningOf;
  }

  lemma TimerSends(w: World, d: Draft)
    requires var b := w.refs.candidate;
             b.dirty && !b.conflict && b.inFlight.None? && !b.validating && !b.rejected && b.base.Some?
             && b.draft == Some(d)
    requires w.refs.source.inFlight.None? && Blank(d.graphDsl) && |w.hist| > 0 && w.shown < |w.hist|
    ensures Enabled(w, TimerFires(Candidate))
    ensures var w' := Step(w, TimerFires(Candidate));
            && w'.hist == w.hist && w.nextSeq in w'.calls
            && w'.calls[w.nextSeq] == Call(Request(Candidate, w.nextSeq, w.refs.candidate.base.value.revision, d),
                                           w.candidate.pin, None)
  {
    hide Blank;
  }

  /** What the worker does in the meantime touches the history alone. */
  lemma WorkerProduces(w: World, i: Item, o: Content, c: Content, e: seq<Event>, p: Patch)
    requires w.hist == [i, Requested(i, o)] && w.shown == 0 && i.lifecycle.Editable? && e == Epilogue(i, c, p)
    ensures Enabled(w, e[1]) && Enabled(Step(w, e[1]), e[2]) && Enabled(Step(Step(w, e[1]), e[2]), e[3])
    ensures var w' := Step(Step(Step(w, e[1]), e[2]), e[3]);
            && w'.refs == w.refs && w'.shown == 0 && w'.calls == w.calls && w'.nextSeq == w.nextSeq
            && w'.candidate == w.candidate
            && |w'.hist| == 5 && Last(w'.hist) == Produced(i, o, c)
  {
  }

  lemma EpilogueRuns(w: World, i: Item, o: Content, c: Content, p: Patch)
    requires ShownAgain(w, i, o) && TextEdit(p) && i.lifecycle.Editable?
    requires Blank(TargetDraft(i, Candidate).graphDsl)
    ensures Runs(w, Epilogue(i, c, p))
    ensures var w' := After(w, Epilogue(i, c, p));
            && |w'.hist| > 0 && Last(w'.hist) == Produced(i, o, c)
            && 0 in w'.calls
            && w'.calls[0].request == Request(Candidate, 0, i.revision + 1, p.ApplyTo(TargetDraft(i, Candidate)))
            && w'.calls[0].pin.origin == MeaningAt(i, Candidate)
  {
    hide TargetDraft, MeaningAt, Blank, Step, Enabled;
    var e := Epilogue(i, c, p);
    EditPinsUnseen(w, i, o, p);
    var w1 := Step(w, e[0]);
    WorkerProduces(w1, i, o, c, e, p);
    var w2 := Step(w1, e[1]);
    var w3 := Step(w2, e[2]);
    var w4 := Step(w3, e[3]);
    TimerSends(w4, p.ApplyTo(TargetDraft(i, Candidate)));
    var w5 := Step(w4, e[4]);
    assert Runs(w5, []) && After(w5, []) == w5;
    RunStep(w4, e[4], []);
    RunStep(w3, e[3], [e[4]]);
    RunStep(w2, e[2], [e[3], e[4]]);
    RunStep(w1, e[1], [e[2], e[3], e[4]]);
    RunStep(w, e[0], [e[1], e[2], e[3], e[4]]);
    assert [e[4]] + [] == [e[4]] && [e[3]] + [e[4]] == [e[3], e[4]] && [e[2]] + [e[3], e[4]] == [e[2], e[3], e[4]]
           && [e[1]] + [e[2], e[3], e[4]] == [e[1], e[2], e[3], e[4]] && [e[0]] + [e[1], e[2], e[3], e[4]] == e;
  }

  lemma {:induction false} RunsJoin(w: World, first: seq<Event>, second: seq<Event>)
    requires Runs(w, first) && Runs(After(w, first), second)
    ensures Runs(w, first + second) && After(w, first + second) == After(After(w, first), second)
    decreases |first|
  {
    hide Step, Enabled;
    if first == [] {
      assert first + second == second;
    } else {
      RunsJoin(Step(w, first[0]), first[1..], second);
      assert first + second == [first[0]] + (first[1..] + second);
      RunStep(w, first[0], first[1..] + second);
    }
  }

  /** For every ready item, every text edit and every candidate the worker may produce there is a run
      after which the server admits a save that overwrites the produced candidate; what the editor
      showed when the edit began was the previous one. Nothing is lost only if the two mean the same. */
  lemma UnsafePinLosesCandidate(i: Item, o: Content, c: Content, p: Patch, tags: seq<string>)
    requires i.lifecycle.Editable? && i.candidate.Some? && i.status.Ready?
    requires TextEdit(p) && Blank(TargetDraft(i, Candidate).graphDsl)
    ensures var events := Prologue(i, o) + Epilogue(i, c, p);
            && Runs(Mounted(i), events)
            && var w := After(Mounted(i), events);
               && WouldAdmit(w, 0, tags)
               && w.calls[0].request.target.Candidate?
               && w.calls[0].pin.origin == MeaningAt(i, Candidate)
               && (OverwritesOnly(Last(w.hist), Candidate, w.calls[0].pin.origin) <==>
                     MeaningAt(Produced(i, o, c), Candidate) == MeaningAt(i, Candidate))
               && (RevisionMeans(w.hist, w.calls[0].request.revision, Candidate, w.calls[0].pin.origin) <==>
                     MeaningAt(Produced(i, o, c), Candidate) == MeaningAt(i, Candidate))
    ensures Runs(Mounted(i), Prologue(i, o))
    ensures forall d :: !SafeToPin(After(Mounted(i), Prologue(i, o)).refs.candidate, d, Candidate)
  {
    hide TargetDraft, MeaningOf, MeaningAt, Blank, Step, Enabled, Prologue, Epilogue, ShownAgain, TextEdit, Runs, After,
         Mounted, RevisionMeans, SafeToPin;
    PrologueRuns(i, o);
    EpilogueRuns(After(Mounted(i), Prologue(i, o)), i, o, c, p);
    RunsJoin(Mounted(i), Prologue(i, o), Epilogue(i, c, p));
    var events := Prologue(i, o) + Epilogue(i, c, p);
    assert Reachable(After(Mounted(i), events)) by { assert WellFormed(i); }
    UnsafePinIff(i, o, c, After(Mounted(i), events), tags);
    NothingAdopted(After(Mounted(i), Prologue(i, o)), i, o);
  }

  lemma NothingAdopted(w: World, i: Item, o: Content)
    requires ShownAgain(w, i, o)
    ensures forall d :: !SafeToPin(w.refs.candidate, d, Candidate)
  {
  }

  lemma UnsafePinIff(i: Item, o: Content, c: Content, w: World, tags: seq<string>)
    requires Reachable(w) && |w.hist| > 0 && Last(w.hist) == Produced(i, o, c) && WouldAdmit(w, 0, tags)
    requires w.calls[0].request.target.Candidate? && w.calls[0].pin.origin == MeaningAt(i, Candidate)
    ensures RevisionMeans(w.hist, w.calls[0].request.revision, Candidate, w.calls[0].pin.origin) <==>
              MeaningAt(Produced(i, o, c), Candidate) == MeaningAt(i, Candidate)
  {
    hide TargetDraft, MeaningAt, Reachable, Admits, RequestWrite, RevisionMeans;
    SaveLosesNothingIff(w, 0, tags);
  }

  // ---------------------------------------------------------------- 2. Generate on a revision not adopted

  /** The item after another writer's semantic edit whose clock reading is older. */
  function Overwritten(i: Item, content: Content): Item {
    i.(content := content, revision := i.revision + 1, status := NotRequested, candidate := None,
       original := None, time := i.time - 1)
  }

  lemma OlderStampIsIgnored(r: Refs, i: Item, content: Content)
    requires i.lifecycle.Editable?
    requires r.candidate.stamp == Some(TargetStamp(i, Candidate)) && r.source.stamp == Some(TargetStamp(i, Source))
    ensures Observe(r, Overwritten(i, content), false) == r
  {
    hide TargetDraft;
  }

  lemma MountedSource(i: Item)
    requires i.lifecycle.Editable?
    ensures var r := Mounted(i).refs;
            && Idle(r.source) && !r.generating && r.pendingGenerate.None?
            && r.source.draft == Some(TargetDraft(i, Source))
            && r.source.stamp == Some(TargetStamp(i, Source)) && r.candidate.stamp == Some(TargetStamp(i, Candidate))
  {
    hide TargetDraft, TargetStamp, Mounted;
    MountedRefs(i);
  }

  /** For every item and every semantic edit by another writer that was stamped with an older clock
      reading, a click on Generate sends the content the editor still shows at the revision of the
      content it has not adopted, and the server admits it. */
  lemma UnsafeGenerateLosesSource(i: Item, content: Content)
    requires i.lifecycle.Editable? && SemanticChange(Some(i.content), Some(content))
    ensures var events := [ServerWrites(WriteSource(i.revision, content, i.tags), i.time - 1, i.raw),
                           SnapshotArrives(1), GenerateClicked];
            && Runs(Mounted(i), events)
            && var w := After(Mounted(i), events);
               && w.hist == [i, Overwritten(i, content)]
               && |w.sent| == 1
               && w.sent[0].fire == Fire(PayloadOf(TargetDraft(i, Source)), i.revision + 1)
               && (forall o :: Admits(Last(w.hist), RequestGeneration(w.sent[0].fire.revision, o)))
               && (w.sent[0].sound <==> MeaningAt(i, Source) == MeaningAt(Overwritten(i, content), Source))
  {
    hide TargetDraft, Observe, MeaningOf, Ignores, SemanticChange, PayloadOf;
    var e := [ServerWrites(WriteSource(i.revision, content, i.tags), i.time - 1, i.raw), SnapshotArrives(1),
              GenerateClicked];
    var w0 := Mounted(i);
    MountedSource(i);
    var w1 := Step(w0, e[0]);
    assert w1.hist == [i, Overwritten(i, content)];
    OlderStampIsIgnored(w1.refs, i, content);
    var w2 := Step(w1, e[1]);
    var w3 := Step(w2, e[2]);
    assert Runs(w3, []) && After(w3, []) == w3;
    RunStep(w2, e[2], []);
    RunStep(w1, e[1], [e[2]]);
    RunStep(w0, e[0], [e[1], e[2]]);
    assert [e[1]] + [e[2]] == [e[1], e[2]] && [e[0]] + [e[1], e[2]] == e && [e[2]] + [] == [e[2]];
  }
}
