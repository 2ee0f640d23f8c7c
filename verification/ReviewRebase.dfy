/** A run in which every edit is safely pinned and a sibling rebase alone loses another writer's
    candidate: the evidence for the rebase is older than the revision it is held against.

    Each response is seen as a snapshot before the save it answers is finished. The first of them shows
    the other writer's version, stamped by a slower clock, and is refused for that. */
module ReviewRebase {
  import opened Prelude
  import opened ReviewServer
  import opened ReviewRefs
  import opened ReviewWorld
  import opened ReviewTheorems
  import opened ReviewSaves
  import opened ReviewFindings
  import opened ReviewProgress

  // ---------------------------------------------------------------- the scene

  /** An item, two spellings of its source, another candidate, and an edit of that candidate. */
  datatype Play = Play(i: Item, first: string, second: string, other: Content, p: Patch)

  function Sent(d: Draft): Content {
    Content(Some(d.text), Some(d.problemType), NullIfEmpty(d.graphDsl), Some(d.correctAnswer), Some(d.subject))
  }

  function Spelled(k: Play, text: string): Draft {
    TargetDraft(k.i, Source).(text := text)
  }

  /** The item stored after each of the four writes. */
  function H1(k: Play): Item {
    k.i.(content := Sent(Spelled(k, k.first)))
  }

  function H2(k: Play): Item {
    H1(k).(candidate := Some(k.other), revision := k.i.revision + 1, status := NeedsValidation, time := k.i.time - 1)
  }

  function H3(k: Play): Item {
    H2(k).(content := Sent(Spelled(k, k.second)), time := k.i.time)
  }

  function H4(k: Play): Item {
    H3(k).(candidate := k.i.candidate, revision := k.i.revision + 2)
  }

  /** A saved, ready item without graphs; the spellings differ in spaces only, the candidates in meaning. */
  predicate Staged(k: Play) {
    && k.i.lifecycle.Editable? && k.i.status.Ready? && k.i.candidate.Some?
    && k.i.content == Sent(TargetDraft(k.i, Source)) && Blank(TargetDraft(k.i, Source).graphDsl)
    && k.first != TargetDraft(k.i, Source).text && k.second != k.first && k.second != TargetDraft(k.i, Source).text
    && Squeeze(k.first) == Squeeze(TargetDraft(k.i, Source).text) == Squeeze(k.second)
    && MeaningAt(H2(k), Candidate) != MeaningAt(k.i, Candidate)
    && Blank(TargetDraft(H2(k), Candidate).graphDsl) && TextEdit(k.p)
  }

  function TextPatch(text: string): Patch {
    Patch(Some(text), None, None, None, None, None)
  }

  function Shows(k: Play, n: nat): Draft {
    if n == 0 then TargetDraft(k.i, Candidate) else TargetDraft(H2(k), Candidate)
  }

  lemma NullOrEmpty(s: string)
    ensures NullIfEmpty(s).GetOr("") == s
  {
  }

  /** What the stored items show and how they differ. */
  lemma StagedItems(k: Play)
    requires Staged(k)
    ensures TargetDraft(H1(k), Source) == Spelled(k, k.first) && TargetDraft(H2(k), Source) == Spelled(k, k.first)
    ensures TargetDraft(H3(k), Source) == Spelled(k, k.second) && TargetDraft(H4(k), Source) == Spelled(k, k.second)
    ensures TargetDraft(H3(k), Candidate) == Shows(k, 1) && MeaningAt(H3(k), Candidate) == MeaningAt(H2(k), Candidate)
    ensures Spelled(k, k.second) != TargetDraft(k.i, Source)
    ensures TargetDraft(H4(k), Candidate) == Shows(k, 0)
    ensures Shows(k, 0) != Shows(k, 1) && MeaningAt(H4(k), Candidate) == MeaningAt(k.i, Candidate)
    ensures !SemanticChange(Some(k.i.content), Some(H1(k).content))
            && !SemanticChange(Some(H2(k).content), Some(H3(k).content))
    ensures SemanticChange(k.i.candidate, Some(k.other)) && SemanticChange(Some(k.other), k.i.candidate)
    ensures Shows(k, 0).tags == k.i.tags == Spelled(k, k.first).tags == Spelled(k, k.second).tags
  {
    hide Squeeze;
    NullOrEmpty(TargetDraft(k.i, Source).graphDsl);
    if !SemanticChange(k.i.candidate, Some(k.other)) {
      SameCandidateSameMeaning(k.i, H2(k));
    }
  }

  /** One such scene: the source respelled with a space, the candidates `a` and `b`. */
  const SCENE := Play(Item(Content(Some("s"), Some("short-answer"), None, Some("1"), Some("math")), [],
                           Some(Letter("a")),
                           None, Ready, 1, 1, 0, Editable, 0, 0),
                      "s ", " s", Letter("b"), TextPatch("c"))

  function Letter(x: string): Content {
    Content(Some(x), Some("short-answer"), None, Some("1"), None)
  }

  lemma SceneIsStaged()
    ensures Staged(SCENE)
  {
    assert Squeeze("s") == "s" && Squeeze(" ") == "" && Squeeze("s ") == "s" + Squeeze(" ");
    assert " s"[1..] == "s" && "s "[1..] == " ";
    assert Squeeze("a") == "a" && Squeeze("b") == "b";
  }

  // ---------------------------------------------------------------- the buffers

  function Touched(b: Buffer, d: Draft): Buffer {
    b.(dirty := true, base := b.stamp, draft := Some(d))
  }

  function Quiet(s: Buffer, c: Buffer): Refs {
    Refs(s, c, None, None, false)
  }

  lemma MountedCalm(i: Item)
    requires i.lifecycle.Editable? && i.candidate.Some?
    ensures Mounted(i).refs == Quiet(Calm(TargetDraft(i, Source), TargetStamp(i, Source)),
                                     Calm(TargetDraft(i, Candidate), TargetStamp(i, Candidate)))
  {
    hide TargetDraft, TargetStamp, Mounted;
    MountedRefs(i);
  }

  lemma EditTouches(s: Buffer, c: Buffer, i: Item, t: Target, p: Patch)
    requires TextEdit(p)
    requires var b := if t.Source? then s else c; b.base.None? && b.stamp.Some? && b.draft.Some? && !b.rejected
    ensures Edit(Quiet(s, c), i, t, p)
            == if t.Source? then Quiet(Touched(s, p.ApplyTo(s.draft.value)), c)
               else Quiet(s, Touched(c, p.ApplyTo(c.draft.value)))
  {
    hide TargetDraft, TargetStamp;
  }

  lemma TimerSends(r: Refs, t: Target, n: nat)
    requires var b := r.Get(t);
             b.dirty && !b.conflict && !b.validating && !b.rejected && b.inFlight.None? && b.base.Some? && b.draft.Some?
             && Blank(b.draft.value.graphDsl)
    requires r.Get(t.Sibling()).inFlight.None?
    ensures var b := r.Get(t);
            Timer(r, t, n) ==
              (r.Put(t, b.(inFlight := Some(Save(n, b.base.value.revision, b.base.value.generation,
                                                 r.Get(t.Sibling()).server, b.draft.value)))),
               Some(Request(t, n, b.base.value.revision, b.draft.value)))
  {
    hide Blank;
  }

  /** A snapshot stamped by a slower clock changes nothing. */
  lemma SlowClockIgnored(r: Refs, j: Item)
    requires r.source.stamp.Some? && r.candidate.stamp.Some? && j.lifecycle.Editable?
    requires j.time < r.source.stamp.value.time && j.time < r.candidate.stamp.value.time
    ensures Observe(r, j, false) == r
  {
    hide TargetDraft;
  }

  /** The response to the first save: the source is clean again, at the other writer's revision. */
  lemma FirstResponse(d: Draft, before: Draft, stamp: Stamp, j: Item, shown: Draft, c: Buffer)
    requires TargetDraft(j, Source) == d && j.lifecycle.Editable? && j.revision == stamp.revision + 1
             && stamp.generation == 0
    requires j.time < stamp.time && c.base.None?
    ensures var s := Touched(Calm(before, stamp), d).(inFlight := Some(Save(0, stamp.revision, 0, Some(shown), d)));
            FinishSave(Quiet(s, c), Source, 0, Saved(Some(j)))
            == (Quiet(Calm(d, stamp.(revision := j.revision)).(ack := Some(Ack(d, Some(before)))), c), None)
  {
    hide TargetDraft, SiblingUntouched;
  }

  /** A snapshot of the second save with the other writer's candidate: the candidate adopts it, the
      saving source keeps its own. */
  lemma OtherVersionArrives(s: Buffer, j: Item, saved: Draft, before: Draft, was: Draft, stamp: Stamp)
    requires s.inFlight.Some? && s.dirty && s.base.Some? && !s.conflict && s.stamp == Some(TargetStamp(j, Source))
    requires s.ack == Some(Ack(saved, Some(before))) && TargetDraft(j, Source) != before
    requires j.lifecycle.Editable? && j.candidate.Some? && TargetDraft(j, Candidate) != was
    requires j.revision > stamp.revision && j.generation == stamp.generation && j.time == stamp.time
             && j.raw == stamp.raw
    ensures Observe(Quiet(s, Calm(was, stamp)), j, false)
            == Quiet(s.(ack := None, server := Some(TargetDraft(j, Source))),
                     Calm(TargetDraft(j, Candidate), TargetStamp(j, Candidate)))
  {
    hide TargetDraft;
  }

  /** A later snapshot while the source is being saved: both buffers keep their drafts. */
  lemma LaterVersionArrives(s: Buffer, c: Buffer, j: Item)
    requires s.inFlight.Some? && s.dirty && !s.conflict && s.ack.None? && s.stamp.Some?
    requires c.inFlight.None? && c.dirty && !c.conflict && c.ack.None? && c.stamp.Some?
    requires j.lifecycle.Editable? && j.candidate.Some?
    requires j.revision > s.stamp.value.revision && s.stamp.value.generation == 0
    requires j.time == s.stamp.value.time && j.raw == s.stamp.value.raw
    requires j.revision > c.stamp.value.revision && c.stamp.value.generation == j.generation
    requires j.time == c.stamp.value.time && j.raw == c.stamp.value.raw
    ensures Observe(Quiet(s, c), j, false)
            == Quiet(s.(stamp := Some(TargetStamp(j, Source)), server := Some(TargetDraft(j, Source))),
                     c.(stamp := Some(TargetStamp(j, Candidate)), server := Some(TargetDraft(j, Candidate))))
  {
    hide TargetDraft;
  }

  /** The response to the second save moves the candidate's base to a version its user never saw. */
  lemma SecondResponse(s: Buffer, c: Buffer, sent: Draft, j: Item, seen: Draft)
    requires s.dirty && !s.conflict && s.draft == Some(sent) && s.failures == 0
    requires s.stamp == Some(TargetStamp(j, Source)) && s.server == Some(sent)
    requires j.revision > 0 && s.inFlight == Some(Save(1, j.revision - 1, 0, Some(seen), sent))
    requires TargetDraft(j, Source) == sent && j.lifecycle.Editable? && j.candidate.Some?
    requires TargetDraft(j, Candidate) == seen && seen.tags == sent.tags
    requires c.dirty && !c.conflict && c.base.Some? && c.stamp == Some(TargetStamp(j, Candidate))
    requires c.base.value.revision == j.revision - 1 && c.base.value.generation == j.generation
    ensures var (r', fire) := FinishSave(Quiet(s, c), Source, 1, Saved(Some(j)));
            && fire.None? && r'.pendingTags.None? && r'.pendingGenerate.None? && !r'.generating
            && r'.source.inFlight.None?
            && r'.candidate == c.(base := Some(TargetStamp(j, Candidate)), stamp := Some(TargetStamp(j, Candidate)),
                                  server := Some(seen))
    ensures Owned(Quiet(s, c), Source, 1, j) && SiblingConcerned(Quiet(s, c), Candidate, Some(j))
    ensures SiblingUntouched(Quiet(s, c), Candidate, s.inFlight.value, j)
  {
    hide TargetDraft;
    assert seen.(tags := sent.tags) == seen;
  }

  // ---------------------------------------------------------------- one event of the run at a time

  lemma EditStep(w: World, s: Buffer, c: Buffer, t: Target, p: Patch)
    requires w.refs == Quiet(s, c) && TextEdit(p) && |w.hist| > 0 && w.shown < |w.hist|
    requires var b := w.refs.Get(t);
             b.base.None? && b.stamp.Some? && b.draft.Some? && b.server == b.draft && !b.rejected
    ensures var w', d := Step(w, UserEdits(t, p)), w.refs.Get(t).draft.value;
            && Enabled(w, UserEdits(t, p)) && Careful(w, UserEdits(t, p))
            && w'.refs == w.refs.Put(t, Touched(w.refs.Get(t), p.ApplyTo(d)))
            && w' == w.PutTrace(t, w'.Trace(t)).(refs := w'.refs) && w'.Trace(t) == w.Trace(t).(pin := w'.Trace(t).pin)
            && w'.Trace(t).pin.origin == MeaningOf(d, t)
  {
    hide TargetDraft, MeaningOf, Edit, TextEdit;
    EditTouches(s, c, w.hist[w.shown], t, p);
    assert SaveTarget(t, p) == t && !Locked(w.refs, t, p) by { TextIsNoTag(p); }
  }

  lemma TextIsNoTag(p: Patch)
    requires TextEdit(p)
    ensures !p.TagsOnly() && p.tags.None?
  {
  }

  lemma TimerStep(w: World, t: Target)
    requires var b := w.refs.Get(t);
             b.dirty && !b.conflict && !b.validating && !b.rejected && b.inFlight.None? && b.base.Some? && b.draft.Some?
             && Blank(b.draft.value.graphDsl)
    requires w.refs.Get(t.Sibling()).inFlight.None? && |w.hist| > 0 && w.shown < |w.hist|
    ensures var w', b, n := Step(w, TimerFires(t)), w.refs.Get(t), w.nextSeq;
            && Enabled(w, TimerFires(t)) && Careful(w, TimerFires(t))
            && w'.refs == w.refs.Put(t, b.(inFlight := Some(Save(n, b.base.value.revision, b.base.value.generation,
                                                                 w.refs.Get(t.Sibling()).server, b.draft.value))))
            && w'.hist == w.hist && w'.shown == w.shown && w'.nextSeq == n + 1
            && w'.calls == w.calls[n := Call(Request(t, n, b.base.value.revision, b.draft.value), w.Trace(t).pin, None)]
            && w'.Trace(t.Sibling()) == w.Trace(t.Sibling())
            && w'.Trace(t).evidence == w.refs.Get(t.Sibling()).stamp && w'.Trace(t).pin == w.Trace(t).pin
  {
    hide Blank, Timer;
    TimerSends(w.refs, t, w.nextSeq);
  }

  lemma WriteStep(w: World, op: Write, time: int, raw: int)
    requires |w.hist| > 0 && w.shown < |w.hist| && Admits(Last(w.hist), op)
    ensures var e := ServerWrites(op, time, raw);
            Enabled(w, e) && Careful(w, e) && Step(w, e) == w.(hist := w.hist + [Stored(Last(w.hist), op, time, raw)])
  {
    hide Admits, Stored;
  }

  lemma AcceptStep(w: World, n: nat, i: Item, d: Draft, time: int)
    requires |w.hist| > 0 && w.shown < |w.hist| && Last(w.hist) == i && i.lifecycle.Editable? && d.tags == i.tags
    requires n in w.calls && w.calls[n].accepted.None? && w.calls[n].request == Request(Source, n, i.revision, d)
    requires !SemanticChange(Some(i.content), Some(Sent(d)))
    ensures var e := SaveAccepted(n, i.tags, time, i.raw);
            && Enabled(w, e) && Careful(w, e)
            && Step(w, e) == w.(hist := w.hist + [i.(content := Sent(d), time := time)],
                                calls := w.calls[n := w.calls[n].(accepted := Some(|w.hist| - 1))])
  {
    hide SemanticChange;
  }

  lemma SnapshotStep(w: World, at: nat)
    requires at < |w.hist| && w.shown < |w.hist|
    ensures var e := SnapshotArrives(at); var w' := Step(w, e);
            && Enabled(w, e) && Careful(w, e)
            && w'.hist == w.hist && w'.calls == w.calls && w'.nextSeq == w.nextSeq && w'.shown == at
            && w'.refs == Observe(w.refs, w.hist[at], false)
            && w'.source.evidence == w.source.evidence && w'.candidate.pin == w.candidate.pin
  {
    hide Observe, Ignores;
  }

  lemma QuietReturnStep(w: World, n: nat, at: nat)
    requires at < |w.hist| && w.shown < |w.hist| && n in w.calls && w.calls[n].accepted.Some?
             && w.calls[n].accepted.value < at
    requires w.calls[n].request.target.Source? && !SiblingConcerned(w.refs, Candidate, Some(w.hist[at]))
    ensures var e := SaveReturns(n, at); var w' := Step(w, e);
            && Enabled(w, e) && Careful(w, e)
            && w'.hist == w.hist && w'.calls == w.calls && w'.nextSeq == w.nextSeq && w'.shown == w.shown
            && w'.refs == FinishSave(w.refs, Source, n, Saved(Some(w.hist[at]))).0
  {
    hide FinishSave, SiblingConcerned, SiblingUntouched, Disowned, MeaningOf, TargetDraft;
  }

  lemma RebaseStep(w: World, n: nat, at: nat)
    requires at < |w.hist| && w.shown < |w.hist| && n in w.calls && w.calls[n].accepted.Some?
             && w.calls[n].accepted.value < at
    requires w.calls[n].request.target.Source? && Owned(w.refs, Source, n, w.hist[at])
    requires SiblingConcerned(w.refs, Candidate, Some(w.hist[at]))
             && SiblingUntouched(w.refs, Candidate, w.refs.source.inFlight.value, w.hist[at])
    requires w.refs.candidate.base.value.revision != w.hist[at].revision
    requires w.source.evidence.Some? && w.source.evidence.value.revision != w.refs.source.inFlight.value.revision
    ensures var e := SaveReturns(n, at); var w' := Step(w, e);
            && Enabled(w, e) && !Careful(w, e)
            && w'.hist == w.hist && w'.calls == w.calls && w'.nextSeq == w.nextSeq && w'.shown == w.shown
            && w'.refs == FinishSave(w.refs, Source, n, Saved(Some(w.hist[at]))).0
            && w'.candidate.pin.origin == w.candidate.pin.origin
  {
    hide FinishSave, SiblingConcerned, SiblingUntouched, Disowned, MeaningOf, TargetDraft;
  }

  // ---------------------------------------------------------------- the run

  predicate At(w: World, hist: seq<Item>, s: Buffer, c: Buffer, shown: nat, n: nat) {
    w.hist == hist && w.refs == Quiet(s, c) && w.shown == shown && w.nextSeq == n
  }

  /** A respelled source is saved while another writer, whose clock is slow, replaces the candidate. */
  function FirstRound(k: Play): seq<Event> {
    [UserEdits(Source, TextPatch(k.first)), TimerFires(Source), SaveAccepted(0, k.i.tags, k.i.time, k.i.raw),
     ServerWrites(WriteCandidate(k.i.revision, k.other, None), k.i.time - 1, k.i.raw),
     SnapshotArrives(2), SaveReturns(0, 2)]
  }

  /** It is respelled again and accepted; the other candidate arrives and is edited; the other writer
      takes it back, and the response shows that. */
  function SecondRound(k: Play): seq<Event>
    requires k.i.candidate.Some?
  {
    [UserEdits(Source, TextPatch(k.second)), TimerFires(Source), SaveAccepted(1, k.i.tags, k.i.time, k.i.raw),
     SnapshotArrives(3), UserEdits(Candidate, k.p),
     ServerWrites(WriteCandidate(k.i.revision + 1, k.i.candidate.value, None), k.i.time, k.i.raw), SnapshotArrives(4)]
  }

  function Source0(k: Play): Buffer {
    Touched(Calm(TargetDraft(k.i, Source), TargetStamp(k.i, Source)), Spelled(k, k.first)).(
      inFlight := Some(Save(0, k.i.revision, 0, Some(Shows(k, 0)), Spelled(k, k.first))))
  }

  function SourceA(k: Play): Buffer {
    Calm(Spelled(k, k.first), TargetStamp(H3(k), Source)).(
      ack := Some(Ack(Spelled(k, k.first), Some(TargetDraft(k.i, Source)))))
  }

  function CandidateA(k: Play): Buffer {
    Calm(Shows(k, 0), TargetStamp(k.i, Candidate))
  }

  ghost predicate AfterFirst(k: Play, w: World) {
    At(w, [k.i, H1(k), H2(k)], SourceA(k), CandidateA(k), 2, 1)
  }

  lemma FirstEdit(k: Play)
    requires Staged(k)
    ensures var w0, e := Mounted(k.i), FirstRound(k);
            && Enabled(w0, e[0]) && Careful(w0, e[0])
            && var w1 := Step(w0, e[0]);
               && Enabled(w1, e[1]) && Careful(w1, e[1])
               && var w2 := Step(w1, e[1]);
                  && At(w2, [k.i], Source0(k), CandidateA(k), 0, 1) && 0 in w2.calls && w2.calls[0].accepted.None?
                  && w2.calls[0].request == Request(Source, 0, k.i.revision, Spelled(k, k.first))
  {
    hide TargetDraft, Mounted, Step, Enabled, Careful, Blank;
    MountedCalm(k.i);
    MountedStart(k.i);
    var w0, e := Mounted(k.i), FirstRound(k);
    EditStep(w0, Calm(TargetDraft(k.i, Source), TargetStamp(k.i, Source)), CandidateA(k), Source, TextPatch(k.first));
    TimerStep(Step(w0, e[0]), Source);
  }

  lemma MountedStart(i: Item)
    ensures var w := Mounted(i); w.hist == [i] && w.shown == 0 && w.nextSeq == 0 && w.calls == map[]
  {
    hide Observe;
  }

  lemma CandidateWrite(i: Item, c: Content, time: int)
    requires i.lifecycle.Editable? && CandidateEditable(i.status) && SemanticChange(i.candidate, Some(c))
    ensures var op := WriteCandidate(i.revision, c, None);
            && Admits(i, op)
            && Stored(i, op, time, i.raw)
               == i.(candidate := Some(c), revision := i.revision + 1, status := NeedsValidation, time := time)
  {
    hide SemanticChange;
  }

  lemma FirstWrites(k: Play, w: World)
    requires Staged(k) && w.hist == [k.i] && w.shown == 0
    requires 0 in w.calls && w.calls[0].accepted.None?
    requires w.calls[0].request == Request(Source, 0, k.i.revision, Spelled(k, k.first))
    ensures var e := FirstRound(k);
            && Enabled(w, e[2]) && Careful(w, e[2])
            && var w1 := Step(w, e[2]);
               && Enabled(w1, e[3]) && Careful(w1, e[3])
               && var w2 := Step(w1, e[3]);
                  && w2.hist == [k.i, H1(k), H2(k)] && w2.refs == w.refs && w2.shown == 0 && w2.nextSeq == w.nextSeq
                  && 0 in w2.calls && w2.calls[0].accepted == Some(0) && w2.calls[0].request == w.calls[0].request
  {
    hide TargetDraft, Step, Enabled, Careful, SemanticChange, Blank, Stored, Admits, Spelled, MeaningAt;
    StagedItems(k);
    AcceptStep(w, 0, k.i, Spelled(k, k.first), k.i.time);
    CandidateWrite(H1(k), k.other, k.i.time - 1);
    WriteStep(Step(w, FirstRound(k)[2]), WriteCandidate(k.i.revision, k.other, None), k.i.time - 1, k.i.raw);
  }

  lemma FirstAnswer(k: Play, w: World)
    requires Staged(k) && 0 in w.calls && w.calls[0].accepted == Some(0) && w.calls[0].request.target.Source?
    requires At(w, [k.i, H1(k), H2(k)], Source0(k), CandidateA(k), 0, 1)
    ensures var e := FirstRound(k);
            && Enabled(w, e[4]) && Careful(w, e[4])
            && var w1 := Step(w, e[4]);
               Enabled(w1, e[5]) && Careful(w1, e[5]) && AfterFirst(k, Step(w1, e[5]))
  {
    hide TargetDraft, Step, Enabled, Careful, SemanticChange, Blank, FinishSave, MeaningAt, Observe;
    StagedItems(k);
    SnapshotStep(w, 2);
    SlowClockIgnored(w.refs, H2(k));
    FirstResponse(Spelled(k, k.first), TargetDraft(k.i, Source), TargetStamp(k.i, Source), H2(k), Shows(k, 0),
                  CandidateA(k));
    QuietReturnStep(Step(w, SnapshotArrives(2)), 0, 2);
  }

  lemma FirstRoundRuns(k: Play)
    requires Staged(k)
    ensures Runs(Mounted(k.i), FirstRound(k)) && CarefulRun(Mounted(k.i), FirstRound(k))
    ensures AfterFirst(k, After(Mounted(k.i), FirstRound(k)))
  {
    hide TargetDraft, Mounted, Step, Enabled, Careful, SemanticChange, Blank, TargetStamp, Observe, FinishSave,
         MeaningAt, Source0, CandidateA, AfterFirst;
    var w0, e := Mounted(k.i), FirstRound(k);
    FirstEdit(k);
    var w1 := Step(w0, e[0]);
    var w2 := Step(w1, e[1]);
    FirstWrites(k, w2);
    var w3 := Step(w2, e[2]);
    var w4 := Step(w3, e[3]);
    FirstAnswer(k, w4);
    var w5 := Step(w4, e[4]);
    CarefulTwo(w4, e[4], e[5]);
    CarefulTwo(w2, e[2], e[3]);
    CarefulTwo(w0, e[0], e[1]);
    CarefulOn(w2, [e[2], e[3]], [e[4], e[5]]);
    CarefulOn(w0, [e[0], e[1]], [e[2], e[3]] + [e[4], e[5]]);
    assert [e[0], e[1]] + ([e[2], e[3]] + [e[4], e[5]]) == e;
  }

  /** Careful runs made of careful pieces. */
  lemma CarefulOn(w: World, first: seq<Event>, second: seq<Event>)
    requires Runs(w, first) && CarefulRun(w, first) && Runs(After(w, first), second)
             && CarefulRun(After(w, first), second)
    ensures Runs(w, first + second) && CarefulRun(w, first + second)
    ensures After(w, first + second) == After(After(w, first), second)
  {
    RunsJoin(w, first, second);
    CarefulJoin(w, first, second);
  }

  lemma CarefulTwo(w: World, a: Event, b: Event)
    requires Enabled(w, a) && Careful(w, a) && Enabled(Step(w, a), b) && Careful(Step(w, a), b)
    ensures Runs(w, [a, b]) && CarefulRun(w, [a, b]) && After(w, [a, b]) == Step(Step(w, a), b)
  {
    hide Step, Enabled, Careful;
    CarefulEnds(Step(Step(w, a), b));
    CarefulThen(Step(w, a), b, []);
    CarefulThen(w, a, [b]);
    assert [b] + [] == [b] && [a] + [b] == [a, b];
  }

  // The second round, from where the first has left the editor.

  /** The source with its second save out, before and after the snapshots it sees meanwhile. */
  function SourceB(k: Play): Buffer {
    Touched(SourceA(k), Spelled(k, k.second)).(
      inFlight := Some(Save(1, k.i.revision + 1, 0, Some(Shows(k, 0)), Spelled(k, k.second))))
  }

  function SourceC(k: Play, j: Item): Buffer {
    SourceB(k).(ack := None, server := Some(Spelled(k, k.second)), stamp := Some(TargetStamp(j, Source)))
  }

  function CandidateB(k: Play): Buffer {
    Touched(Calm(Shows(k, 1), TargetStamp(H3(k), Candidate)), k.p.ApplyTo(Shows(k, 1)))
  }

  function CandidateC(k: Play): Buffer {
    CandidateB(k).(server := Some(Shows(k, 0)), stamp := Some(TargetStamp(H4(k), Candidate)))
  }

  /** The second save, accepted or not. */
  ghost predicate SecondCall(k: Play, w: World, accepted: Option<nat>) {
    && 1 in w.calls && w.calls[1].request == Request(Source, 1, k.i.revision + 1, Spelled(k, k.second))
    && w.calls[1].accepted == accepted && w.source.evidence == Some(TargetStamp(k.i, Candidate))
  }

  lemma SecondSend(k: Play, w: World)
    requires Staged(k) && AfterFirst(k, w)
    ensures var e := SecondRound(k);
            && Enabled(w, e[0]) && Careful(w, e[0])
            && var w1 := Step(w, e[0]);
               && Enabled(w1, e[1]) && Careful(w1, e[1])
               && var w2 := Step(w1, e[1]);
                  At(w2, [k.i, H1(k), H2(k)], SourceB(k), CandidateA(k), 2, 2) && SecondCall(k, w2, None)
  {
    hide TargetDraft, Step, Enabled, Careful, SemanticChange, Blank, H1, MeaningAt;
    var e := SecondRound(k);
    EditStep(w, SourceA(k), CandidateA(k), Source, TextPatch(k.second));
    TimerStep(Step(w, e[0]), Source);
  }

  lemma SecondAccepted(k: Play, w: World)
    requires Staged(k) && At(w, [k.i, H1(k), H2(k)], SourceB(k), CandidateA(k), 2, 2) && SecondCall(k, w, None)
    ensures var e := SecondRound(k);
            && Enabled(w, e[2]) && Careful(w, e[2])
            && var w1 := Step(w, e[2]);
               && Enabled(w1, e[3]) && Careful(w1, e[3])
               && var w2 := Step(w1, e[3]);
                  && At(w2, [k.i, H1(k), H2(k), H3(k)], SourceC(k, H3(k)),
                        Calm(Shows(k, 1), TargetStamp(H3(k), Candidate)), 3, 2)
                  && SecondCall(k, w2, Some(2))
  {
    hide TargetDraft, Step, Enabled, Careful, SemanticChange, Blank, Spelled, MeaningAt, Observe;
    StagedItems(k);
    AcceptStep(w, 1, H2(k), Spelled(k, k.second), k.i.time);
    var w1 := Step(w, SecondRound(k)[2]);
    SnapshotStep(w1, 3);
    OtherVersionArrives(SourceB(k), H3(k), Spelled(k, k.first), TargetDraft(k.i, Source), Shows(k, 0),
                        TargetStamp(k.i, Candidate));
  }

  /** The second save is out and accepted, and the other candidate has been edited. */
  ghost predicate BothEdited(k: Play, w: World) {
    && At(w, [k.i, H1(k), H2(k), H3(k)], SourceC(k, H3(k)), CandidateB(k), 3, 2)
    && SecondCall(k, w, Some(2)) && w.candidate.pin.origin == MeaningAt(H2(k), Candidate)
  }

  lemma OtherEdited(k: Play, w: World)
    requires Staged(k) && SecondCall(k, w, Some(2))
    requires At(w, [k.i, H1(k), H2(k), H3(k)], SourceC(k, H3(k)),
                Calm(Shows(k, 1), TargetStamp(H3(k), Candidate)), 3, 2)
    ensures var e := UserEdits(Candidate, k.p); Enabled(w, e) && Careful(w, e) && BothEdited(k, Step(w, e))
  {
    hide TargetDraft, Step, Enabled, Careful, SemanticChange, Blank, MeaningOf, Spelled;
    EditStep(w, SourceC(k, H3(k)), Calm(Shows(k, 1), TargetStamp(H3(k), Candidate)), Candidate, k.p);
  }

  ghost predicate AfterSecond(k: Play, w: World) {
    && At(w, [k.i, H1(k), H2(k), H3(k), H4(k)], SourceC(k, H4(k)), CandidateC(k), 4, 2)
    && SecondCall(k, w, Some(2)) && w.candidate.pin.origin == MeaningAt(H2(k), Candidate)
  }

  lemma TakenBack(k: Play, w: World)
    requires Staged(k) && BothEdited(k, w)
    ensures var e := SecondRound(k);
            && Enabled(w, e[5]) && Careful(w, e[5])
            && var w1 := Step(w, e[5]);
               && Enabled(w1, e[6]) && Careful(w1, e[6]) && AfterSecond(k, Step(w1, e[6]))
  {
    hide TargetDraft, Step, Enabled, Careful, SemanticChange, Blank, Stored, Admits, Spelled, MeaningAt, Observe;
    StagedItems(k);
    CandidateWrite(H3(k), k.i.candidate.value, k.i.time);
    WriteStep(w, WriteCandidate(k.i.revision + 1, k.i.candidate.value, None), k.i.time, k.i.raw);
    var w1 := Step(w, SecondRound(k)[5]);
    SnapshotStep(w1, 4);
    LaterVersionArrives(SourceC(k, H3(k)), CandidateB(k), H4(k));
  }

  lemma SecondRoundRuns(k: Play, w0: World)
    requires Staged(k) && AfterFirst(k, w0)
    ensures Runs(w0, SecondRound(k)) && CarefulRun(w0, SecondRound(k)) && AfterSecond(k, After(w0, SecondRound(k)))
  {
    hide TargetDraft, Step, Enabled, Careful, Staged, At, SecondCall, BothEdited, AfterSecond, AfterFirst;
    assert k.i.candidate.Some? by { StagedHasCandidate(k); }
    var e := SecondRound(k);
    SecondSend(k, w0);
    var w2 := Step(Step(w0, e[0]), e[1]);
    SecondAccepted(k, w2);
    var w4 := Step(Step(w2, e[2]), e[3]);
    OtherEdited(k, w4);
    var w5 := Step(w4, e[4]);
    TakenBack(k, w5);
    CarefulTwo(w5, e[5], e[6]);
    CarefulThen(w4, e[4], [e[5], e[6]]);
    CarefulTwo(w2, e[2], e[3]);
    CarefulTwo(w0, e[0], e[1]);
    var last := [e[4]] + [e[5], e[6]];
    CarefulOn(w2, [e[2], e[3]], last);
    CarefulOn(w0, [e[0], e[1]], [e[2], e[3]] + last);
    assert [e[0], e[1]] + ([e[2], e[3]] + last) == e;
  }

  lemma StagedHasCandidate(k: Play)
    requires Staged(k)
    ensures k.i.candidate.Some?
  {
  }

  // ---------------------------------------------------------------- what is lost

  /** The response moves the candidate's base, and the candidate is saved against it. */
  lemma RebaseThenSend(k: Play, w: World, tags: seq<string>)
    requires Staged(k) && AfterSecond(k, w)
    ensures Enabled(w, SaveReturns(1, 4)) && !Careful(w, SaveReturns(1, 4))
    ensures var w1 := Step(w, SaveReturns(1, 4));
            && Enabled(w1, TimerFires(Candidate))
            && var w2 := Step(w1, TimerFires(Candidate));
               && WouldAdmit(w2, 2, tags) && Last(w2.hist) == H4(k)
               && w2.calls[2].request.target.Candidate? && w2.calls[2].pin.origin == MeaningAt(H2(k), Candidate)
  {
    hide TargetDraft, Step, Enabled, Careful, SemanticChange, Blank, FinishSave, MeaningAt, Owned, SiblingConcerned,
         SiblingUntouched, Spelled;
    StagedItems(k);
    SecondResponse(SourceC(k, H4(k)), CandidateC(k), Spelled(k, k.second), H4(k), Shows(k, 0));
    RebaseStep(w, 1, 4);
    var w1 := Step(w, SaveReturns(1, 4));
    PatchKeepsGraph(k.p, Shows(k, 1));
    TimerStep(w1, Candidate);
  }

  lemma PatchKeepsGraph(p: Patch, d: Draft)
    requires TextEdit(p)
    ensures p.ApplyTo(d).graphDsl == d.graphDsl
  {
  }

  /** In every such scene all edits are safely pinned and every earlier event is careful; the response
      of the second save moves the candidate's base, the server admits the candidate's save, and what
      it overwrites is not what its user saw. */
  lemma UnsafeRebaseLosesCandidate(k: Play, tags: seq<string>)
    requires Staged(k)
    ensures var careful := FirstRound(k) + SecondRound(k);
            var events := careful + [SaveReturns(1, 4), TimerFires(Candidate)];
            && Runs(Mounted(k.i), careful) && CarefulRun(Mounted(k.i), careful)
            && Runs(Mounted(k.i), events)
            && var w := After(Mounted(k.i), events);
               && WouldAdmit(w, 2, tags) && w.calls[2].request.target.Candidate?
               && !OverwritesOnly(Last(w.hist), Candidate, w.calls[2].pin.origin)
  {
    hide TargetDraft, Step, Enabled, Careful, MeaningAt, Runs, After, CarefulRun, AfterSecond, AfterFirst, Admits,
         RequestWrite, Mounted;
    FirstRoundRuns(k);
    var w0, first, second := Mounted(k.i), FirstRound(k), SecondRound(k);
    var w1 := After(w0, first);
    SecondRoundRuns(k, w1);
    CarefulOn(w0, first, second);
    var w2 := After(w1, second);
    RebaseThenSend(k, w2, tags);
    StagedItems(k);
    var last := [SaveReturns(1, 4), TimerFires(Candidate)];
    LastTwo(w2, last[0], last[1]);
    RunsJoin(w0, first + second, last);
  }

  lemma LastTwo(w: World, a: Event, b: Event)
    requires Enabled(w, a) && Enabled(Step(w, a), b)
    ensures Runs(w, [a, b]) && After(w, [a, b]) == Step(Step(w, a), b)
  {
    hide Step, Enabled;
    CarefulEnds(Step(Step(w, a), b));
    RunStep(Step(w, a), b, []);
    RunStep(w, a, [b]);
    assert [b] + [] == [b] && [a] + [b] == [a, b];
  }

  lemma {:induction false} CarefulJoin(w: World, first: seq<Event>, second: seq<Event>)
    requires Runs(w, first) && Runs(After(w, first), second) && Runs(w, first + second)
    requires CarefulRun(w, first) && CarefulRun(After(w, first), second)
    ensures CarefulRun(w, first + second)
    decreases |first|
  {
    hide Step, Enabled, Careful;
    if first == [] {
      assert first + second == second;
    } else {
      assert (first + second)[1..] == first[1..] + second;
      CarefulJoin(Step(w, first[0]), first[1..], second);
    }
  }
}
