/** Left alone, an edit reaches the server and its buffer becomes clean: the runs the safety results
    speak about are not empty. */
module ReviewProgress {
  import opened Prelude
  import opened ReviewServer
  import opened ReviewRefs
  import opened ReviewWorld
  import opened ReviewTheorems
  import opened ReviewLaws
  import opened ReviewFindings

  /** An edit of any fields but the graph and the tags. */
  predicate PlainEdit(p: Patch) {
    p.graphDsl.None? && p.tags.None?
  }

  function Edited(i: Item, p: Patch): Draft {
    p.ApplyTo(TargetDraft(i, Source))
  }

  /** An edit, the timer, the server's acceptance and its response. */
  function Undisturbed(i: Item, p: Patch): seq<Event> {
    [UserEdits(Source, p), TimerFires(Source), SaveAccepted(0, Edited(i, p).tags, i.time + 1, i.raw), SaveReturns(0, 1)]
  }

  /** The draft is out for saving against the revision it was edited on. */
  predicate Out(w: World, i: Item, d: Draft) {
    && |w.hist| > 0 && w.hist[0] == i && w.shown == 0 && |w.sent| == 0
    && 0 in w.calls && w.calls[0] == Call(Request(Source, 0, i.revision, d), w.source.pin, None)
    && w.source.pin.sound && w.source.pin.origin == MeaningAt(i, Source)
    && var b := w.refs.source;
       && b.dirty && !b.conflict && b.draft == Some(d)
       && b.stamp == Some(TargetStamp(i, Source)) && b.base == b.stamp
       && b.inFlight.Some? && b.inFlight.value.(siblingDraft := None) == Save(0, i.revision, 0, None, d)
       && w.refs.candidate.base.None? && w.refs.pendingGenerate.None?
  }

  /** The item the server stores. */
  function Landed(i: Item, d: Draft): Item
    requires i.lifecycle.Editable?
  {
    Stored(i, RequestWrite(i, Request(Source, 0, i.revision, d), d.tags), i.time + 1, i.raw)
  }

  lemma StoredShowsSent(i: Item, d: Draft)
    requires i.lifecycle.Editable?
    ensures var j := Landed(i, d);
            && TargetDraft(j, Source) == d && j.lifecycle.Editable? && j.time == i.time + 1 && j.raw == i.raw
            && i.revision <= j.revision <= i.revision + 1
  {
    hide SemanticChange;
  }

  lemma EditThenTimer(i: Item, p: Patch)
    requires i.lifecycle.Editable? && PlainEdit(p) && Blank(TargetDraft(i, Source).graphDsl)
    ensures var w0, e := Mounted(i), Undisturbed(i, p);
            && Enabled(w0, e[0]) && Careful(w0, e[0])
            && Enabled(Step(w0, e[0]), e[1]) && Careful(Step(w0, e[0]), e[1])
            && Out(Step(Step(w0, e[0]), e[1]), i, Edited(i, p)) && Step(Step(w0, e[0]), e[1]).hist == [i]
  {
    hide TargetDraft, MeaningOf, Blank, Observe, Idle;
    MountedBoth(i);
    var w0 := Mounted(i);
    var w1 := Step(w0, UserEdits(Source, p));
    assert Idle(w0.refs.source) && Idle(w0.refs.candidate);
    EditedSource(w0, i, p);
    TimerSendsSource(w1, i, Edited(i, p));
  }

  lemma MountedBoth(i: Item)
    requires i.lifecycle.Editable?
    ensures var r := Mounted(i).refs;
            && Idle(r.source) && Idle(r.candidate) && !r.generating && r.pendingGenerate.None? && r.pendingTags.None?
            && r.source.server == Some(TargetDraft(i, Source)) && r.source.draft == r.source.server
            && r.source.stamp == Some(TargetStamp(i, Source))
  {
    hide TargetDraft, TargetStamp, Mounted;
    MountedRefs(i);
  }

  /** A source with one edit on it, nothing else going on. */
  predicate Waiting(w: World, i: Item, d: Draft) {
    && |w.hist| > 0 && w.hist[0] == i && w.shown == 0 && |w.sent| == 0 && w.calls == map[] && w.nextSeq == 0
    && w.source.pin.sound && w.source.pin.origin == MeaningAt(i, Source)
    && var b := w.refs.source;
       && b.dirty && !b.conflict && !b.rejected && !b.validating && b.inFlight.None? && b.draft == Some(d)
       && b.stamp == Some(TargetStamp(i, Source)) && b.base == b.stamp
       && w.refs.candidate.base.None? && w.refs.candidate.inFlight.None? && w.refs.pendingGenerate.None?
  }

  lemma EditedSource(w: World, i: Item, p: Patch)
    requires w == Mounted(i) && PlainEdit(p) && i.lifecycle.Editable?
    requires Idle(w.refs.source) && Idle(w.refs.candidate) && !w.refs.generating && w.refs.pendingGenerate.None?
    requires w.refs.source.server == Some(TargetDraft(i, Source)) && w.refs.source.draft == w.refs.source.server
    requires w.refs.source.stamp == Some(TargetStamp(i, Source))
    ensures Waiting(Step(w, UserEdits(Source, p)), i, Edited(i, p)) && Careful(w, UserEdits(Source, p))
    ensures Step(w, UserEdits(Source, p)).hist == w.hist
  {
    hide TargetDraft, MeaningOf, Observe;
  }

  lemma TimerSendsSource(w: World, i: Item, d: Draft)
    requires Waiting(w, i, d) && Blank(d.graphDsl)
    ensures Enabled(w, TimerFires(Source)) && Out(Step(w, TimerFires(Source)), i, d)
    ensures Step(w, TimerFires(Source)).hist == w.hist
  {
    hide Blank, TargetDraft, MeaningAt;
  }

  lemma AcceptedSave(w: World, i: Item, d: Draft)
    requires i.lifecycle.Editable? && Out(w, i, d) && w.hist == [i]
    ensures var e2 := SaveAccepted(0, d.tags, i.time + 1, i.raw);
            && Enabled(w, e2) && Careful(w, e2)
            && var w1 := Step(w, e2);
               && w1.hist == [i, Landed(i, d)] && w1.refs == w.refs && w1.shown == 0
               && 0 in w1.calls && w1.calls[0].request == w.calls[0].request && w1.calls[0].accepted == Some(0)
  {
    hide TargetDraft, Stored, MeaningAt, MeaningOf;
  }

  /** The response to the save that is out, on the refs alone. */
  lemma OwnResponse(r: Refs, i: Item, j: Item, d: Draft)
    requires TargetDraft(j, Source) == d && j.lifecycle.Editable? && i.revision <= j.revision <= i.revision + 1
    requires j.time > i.time && r.candidate.base.None? && r.pendingGenerate.None?
    requires var b := r.source;
             b.dirty && !b.conflict && b.draft == Some(d) && b.stamp == Some(TargetStamp(i, Source))
             && b.inFlight.Some? && b.inFlight.value.(siblingDraft := None) == Save(0, i.revision, 0, None, d)
    ensures var b' := FinishSave(r, Source, 0, Saved(Some(j))).0.source;
            !b'.dirty && !b'.conflict && b'.inFlight.None?
    ensures !SiblingConcerned(r, Candidate, Some(j))
  {
    hide TargetDraft, SiblingUntouched, MarkConflict, Rebase;
    var save := r.source.inFlight.value;
    assert IsStale(TargetStamp(i, Source), Some(TargetStamp(j, Source)));
    assert !Disowned(r.source, Source, save, Some(j));
  }

  lemma ResponseCleans(w: World, i: Item, j: Item, d: Draft)
    requires w.hist == [i, j] && w.shown == 0 && 0 in w.calls && w.calls[0].request.target.Source?
             && w.calls[0].accepted == Some(0)
    requires var b' := FinishSave(w.refs, Source, 0, Saved(Some(j))).0.source;
             !b'.dirty && !b'.conflict && b'.inFlight.None?
    requires !SiblingConcerned(w.refs, Candidate, Some(j))
    ensures Enabled(w, SaveReturns(0, 1)) && Careful(w, SaveReturns(0, 1))
    ensures var w' := Step(w, SaveReturns(0, 1));
            w'.hist == w.hist && !w'.refs.source.dirty && !w'.refs.source.conflict && w'.refs.source.inFlight.None?
  {
    hide TargetDraft, FinishSave, Return, SiblingConcerned, SiblingUntouched, SafeToRebase, MeaningOf;
    ReturnRefs(w, 0, 1);
    ReturnKeepsHistory(w, 0, 1);
  }

  lemma ReturnKeepsHistory(w: World, n: nat, at: nat)
    requires n in w.calls && at < |w.hist|
    ensures Return(w, n, at).hist == w.hist
  {
    hide FinishSave, Disowned, SiblingConcerned, SiblingUntouched, SafeToRebase, MeaningOf, TargetDraft;
  }

  /** What the server stores of such an edit, field by field. */
  predicate Holds(j: Item, i: Item, p: Patch) {
    && j.content.text == (if p.text.Some? then p.text else Some(i.content.text.GetOr("")))
    && j.content.problemType == (if p.problemType.Some? then p.problemType
                                 else Some(i.content.problemType.GetOr("short-answer")))
    && j.content.correctAnswer == (if p.correctAnswer.Some? then p.correctAnswer
                                   else Some(i.content.correctAnswer.GetOr("")))
    && j.content.subject == (if p.subject.Some? then p.subject else Some(i.content.subject.GetOr("math")))
    && j.content.graphDsl.GetOr("") == i.content.graphDsl.GetOr("") && j.tags == i.tags
  }

  lemma EditedIsHeld(i: Item, p: Patch)
    requires i.lifecycle.Editable? && PlainEdit(p)
    ensures Holds(Landed(i, Edited(i, p)), i, p)
  {
    hide SemanticChange;
  }

  /** For every editable item with no graph and every edit of its source but one of the graph or the
      tags, there is a careful run in which the save goes out with a sound pin, the server admits it,
      stores the given fields and leaves the others as they were, and the response leaves the buffer
      clean. */
  lemma UndisturbedEditLands(i: Item, p: Patch)
    requires i.lifecycle.Editable? && PlainEdit(p) && Blank(TargetDraft(i, Source).graphDsl)
    ensures var w0, e, d := Mounted(i), Undisturbed(i, p), Edited(i, p);
            && Runs(w0, e) && CarefulRun(w0, e)
            && Runs(w0, e[..2]) && WouldAdmit(After(w0, e[..2]), 0, d.tags) && After(w0, e[..2]).calls[0].pin.sound
            && var w := After(w0, e);
               && |w.hist| == 2 && TargetDraft(w.hist[1], Source) == d && Holds(w.hist[1], i, p)
               && !w.refs.source.dirty && !w.refs.source.conflict && w.refs.source.inFlight.None?
  {
    hide TargetDraft, MeaningOf, Blank, Step, Enabled, Careful, Mounted, PlainEdit, Holds;
    EditedIsHeld(i, p);
    var w0, e, d := Mounted(i), Undisturbed(i, p), Edited(i, p);
    EditThenTimer(i, p);
    var w1 := Step(w0, e[0]);
    var w2 := Step(w1, e[1]);
    AcceptedSave(w2, i, d);
    StoredShowsSent(i, d);
    var w3 := Step(w2, e[2]);
    OwnResponse(w2.refs, i, Landed(i, d), d);
    ResponseCleans(w3, i, Landed(i, d), d);
    var w4 := Step(w3, e[3]);
    CarefulEnds(w4);
    CarefulThen(w3, e[3], []);
    CarefulThen(w2, e[2], [e[3]]);
    CarefulThen(w1, e[1], [e[2], e[3]]);
    CarefulThen(w0, e[0], [e[1], e[2], e[3]]);
    assert [e[3]] + [] == [e[3]] && [e[2]] + [e[3]] == [e[2], e[3]] && [e[1]] + [e[2], e[3]] == [e[1], e[2], e[3]]
           && [e[0]] + [e[1], e[2], e[3]] == e;
    CarefulEnds(w2);
    CarefulThen(w1, e[1], []);
    CarefulThen(w0, e[0], [e[1]]);
    assert [e[1]] + [] == [e[1]] && [e[0]] + [e[1]] == e[..2];
  }

  lemma CarefulEnds(w: World)
    ensures Runs(w, []) && CarefulRun(w, []) && After(w, []) == w
  {
  }

  lemma CarefulThen(w: World, e: Event, rest: seq<Event>)
    requires Enabled(w, e) && Careful(w, e) && Runs(Step(w, e), rest) && CarefulRun(Step(w, e), rest)
    ensures Runs(w, [e] + rest) && CarefulRun(w, [e] + rest) && After(w, [e] + rest) == After(Step(w, e), rest)
  {
    hide Step, Enabled, Careful;
    assert ([e] + rest)[1..] == rest;
  }
}
