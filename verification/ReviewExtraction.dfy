/** The one write that changes a source at an unchanged revision: an extraction result arriving between
    an edit and its save. */
module ReviewExtraction {
  import opened Prelude
  import opened ReviewServer
  import opened ReviewRefs
  import opened ReviewWorld
  import opened ReviewTheorems
  import opened ReviewFindings
  import opened ReviewProgress

  /** The item once the extraction has been repeated. */
  function Reread(i: Item, read: Content, tags: seq<string>): Item {
    i.(content := read, tags := tags, time := i.time + 1,
       readings := if SemanticChange(Some(i.content), Some(read)) then i.readings + 1 else i.readings)
  }

  function RereadRun(i: Item, p: Patch, read: Content, tags: seq<string>): seq<Event> {
    [UserEdits(Source, p), ServerWrites(Extract(read, tags), i.time + 1, i.raw), TimerFires(Source)]
  }

  lemma RereadSteps(i: Item, p: Patch, read: Content, tags: seq<string>)
    requires i.lifecycle.Editable? && i.status.NotRequested? && TextEdit(p) && Blank(TargetDraft(i, Source).graphDsl)
    ensures var w0, e := Mounted(i), RereadRun(i, p, read, tags);
            && Enabled(w0, e[0]) && Careful(w0, e[0])
            && Enabled(Step(w0, e[0]), e[1]) && Enabled(Step(Step(w0, e[0]), e[1]), e[2])
            && var w := Step(Step(Step(w0, e[0]), e[1]), e[2]);
               w.hist == [i, Reread(i, read, tags)] && Out(w, i, Edited(i, p))
  {
    hide TargetDraft, MeaningOf, MeaningAt, Blank, Observe, Idle, SemanticChange;
    MountedBoth(i);
    var w0 := Mounted(i);
    EditedSource(w0, i, p);
    var w1 := Step(w0, UserEdits(Source, p));
    var w2 := Step(w1, ServerWrites(Extract(read, tags), i.time + 1, i.raw));
    assert w2.hist == [i, Reread(i, read, tags)] && Waiting(w2, i, Edited(i, p));
    TimerSendsSource(w2, i, Edited(i, p));
  }

  /** For every item with no variant requested, every text edit of it and every extraction result there is
      a run in which the edit is safely pinned, the extraction replaces the source at the same revision,
      and the server admits the save over it; nothing is lost only if the result means what was shown. */
  lemma ExtractionIsOverwritten(i: Item, p: Patch, read: Content, tags: seq<string>, saved: seq<string>)
    requires i.lifecycle.Editable? && i.status.NotRequested? && TextEdit(p) && Blank(TargetDraft(i, Source).graphDsl)
    ensures var events := RereadRun(i, p, read, tags);
            && Runs(Mounted(i), events) && CarefulRun(Mounted(i), events)
            && var w := After(Mounted(i), events);
               && WouldAdmit(w, 0, saved) && w.calls[0].pin.sound && w.calls[0].request.target.Source?
               && Last(w.hist).content == read && Last(w.hist).revision == i.revision
               && (OverwritesOnly(Last(w.hist), Source, w.calls[0].pin.origin) <==>
                     MeaningAt(Reread(i, read, tags), Source) == MeaningAt(i, Source))
  {
    hide TargetDraft, MeaningOf, MeaningAt, Blank, Step, Enabled, Mounted, TextEdit, Careful, SemanticChange;
    var e := RereadRun(i, p, read, tags);
    RereadSteps(i, p, read, tags);
    var w0 := Mounted(i);
    var w1 := Step(w0, e[0]);
    var w2 := Step(w1, e[1]);
    var w3 := Step(w2, e[2]);
    AlwaysCareful(w1, e[1]);
    AlwaysCareful(w2, e[2]);
    CarefulEnds(w3);
    CarefulThen(w2, e[2], []);
    CarefulThen(w1, e[1], [e[2]]);
    CarefulThen(w0, e[0], [e[1], e[2]]);
    assert [e[2]] + [] == [e[2]] && [e[1]] + [e[2]] == [e[1], e[2]] && [e[0]] + [e[1], e[2]] == e;
  }

  lemma AlwaysCareful(w: World, e: Event)
    requires Enabled(w, e) && (e.ServerWrites? || e.TimerFires?)
    ensures Careful(w, e)
  {
    hide Admits;
  }
}
