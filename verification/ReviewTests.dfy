/** How far the editor can tell from its own data that a pin is safe to make or to move: each test is
    passed exactly when every history the data may stand for is harmless. */
module ReviewTests {
  import opened Prelude
  import opened ReviewServer
  import opened ReviewRefs
  import opened ReviewWorld
  import opened ReviewSaves

  // ---------------------------------------------------------------- pinning

  /** Whenever, before or after, the revision of history point `at` is stored with a live target and the
      same extraction result, it means `seen`. */
  ghost predicate MeansThroughout(hist: seq<Item>, at: nat, t: Target, seen: Meaning) {
    at < |hist| &&
    forall k | 0 <= k < |hist| && hist[k].revision == hist[at].revision && SameReading(hist[at], hist[k])
               && Live(hist[k], t) :: MeaningAt(hist[k], t) == seen
  }

  /** A buffer that shows an adopted draft and carries no failed validation passes the test. */
  lemma AdoptedPassesTest(w: World, t: Target)
    requires SaveInv(w)
    requires var b := w.refs.Get(t); b.base.None? && b.server.Some? && b.failures == 0
    ensures SafeToPin(w.refs.Get(t), Shown(w.refs, w.hist[w.shown], t), t)
  {
    hide TargetDraft, MeaningOf, CallsHold, History;
    assert Anchored(w.hist, w.refs.Get(t), w.Trace(t), t);
  }

  lemma PassedMeansThroughout(hist: seq<Item>, b: Buffer, tr: Trace, t: Target, shown: Draft)
    requires History(hist) && Tidy(b) && Anchored(hist, b, tr, t) && SafeToPin(b, shown, t)
    ensures MeansThroughout(hist, tr.seen, t, MeaningOf(shown, t))
  {
    hide Squeeze, SemanticValue, TargetDraft, MeaningOf, Later, WellFormed, PinHolds;
    forall k | 0 <= k < |hist| && hist[k].revision == hist[tr.seen].revision && SameReading(hist[tr.seen], hist[k])
      && Live(hist[k], t)
      ensures MeaningAt(hist[k], t) == MeaningOf(shown, t)
    {
      SameRevisionSameMeaning(hist, tr.seen, k, t);
    }
  }

  /** The item `p` with another text in this target. */
  function Retold(p: Item, t: Target, text: string): Item {
    if t.Source? then p.(content := p.content.(text := Some(text)))
    else p.(candidate := Some(BLANK.(text := Some(text))), status := Ready)
  }

  lemma RetoldMeans(p: Item, t: Target)
    requires WellFormed(p)
    ensures forall x | x in ["a", "b"] :: WellFormed(Retold(p, t, x)) && Live(Retold(p, t, x), t)
              && MeaningAt(Retold(p, t, x), t).text == Some(x)
              && Retold(p, t, x).revision == p.revision && GenerationOf(Retold(p, t, x), t) == GenerationOf(p, t)
  {
    assert Squeeze("a") == "a" && Squeeze("b") == "b";
  }

  /** A buffer with no adopted draft may stand for a version that means anything at all. */
  lemma UnadoptedMayMeanAnything(w: World, t: Target, seen: Meaning) returns (hist: seq<Item>, tr: Trace)
    requires SaveInv(w) && w.refs.Get(t).server.None? && w.refs.Get(t).base.None?
    ensures History(hist) && Anchored(hist, w.refs.Get(t), tr, t) && !MeansThroughout(hist, tr.seen, t, seen)
  {
    hide Squeeze, SemanticValue, TargetDraft, MeaningOf, CallsHold, MeaningAt, Retold, WellFormed;
    assert Anchored(w.hist, w.refs.Get(t), w.Trace(t), t);
    var p := w.hist[w.Trace(t).seen];
    RetoldMeans(p, t);
    var x := if seen.text == Some("a") then "b" else "a";
    assert x in ["a", "b"];
    var j := Retold(p, t, x);
    LaterReflexive(j);
    hist, tr := [j], Trace(0, Pin(0, seen, false), 0, None);
    assert hist[0].revision == hist[tr.seen].revision && MeaningAt(hist[0], t) != seen;
  }

  /** The test before a pin is exact: an edit of an unpinned buffer passes it exactly when, in every
      history its refs may stand for, whatever is stored at the pinned revision means what is shown. */
  lemma PinTestIsExact(w: World, t: Target)
    requires SaveInv(w) && w.refs.Get(t).base.None?
    ensures var b, shown := w.refs.Get(t), Shown(w.refs, w.hist[w.shown], t);
            SafeToPin(b, shown, t) <==>
              forall hist, tr :: History(hist) && Anchored(hist, b, tr, t) ==>
                MeansThroughout(hist, tr.seen, t, MeaningOf(shown, t))
  {
    hide Squeeze, SemanticValue, TargetDraft, MeaningOf, CallsHold, History, Anchored, MeansThroughout, Shown;
    var b, shown := w.refs.Get(t), Shown(w.refs, w.hist[w.shown], t);
    if SafeToPin(b, shown, t) {
      forall hist, tr | History(hist) && Anchored(hist, b, tr, t)
        ensures MeansThroughout(hist, tr.seen, t, MeaningOf(shown, t)) {
        PassedMeansThroughout(hist, b, tr, t, shown);
      }
    } else if b.server.None? {
      var hist, tr := UnadoptedMayMeanAnything(w, t, MeaningOf(shown, t));
    } else {
      AdoptedMeansOther(w, t, MeaningOf(shown, t));
    }
  }

  lemma AdoptedMeansOther(w: World, t: Target, seen: Meaning)
    requires SaveInv(w) && w.refs.Get(t).server.Some? && MeaningOf(w.refs.Get(t).server.value, t) != seen
    ensures Anchored(w.hist, w.refs.Get(t), w.Trace(t), t) && !MeansThroughout(w.hist, w.Trace(t).seen, t, seen)
  {
    hide Squeeze, SemanticValue, TargetDraft, MeaningOf, CallsHold, History;
    assert Anchored(w.hist, w.refs.Get(t), w.Trace(t), t);
  }

  // ---------------------------------------------------------------- moving a base

  /** What the editor knows when a save of `s`'s sibling returns and `s` looks untouched: at point `c` it
      captured the draft of `s`, at `p` `s` was pinned, at `a` the save was accepted, at `k` the item of
      the response was read, one revision on. */
  ghost predicate RebaseScene(hist: seq<Item>, c: nat, p: nat, a: nat, k: nat, s: Target, e: nat, r: nat, shown: bool) {
    && History(hist) && c < |hist| && p < |hist| && c <= a < k < |hist|
    && hist[c].revision == e && hist[p].revision == r == hist[a].revision && hist[k].revision == r + 1
    && Live(hist[c], s) && Live(hist[p], s) && Live(hist[k], s)
    && GenerationOf(hist[p], s) == GenerationOf(hist[k], s)
    && MeaningAt(hist[c], s) == MeaningAt(hist[k], s)
    && (hist[k].candidate.Some? <==> shown) && (s.Candidate? ==> shown)
    && (s.Source? ==>
          && !hist[a].status.NotRequested? && hist[a + 1].candidate.Some? && hist[a + 1].content == hist[a].content
          && hist[a].generation == hist[a + 1].generation == hist[k].generation)
  }

  predicate SameMeaning(hist: seq<Item>, p: nat, k: nat, s: Target) {
    p < |hist| && k < |hist| && MeaningAt(hist[p], s) == MeaningAt(hist[k], s)
  }

  lemma SceneKeepsMeaning(hist: seq<Item>, c: nat, p: nat, a: nat, k: nat, s: Target, e: nat, r: nat, shown: bool)
    requires RebaseScene(hist, c, p, a, k, s, e, r, shown) && (e == r || (s.Source? && shown))
    ensures SameMeaning(hist, p, k, s)
  {
    hide Squeeze, SemanticValue, TargetDraft, MeaningOf, SemanticChange, MeaningAt;
    assert Later(hist[a], hist[p]) || Later(hist[p], hist[a]);
    assert Later(hist[p], hist[k]) || Later(hist[k], hist[p]);
    assert Later(hist[a + 1], hist[k]);
    RebaseKeepsMeaning(hist, p, c, a, k, s);
  }

  function Told(text: string): Content {
    Content(Some(text), None, None, None, None)
  }

  /** Another writer takes the candidate from `a` to `b` and back. */
  function CandidateAndBack(e: nat, r: nat): seq<Item> {
    var i := Item(Told("s"), [], Some(Told("a")), Some(Told("s")), Ready, 1, e, 0, Editable, 0, 0);
    var there := i.(candidate := Some(Told("b")), revision := r);
    [i, there, there, there.(candidate := Some(Told("a")), revision := r + 1)]
  }

  /** Another writer takes the source from `a` to `b`, generating for it, and back. */
  function SourceAndBack(e: nat, r: nat): seq<Item> {
    var i := Item(Told("a"), [], Some(Told("c")), Some(Told("a")), Ready, 1, e, 0, Editable, 0, 0);
    var there := i.(content := Told("b"), generation := 2, revision := r);
    [i, there, there,
     there.(content := Told("a"), candidate := None, original := None, status := NotRequested, revision := r + 1)]
  }

  lemma ToldMeans(x: string, y: string)
    requires x in ["a", "b", "c", "s"] && y in ["a", "b", "c", "s"]
    ensures SemanticValue(Some(x)) == Some(x)
    ensures SemanticChange(Some(Told(x)), Some(Told(y))) <==> x != y
  {
    assert Squeeze("a") == "a" && Squeeze("b") == "b" && Squeeze("c") == "c" && Squeeze("s") == "s";
  }

  lemma CandidateScene(e: nat, r: nat)
    requires e < r
    ensures var h := CandidateAndBack(e, r);
            RebaseScene(h, 0, 1, 1, 3, Candidate, e, r, true)
            && MeaningAt(h[1], Candidate) != MeaningAt(h[3], Candidate)
  {
    hide Squeeze, SemanticValue, SemanticChange;
    ToldMeans("a", "b");
    ToldMeans("b", "a");
    ToldMeans("s", "s");
    ToldMeans("a", "a");
    ToldMeans("b", "b");
  }

  lemma SourceScene(e: nat, r: nat)
    requires e < r
    ensures var h := SourceAndBack(e, r);
            RebaseScene(h, 0, 1, 1, 3, Source, e, r, false) && MeaningAt(h[1], Source) != MeaningAt(h[3], Source)
  {
    hide Squeeze, SemanticValue, SemanticChange;
    ToldMeans("a", "b");
    ToldMeans("b", "a");
    ToldMeans("c", "c");
    ToldMeans("a", "a");
    ToldMeans("b", "b");
  }

  /** The test before the sibling's base is moved is exact: it is passed exactly when, in every history
      with these revisions, the sibling means at the response what it meant when it was pinned. */
  lemma RebaseTestIsExact(evidence: Stamp, t: Target, save: Save, i: Item)
    requires evidence.revision <= save.revision && (t.Source? ==> i.candidate.Some?)
    ensures var s, e, r, shown := t.Sibling(), evidence.revision, save.revision, i.candidate.Some?;
            SafeToRebase(Some(evidence), t, save, i) <==>
              forall hist, c: nat, p: nat, a: nat, k: nat :: RebaseScene(hist, c, p, a, k, s, e, r, shown) ==>
                SameMeaning(hist, p, k, s)
  {
    hide MeaningAt, RebaseScene, CandidateAndBack, SourceAndBack;
    var s, e, r, shown := t.Sibling(), evidence.revision, save.revision, i.candidate.Some?;
    if SafeToRebase(Some(evidence), t, save, i) {
      forall hist, c: nat, p: nat, a: nat, k: nat | RebaseScene(hist, c, p, a, k, s, e, r, shown)
        ensures SameMeaning(hist, p, k, s) {
        SceneKeepsMeaning(hist, c, p, a, k, s, e, r, shown);
      }
    } else if s.Candidate? {
      CandidateScene(e, r);
    } else {
      SourceScene(e, r);
    }
  }

  /** The stamp the sibling had when a save left never names a later revision than the save does, once
      the server has accepted the save. */
  lemma EvidenceBounded(w: World, seqNo: nat, t: Target)
    requires SaveInv(w) && w.refs.Get(t).inFlight.Some? && w.refs.Get(t).inFlight.value.seqNo == seqNo
    requires seqNo in w.calls && w.calls[seqNo].accepted.Some?
    ensures var a, c := w.calls[seqNo].accepted.value, w.Trace(t).captured;
            && c <= a < |w.hist| && w.Trace(t).evidence.Some?
            && w.hist[c].revision == w.Trace(t).evidence.value.revision <= w.refs.Get(t).inFlight.value.revision
               == w.hist[a].revision
  {
    hide Squeeze, SemanticValue, TargetDraft, MeaningOf, SemanticChange, BuffersHold, Live;
    assert Tracked(w, t);
    assert CallHolds(w.hist, w.calls[seqNo]);
    var a, c := w.calls[seqNo].accepted.value, w.Trace(t).captured;
    assert Later(w.hist[c], w.hist[a]);
  }

  /** An owned response shows the accepted version or one a revision on; for a candidate, of the same
      generation. */
  lemma ReturnedRevision(w: World, seqNo: nat, at: nat, t: Target)
    requires ReturnsOwned(w, seqNo, at, t)
    ensures var r, a := w.refs.Get(t).inFlight.value.revision, w.calls[seqNo].accepted.value;
            && r <= w.hist[at].revision <= r + 1
            && (t.Candidate? ==> w.hist[a].generation == w.hist[at].generation)
  {
    hide Squeeze, SemanticValue, TargetDraft, MeaningOf, SemanticChange, IsStale, Live;
    ReturnFacts(w, seqNo, at, t);
    assert Anchored(w.hist, w.refs.Get(t), w.Trace(t), t);
    var a, p := w.calls[seqNo].accepted.value, w.Trace(t).pin.at;
    assert Later(w.hist[a], w.hist[at]);
    assert Later(w.hist[a], w.hist[p]) || Later(w.hist[p], w.hist[a]);
  }

  /** A response that moves the sibling's base, whose pin was sound, is a scene of the kind the test is
      exact for. */
  lemma MovedBaseIsScene(w: World, seqNo: nat, at: nat, t: Target)
    requires ReturnsOwned(w, seqNo, at, t)
    requires var s, save := t.Sibling(), w.refs.Get(t).inFlight.value;
             SiblingConcerned(w.refs, s, Some(w.hist[at])) && SiblingUntouched(w.refs, s, save, w.hist[at])
             && w.refs.Get(s).base.value.revision != w.hist[at].revision && w.Trace(s).pin.sound
    ensures w.calls[seqNo].accepted.Some? && w.Trace(t).evidence.Some?
    ensures var s, save := t.Sibling(), w.refs.Get(t).inFlight.value;
            var i, e := w.hist[at], w.Trace(t).evidence.value.revision;
            && e <= save.revision && (t.Source? ==> i.candidate.Some?)
            && RebaseScene(w.hist, w.Trace(t).captured, w.Trace(s).pin.at, w.calls[seqNo].accepted.value, at, s, e,
                           save.revision, i.candidate.Some?)
  {
    hide Squeeze, SemanticValue, TargetDraft, IsStale, Later, SemanticChange, Disowned, History, Tidy;
    var s, save := t.Sibling(), w.refs.Get(t).inFlight.value;
    EvidenceBounded(w, seqNo, t);
    assert Anchored(w.hist, w.refs.Get(s), w.Trace(s), s);
    assert Tracked(w, t);
    ReturnFacts(w, seqNo, at, t);
    PinWasRequested(w, seqNo, at, t);
    assert MeaningOf(save.siblingDraft.value.(tags := save.sent.tags), s) == MeaningOf(save.siblingDraft.value, s);
    ReturnedRevision(w, seqNo, at, t);
  }
}
