/** Whole runs of the editor against the server: every interleaving of edits, reordered
    snapshots, own saves of both buffers, queued Generates and other writers.

    The world carries, beside the editor's refs, a history of the stored item and for each
    buffer the point of that history its refs speak about; no event depends on the latter. */
module ReviewWorld {
  import opened Prelude
  import opened ReviewServer
  import opened ReviewRefs

  // ---------------------------------------------------------------- meaning of a draft

  /** A draft up to whitespace, with blank read as absent and an absent type or subject as its
      default. A candidate has no subject of its own, and tags carry no meaning. */
  datatype Meaning = Meaning(
    text: Option<string>, problemType: string, graphDsl: Option<string>,
    correctAnswer: Option<string>, subject: string)

  function MeaningOf(d: Draft, t: Target): Meaning {
    Meaning(SemanticValue(Some(d.text)),
            SemanticValue(Some(d.problemType)).GetOr(Squeeze(DEFAULT_TYPE)),
            SemanticValue(Some(d.graphDsl)),
            SemanticValue(Some(d.correctAnswer)),
            if t.Candidate? then "" else SemanticValue(Some(d.subject)).GetOr(Squeeze(DEFAULT_SUBJECT)))
  }

  function MeaningAt(i: Item, t: Target): Meaning {
    MeaningOf(TargetDraft(i, t), t)
  }

  function MeaningOfPayload(p: Payload): Meaning {
    MeaningOf(Draft(p.text, p.problemType, p.graphDsl.GetOr(""), p.correctAnswer, [], p.subject), Source)
  }

  /** The candidate of this generation has been produced, or has been withdrawn for good. */
  predicate Live(i: Item, t: Target) {
    t.Candidate? ==> i.candidate.Some? || i.status.NotRequested?
  }

  lemma SameContentSameMeaning(p: Item, q: Item)
    requires !SemanticChange(Some(p.content), Some(q.content))
    ensures MeaningAt(p, Source) == MeaningAt(q, Source)
    ensures p.candidate.None? && q.candidate.None? ==> MeaningAt(p, Candidate) == MeaningAt(q, Candidate)
  {
  }

  lemma SameCandidateSameMeaning(p: Item, q: Item)
    requires p.candidate.Some? && q.candidate.Some? && !SemanticChange(p.candidate, q.candidate)
    ensures MeaningAt(p, Candidate) == MeaningAt(q, Candidate)
  {
  }

  /** A revision names one meaning of each live target, whenever in the history it is read, as long as
      the same extraction result stands behind it. */
  lemma SameRevisionSameMeaning(hist: seq<Item>, j: nat, k: nat, t: Target)
    requires History(hist) && j < |hist| && k < |hist|
    requires hist[j].revision == hist[k].revision && SameReading(hist[j], hist[k])
    requires Live(hist[j], t) && Live(hist[k], t)
    ensures MeaningAt(hist[j], t) == MeaningAt(hist[k], t)
    ensures hist[j].generation == hist[k].generation
    ensures t.Candidate? ==> (hist[j].candidate.Some? <==> hist[k].candidate.Some?)
  {
    var a, b := if j <= k then j else k, if j <= k then k else j;
    assert Later(hist[a], hist[b]) && SameReading(hist[a], hist[b]);
    SameContentSameMeaning(hist[j], hist[k]);
    SameContentSameMeaning(hist[k], hist[j]);
    if hist[j].candidate.Some? && hist[k].candidate.Some? {
      SameCandidateSameMeaning(hist[j], hist[k]);
    }
  }

  // ---------------------------------------------------------------- the world

  /** What a pinned edit builds on: the history point of the base stamp, the meaning the user
      started from, and whether the two are known to agree. */
  datatype Pin = Pin(at: nat, origin: Meaning, sound: bool)

  /** History points of one buffer: its stamp, its pin, and the sibling's stamp when its save left;
      `evidence` is that stamp itself. */
  datatype Trace = Trace(seen: nat, pin: Pin, captured: nat, evidence: Option<Stamp>)

  datatype Call = Call(request: Request, pin: Pin, accepted: Option<nat>)

  /** A Generate sent: by which click, what, at which history point its revision was read, and whether
      that point is known to mean the payload. */
  datatype Generation = Generation(click: nat, fire: Fire, at: nat, sound: bool, settled: bool)

  datatype World = World(
    hist: seq<Item>,
    shown: nat,
    refs: Refs,
    source: Trace,
    candidate: Trace,
    calls: map<nat, Call>,
    nextSeq: nat,
    passed: set<string>,
    clicks: seq<Payload>,
    sent: seq<Generation>)
  {
    function Trace(t: Target): Trace {
      if t.Source? then source else candidate
    }

    function PutTrace(t: Target, tr: Trace): World {
      if t.Source? then this.(source := tr) else this.(candidate := tr)
    }
  }

  datatype Event =
    | ServerWrites(w: Write, time: int, raw: int)
    | SnapshotArrives(at: nat)
    | UserEdits(target: Target, patch: Patch)
    | TimerFires(target: Target)
    | ValidationAnswers(target: Target, draft: Draft, answer: Validation)
    | SaveAccepted(seqNo: nat, tags: seq<string>, time: int, raw: int)
    | SaveReturns(seqNo: nat, at: nat)
    | SaveFails(seqNo: nat, mismatch: bool)
    | GenerateClicked
    | GenerateSettles(index: nat)
    | OtherItemSaves

  function NullIfEmpty(s: string): Option<string> {
    if s == "" then None else Some(s)
  }

  /** The write a save request asks for; the tags are whatever the server makes of those sent. */
  function RequestWrite(i: Item, q: Request, tags: seq<string>): Write {
    var d := q.draft;
    if q.target.Source? then
      WriteSource(q.revision,
        Content(Some(d.text), Some(d.problemType), NullIfEmpty(d.graphDsl), Some(d.correctAnswer), Some(d.subject)),
        tags)
    else
      WriteCandidate(q.revision,
        i.candidate.GetOr(BLANK).(text := Some(d.text), problemType := Some(d.problemType),
                                  graphDsl := NullIfEmpty(d.graphDsl), correctAnswer := Some(d.correctAnswer)),
        Some(tags))
  }

  /** What the editor can test before the edit it pins: it shows a draft that means what the adopted
      server draft means. */
  predicate SafeToPin(b: Buffer, shown: Draft, t: Target) {
    b.server.Some? && MeaningOf(b.server.value, t) == MeaningOf(shown, t)
  }

  /** What the editor could test before it moves the sibling's base, had it kept the sibling's stamp
      when the save left: the sibling draft captured then belongs to the revision that was saved, or
      the candidate save returned with its candidate still there. */
  predicate SafeToRebase(evidence: Option<Stamp>, t: Target, save: Save, i: Item) {
    || (evidence.Some? && evidence.value.revision == save.revision)
    || (t.Candidate? && i.candidate.Some?)
  }

  /** What the editor can test at a click: it shows a source that means what the snapshot on screen says. */
  predicate SafeToGenerate(r: Refs, i: Item) {
    MeaningOf(Shown(r, i, Source), Source) == MeaningAt(i, Source)
  }

  predicate Enabled(w: World, e: Event) {
    |w.hist| > 0 && w.shown < |w.hist| &&
    match e
    case ServerWrites(op, _, _) => Admits(Last(w.hist), op)
    case SnapshotArrives(at) => at < |w.hist|
    case SaveAccepted(seqNo, tags, _, _) =>
      && seqNo in w.calls && w.calls[seqNo].accepted.None?
      && Admits(Last(w.hist), RequestWrite(Last(w.hist), w.calls[seqNo].request, tags))
    case SaveReturns(seqNo, at) =>
      && seqNo in w.calls && w.calls[seqNo].accepted.Some?
      && w.calls[seqNo].accepted.value < at < |w.hist|
    case SaveFails(seqNo, _) => seqNo in w.calls
    case GenerateSettles(index) => index < |w.sent| && !w.sent[index].settled
    case _ => true
  }

  function SeenAfter(w: World, t: Target, at: nat): Trace
    requires at < |w.hist|
  {
    if Ignores(w.refs.Get(t), w.hist[at], t) then w.Trace(t) else w.Trace(t).(seen := at)
  }

  function Launch(w: World, t: Target, out: (Refs, Option<Request>)): World {
    var w1 := w.(refs := out.0);
    if out.1.None? then w1
    else
      w1.PutTrace(t, w.Trace(t).(captured := w.Trace(t.Sibling()).seen, evidence := w.refs.Get(t.Sibling()).stamp))
        .(calls := w.calls[w.nextSeq := Call(out.1.value, w.Trace(t).pin, None)], nextSeq := w.nextSeq + 1)
  }

  /** A base that moves to another revision takes its pin along. */
  function RebasedPin(w: World, t: Target, save: Save, at: nat): Pin
    requires at < |w.hist|
  {
    var s, i := t.Sibling(), w.hist[at];
    var base, pin := w.refs.Get(s).base, w.Trace(s).pin;
    if base.Some? && base.value.revision == i.revision then pin
    else Pin(at, pin.origin, pin.sound && SafeToRebase(w.Trace(t).evidence, t, save, i))
  }

  function Return(w: World, seqNo: nat, at: nat): World
    requires seqNo in w.calls && at < |w.hist|
  {
    var t := w.calls[seqNo].request.target;
    var s := t.Sibling();
    var i := w.hist[at];
    var b := w.refs.Get(t);
    var out := FinishSave(w.refs, t, seqNo, Saved(Some(i)));
    var w1 := w.(refs := out.0);
    var w2 := if out.1.None? then w1
              else
                var click := if |w.clicks| > 0 then |w.clicks| - 1 else 0;
                w1.(sent := w.sent + [Generation(click, out.1.value, at, true, false)]);
    if b.inFlight.None? || b.inFlight.value.seqNo != seqNo || Disowned(b, t, b.inFlight.value, Some(i)) then w2
    else
      var save := b.inFlight.value;
      var w3 := w2.PutTrace(t, w.Trace(t).(seen := at, pin := Pin(at, MeaningOf(save.sent, t), true)));
      if SiblingConcerned(w.refs, s, Some(i)) && SiblingUntouched(w.refs, s, save, i) then
        w3.PutTrace(s, w.Trace(s).(seen := at, pin := RebasedPin(w, t, save, at)))
      else w3
  }

  function Step(w: World, e: Event): World
    requires Enabled(w, e)
  {
    match e
    case ServerWrites(op, time, raw) => w.(hist := w.hist + [Stored(Last(w.hist), op, time, raw)])
    case SnapshotArrives(at) =>
      w.(refs := Observe(w.refs, w.hist[at], false), shown := at,
         source := SeenAfter(w, Source, at), candidate := SeenAfter(w, Candidate, at))
    case UserEdits(t, p) =>
      var w1 := w.(refs := Edit(w.refs, w.hist[w.shown], t, p));
      var k := SaveTarget(t, p);
      var b := w.refs.Get(k);
      if Locked(w.refs, t, p) || b.base.Some? then w1
      else w1.PutTrace(k, w.Trace(k).(
             pin := Pin(w.Trace(k).seen, MeaningOf(Shown(w.refs, w.hist[w.shown], k), k),
                        SafeToPin(b, Shown(w.refs, w.hist[w.shown], k), k))))
    case TimerFires(t) => Launch(w, t, Timer(w.refs, t, w.nextSeq))
    case ValidationAnswers(t, draft, answer) =>
      Launch(w.(passed := if answer.Valid? then w.passed + {draft.graphDsl} else w.passed),
             t, Settle(w.refs, t, draft, answer, w.nextSeq))
    case SaveAccepted(seqNo, tags, time, raw) =>
      var call := w.calls[seqNo];
      w.(hist := w.hist + [Stored(Last(w.hist), RequestWrite(Last(w.hist), call.request, tags), time, raw)],
         calls := w.calls[seqNo := call.(accepted := Some(|w.hist| - 1))])
    case SaveReturns(seqNo, at) => Return(w, seqNo, at)
    case SaveFails(seqNo, mismatch) =>
      w.(refs := FinishSave(w.refs, w.calls[seqNo].request.target, seqNo, Refused(mismatch)).0)
    case GenerateClicked =>
      var out := ClickGenerate(w.refs, w.hist[w.shown]);
      if w.refs.generating || w.refs.pendingGenerate.Some? then w
      else
        var w1 := w.(refs := out.0, clicks := w.clicks + [PayloadOf(Shown(w.refs, w.hist[w.shown], Source))]);
        if out.1.None? then w1
        else w1.(sent := w.sent + [Generation(|w.clicks|, out.1.value, w.shown, SafeToGenerate(w.refs, w.hist[w.shown]),
                                              false)])
    case GenerateSettles(index) =>
      w.(refs := GenerateSettled(w.refs), sent := w.sent[index := w.sent[index].(settled := true)])
    case OtherItemSaves => w.(nextSeq := w.nextSeq + 1)
  }

  /** The editor has just been mounted on the first snapshot. */
  function Mounted(i: Item): World {
    var pin := Pin(0, MeaningAt(i, Source), false);
    World([i], 0, Observe(FRESH, i, false), Trace(0, pin, 0, None), Trace(0, pin, 0, None), map[], 0, {}, [], [])
  }

  predicate Runs(w: World, events: seq<Event>)
    decreases |events|
  {
    events == [] || (Enabled(w, events[0]) && Runs(Step(w, events[0]), events[1..]))
  }

  function After(w: World, events: seq<Event>): World
    requires Runs(w, events)
    decreases |events|
  {
    if events == [] then w else After(Step(w, events[0]), events[1..])
  }
}
