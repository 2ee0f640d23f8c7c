/** The editor's bookkeeping for one item, as values: two autosave buffers that share one
    server revision, and what each event does to them. `ReviewHook` holds the same refs in
    place and is proved to take exactly these steps. */
module ReviewRefs {
  import opened Prelude
  import opened ReviewServer

  datatype Target = Source | Candidate {
    function Sibling(): Target {
      if Source? then Candidate else Source
    }
  }

  /** A full-form draft as shown to the user. */
  datatype Draft = Draft(
    text: string, problemType: string, graphDsl: string, correctAnswer: string,
    tags: seq<string>, subject: string)

  /** A partial edit: absent fields are None. */
  datatype Patch = Patch(
    text: Option<string>, problemType: Option<string>, graphDsl: Option<string>,
    correctAnswer: Option<string>, tags: Option<seq<string>>, subject: Option<string>)
  {
    predicate TouchesContent() {
      text.Some? || problemType.Some? || graphDsl.Some? || correctAnswer.Some? || subject.Some?
    }

    predicate TagsOnly() {
      tags.Some? && !TouchesContent()
    }

    function ApplyTo(d: Draft): Draft {
      Draft(text.GetOr(d.text), problemType.GetOr(d.problemType), graphDsl.GetOr(d.graphDsl),
            correctAnswer.GetOr(d.correctAnswer), tags.GetOr(d.tags), subject.GetOr(d.subject))
    }
  }

  datatype Stamp = Stamp(revision: nat, generation: nat, time: int, raw: int)

  /** The reviewed source confirmed by Generate; an empty graph is sent as null. */
  datatype Payload = Payload(
    text: string, problemType: string, correctAnswer: string, graphDsl: Option<string>, subject: string)

  datatype Save = Save(seqNo: nat, revision: nat, generation: nat, siblingDraft: Option<Draft>, sent: Draft)

  datatype Ack = Ack(saved: Draft, previous: Option<Draft>)

  /** One autosave buffer. `inFlight` stands for the in-flight entry and for membership of the
      saving set, which are set and cleared together; zero failures stand for an absent count. */
  datatype Buffer = Buffer(
    draft: Option<Draft>,
    dirty: bool,
    failures: nat,
    conflict: bool,
    rejected: bool,
    validating: bool,
    server: Option<Draft>,
    ack: Option<Ack>,
    stamp: Option<Stamp>,
    base: Option<Stamp>,
    inFlight: Option<Save>)

  datatype Refs = Refs(
    source: Buffer, candidate: Buffer,
    pendingTags: Option<seq<string>>,
    pendingGenerate: Option<Payload>,
    generating: bool)
  {
    function Get(t: Target): Buffer {
      if t.Source? then source else candidate
    }

    function Put(t: Target, b: Buffer): Refs {
      if t.Source? then this.(source := b) else this.(candidate := b)
    }
  }

  const FRESH_BUFFER := Buffer(None, false, 0, false, false, false, None, None, None, None, None)
  const FRESH := Refs(FRESH_BUFFER, FRESH_BUFFER, None, None, false)

  /** A save request: the full form of one buffer against the revision pinned to it. */
  datatype Request = Request(target: Target, seqNo: nat, revision: nat, draft: Draft)

  /** A Generate request: the reviewed payload and the revision it confirms. */
  datatype Fire = Fire(payload: Payload, revision: nat)

  datatype Outcome = Saved(item: Option<Item>) | Refused(mismatch: bool)

  datatype Validation = Valid | Invalid | Unavailable

  // ---------------------------------------------------------------- views of an item

  function OrElse(v: Option<string>, default: string): string { v.GetOr(default) }

  const DEFAULT_TYPE := "short-answer"
  const DEFAULT_SUBJECT := "math"

  function TargetDraft(i: Item, t: Target): Draft {
    if t.Candidate? && i.candidate.Some? then
      var c := i.candidate.value;
      Draft(OrElse(c.text, ""), OrElse(c.problemType, DEFAULT_TYPE), OrElse(c.graphDsl, ""),
            OrElse(c.correctAnswer, ""), i.tags,
            if i.original.Some? && i.original.value.subject.Some? then i.original.value.subject.value
            else OrElse(i.content.subject, DEFAULT_SUBJECT))
    else
      var c := i.content;
      Draft(OrElse(c.text, ""), OrElse(c.problemType, DEFAULT_TYPE), OrElse(c.graphDsl, ""),
            OrElse(c.correctAnswer, ""), i.tags, OrElse(c.subject, DEFAULT_SUBJECT))
  }

  function GenerationOf(i: Item, t: Target): nat {
    if t.Candidate? then i.generation else 0
  }

  function TargetStamp(i: Item, t: Target): Stamp {
    Stamp(i.revision, GenerationOf(i, t), i.time, i.raw)
  }

  predicate IsStale(incoming: Stamp, current: Option<Stamp>) {
    current.Some? &&
    var c := current.value;
    || incoming.time < c.time
    || (incoming.time == c.time && incoming.raw < c.raw)
    || incoming.revision < c.revision
    || incoming.generation < c.generation
  }

  function PayloadOf(d: Draft): Payload {
    Payload(d.text, d.problemType, d.correctAnswer, if d.graphDsl == "" then None else Some(d.graphDsl), d.subject)
  }

  predicate Blank(s: string) {
    forall k :: 0 <= k < |s| ==> ScriptSpace(s[k])
  }

  // ---------------------------------------------------------------- small pieces

  function CancelGenerate(r: Refs, t: Target): Refs {
    if t.Source? && r.pendingGenerate.Some? then r.(pendingGenerate := None, generating := false) else r
  }

  function MarkConflict(r: Refs, t: Target): Refs {
    if r.Get(t).conflict then r else CancelGenerate(r.Put(t, r.Get(t).(conflict := true)), t)
  }

  function Shown(r: Refs, i: Item, t: Target): Draft {
    r.Get(t).draft.GetOr(TargetDraft(i, t))
  }

  function Bump(b: Buffer): Buffer {
    b.(failures := b.failures + 1)
  }

  // ---------------------------------------------------------------- events

  predicate Locked(r: Refs, t: Target, p: Patch) {
    t.Source? && r.generating && p.TouchesContent()
  }

  /** Tags belong to the item and are saved through the source endpoint. */
  function SaveTarget(t: Target, p: Patch): Target {
    if p.TagsOnly() then Source else t
  }

  /** An edit of target `t` as the buffer of target `x` sees it: the save target is pinned and
      dirty, the edited buffer takes the patch, and shared tags reach the sibling's draft. */
  function EditBuffer(b: Buffer, x: Target, i: Item, t: Target, p: Patch): Buffer {
    var shown := b.draft.GetOr(TargetDraft(i, x));
    var b1 := if x != SaveTarget(t, p) then b
              else b.(dirty := true,
                      base := if b.base.Some? then b.base else Some(b.stamp.GetOr(TargetStamp(i, x))));
    if x == t then b1.(draft := Some(p.ApplyTo(shown)), rejected := b.rejected && p.graphDsl.None?)
    else if p.tags.Some? && (t.Candidate? || i.candidate.Some?) then
      b1.(draft := Some(shown.(tags := p.tags.value)))
    else b1
  }

  function Edit(r: Refs, i: Item, t: Target, p: Patch): Refs {
    if Locked(r, t, p) then r
    else r.(source := EditBuffer(r.source, Source, i, t, p),
            candidate := EditBuffer(r.candidate, Candidate, i, t, p),
            pendingTags := if p.tags.Some? then p.tags else r.pendingTags)
  }

  /** `d` has every field that `p` gives as given, and every other as `shown` has it. */
  predicate Takes(d: Draft, shown: Draft, p: Patch) {
    && (if p.text.Some? then Some(d.text) == p.text else d.text == shown.text)
    && (if p.problemType.Some? then Some(d.problemType) == p.problemType else d.problemType == shown.problemType)
    && (if p.graphDsl.Some? then Some(d.graphDsl) == p.graphDsl else d.graphDsl == shown.graphDsl)
    && (if p.correctAnswer.Some? then Some(d.correctAnswer) == p.correctAnswer
        else d.correctAnswer == shown.correctAnswer)
    && (if p.tags.Some? then Some(d.tags) == p.tags else d.tags == shown.tags)
    && (if p.subject.Some? then Some(d.subject) == p.subject else d.subject == shown.subject)
  }

  predicate SameButTags(d: Draft, shown: Draft, tags: seq<string>) {
    && d.text == shown.text && d.problemType == shown.problemType && d.graphDsl == shown.graphDsl
    && d.correctAnswer == shown.correctAnswer && d.subject == shown.subject && d.tags == tags
  }

  /** Nothing of a buffer but its draft, its pin and its rejection has changed. */
  predicate SameButEdited(b: Buffer, b': Buffer) {
    && b'.failures == b.failures && b'.conflict == b.conflict && b'.validating == b.validating
    && b'.server == b.server && b'.ack == b.ack && b'.stamp == b.stamp && b'.inFlight == b.inFlight
  }

  predicate Pinned(b: Buffer, b': Buffer, i: Item, t: Target) {
    b'.dirty && b'.base.Some? && b'.base == if b.base.Some? then b.base else if b.stamp.Some? then b.stamp
                                            else Some(TargetStamp(i, t))
  }

  /** What an edit is for, field by field: a source locked by Generate takes no content; else the edited
      buffer takes the patch, its save target is pinned, and tags shown on both sides reach the other. */
  predicate EditMeans(r: Refs, r': Refs, i: Item, t: Target, p: Patch) {
    var content := p != Patch(None, None, None, None, p.tags, None);
    if t == Source && r.generating && content then r' == r
    else
      var s := if t == Source then Candidate else Source;
      var saved := if content || p.tags == None then t else Source;
      var other := if saved == Source then Candidate else Source;
      var shared := p.tags.Some? && (t == Candidate || i.candidate.Some?);
      && r'.Get(t).draft.Some? && Takes(r'.Get(t).draft.value, Shown(r, i, t), p)
      && (if shared then r'.Get(s).draft.Some? && SameButTags(r'.Get(s).draft.value, Shown(r, i, s), p.tags.value)
          else r'.Get(s).draft == r.Get(s).draft)
      && Pinned(r.Get(saved), r'.Get(saved), i, saved)
      && r'.Get(other).dirty == r.Get(other).dirty && r'.Get(other).base == r.Get(other).base
      && r'.Get(t).rejected == (r.Get(t).rejected && p.graphDsl.None?) && r'.Get(s).rejected == r.Get(s).rejected
      && SameButEdited(r.source, r'.source) && SameButEdited(r.candidate, r'.candidate)
      && r'.pendingTags == (if p.tags.Some? then p.tags else r.pendingTags)
      && r'.pendingGenerate == r.pendingGenerate && r'.generating == r.generating
  }

  lemma EditTakesPatch(r: Refs, i: Item, t: Target, p: Patch)
    ensures EditMeans(r, Edit(r, i, t, p), i, t, p)
  {
    hide TargetDraft, TargetStamp;
  }

  datatype Mark = Keep | Reset | Drop

  predicate Missing(i: Item, t: Target, keepCandidate: bool) {
    i.lifecycle.Deleted? || (t.Candidate? && i.candidate.None? && !keepCandidate)
  }

  predicate HasState(b: Buffer) {
    || b.draft.Some? || b.server.Some? || b.base.Some? || b.dirty || b.inFlight.Some?
    || b.failures != 0 || b.conflict
  }

  /** A prop snapshot that predates a save already acknowledged here. */
  predicate PredatesAck(b: Buffer, i: Item, t: Target) {
    && b.ack.Some?
    && var shown := if i.lifecycle.Deleted? || (t.Candidate? && i.candidate.None?) then None
       else Some(TargetDraft(i, t));
       && shown != Some(b.ack.value.saved)
       && shown == b.ack.value.previous
       && b.stamp == Some(TargetStamp(i, t))
  }

  predicate Ignores(b: Buffer, i: Item, t: Target) {
    IsStale(TargetStamp(i, t), b.stamp) || PredatesAck(b, i, t)
  }

  predicate Regenerated(b: Buffer, i: Item, t: Target) {
    t.Candidate? && b.stamp.Some? && TargetStamp(i, t).generation != b.stamp.value.generation
  }

  /** Someone else's version reached a buffer with pinned edits while no save of this item is out. */
  predicate Overtaken(b: Buffer, siblingSaving: bool, i: Item, t: Target) {
    && b.base.Some? && b.inFlight.None? && !siblingSaving
    && (|| i.revision != b.base.value.revision
        || GenerationOf(i, t) != b.base.value.generation
        || (b.server.Some? && b.server != Some(TargetDraft(i, t))))
  }

  predicate Guarded(b: Buffer) {
    b.dirty || b.inFlight.Some? || b.failures != 0 || b.conflict
  }

  /** One iteration of the reconcile loop: one target of one item of a server snapshot. */
  function ObserveBuffer(b: Buffer, siblingSaving: bool, tags: Option<seq<string>>, i: Item, t: Target,
                         keepCandidate: bool)
    : (Buffer, Mark)
  {
    if Ignores(b, i, t) then (b, Keep)
    else
      var b1 := b.(stamp := Some(TargetStamp(i, t)), ack := None);
      if Missing(i, t, keepCandidate) then (b1, if HasState(b1) then Drop else Keep)
      else
        var incoming := TargetDraft(i, t);
        var regenerated := Regenerated(b, i, t);
        var b2 := b1.(server := Some(incoming),
                      conflict := b.conflict || (!regenerated && Overtaken(b, siblingSaving, i, t)));
        if !regenerated && (b.server == Some(incoming) || Guarded(b2)) then (b2, Keep)
        else
          var seeded := if tags.Some? then incoming.(tags := tags.value) else incoming;
          (b2.(draft := Some(seeded), base := if regenerated then b2.base else None),
           if regenerated then Reset else Keep)
  }

  function MarkedBuffer(b: Buffer, m: Mark): Buffer {
    if m.Keep? then b
    else
      var cleared := b.(inFlight := None, base := None, ack := None, rejected := false,
                        dirty := false, failures := 0, conflict := false);
      if m.Drop? then cleared.(draft := None, server := None) else cleared
  }

  function ObserveTarget(r: Refs, i: Item, t: Target, keepCandidate: bool): (Refs, Mark) {
    var b := r.Get(t);
    var (b', m) := ObserveBuffer(b, r.Get(t.Sibling()).inFlight.Some?, r.pendingTags, i, t, keepCandidate);
    var r' := r.Put(t, b');
    (if b'.conflict && !b.conflict then CancelGenerate(r', t) else r', m)
  }

  function ApplyMark(r: Refs, t: Target, m: Mark): Refs {
    var r' := r.Put(t, MarkedBuffer(r.Get(t), m));
    if m.Keep? then r' else CancelGenerate(r', t)
  }

  function ForgetTags(r: Refs): Refs {
    r.(pendingTags := None)
  }

  /** The reconcile effect on the item a snapshot shows: both targets, then the resets, then the tags. */
  function Observe(r: Refs, i: Item, keepCandidate: bool): Refs {
    var (r1, m1) := ObserveTarget(r, i, Source, keepCandidate);
    var (r2, m2) := ObserveTarget(r1, i, Candidate, keepCandidate);
    var r3 := ApplyMark(ApplyMark(r2, Source, m1), Candidate, m2);
    if i.lifecycle.Deleted? then ForgetTags(r3) else r3
  }

  predicate Sendable(r: Refs, t: Target) {
    var b := r.Get(t);
    b.dirty && !b.conflict && b.inFlight.None? && r.Get(t.Sibling()).inFlight.None?
  }

  function Dispatch(r: Refs, t: Target, sent: Draft, seqNo: nat): (Refs, Option<Request>) {
    var b := r.Get(t);
    if !Sendable(r, t) || b.draft != Some(sent) then (r, None)
    else
      var base := if b.base.Some? then b.base else b.stamp;
      var revision := if base.Some? then base.value.revision else 0;
      var generation := if base.Some? then base.value.generation else 0;
      (r.Put(t, b.(inFlight := Some(Save(seqNo, revision, generation, r.Get(t.Sibling()).server, sent)))),
       Some(Request(t, seqNo, revision, sent)))
  }

  /** The debounce timer: a blank graph goes straight out, any other waits for its validation. */
  function Timer(r: Refs, t: Target, seqNo: nat): (Refs, Option<Request>) {
    var b := r.Get(t);
    if b.validating || b.rejected || !Sendable(r, t) || b.draft.None? then (r, None)
    else if Blank(b.draft.value.graphDsl) then
      Dispatch(r.Put(t, b.(rejected := false)), t, b.draft.value, seqNo)
    else (r.Put(t, b.(validating := true)), None)
  }

  /** A validation answer for the snapshot `sent`; answers for anything but the current draft are dropped. */
  function Settle(r: Refs, t: Target, sent: Draft, v: Validation, seqNo: nat): (Refs, Option<Request>) {
    var r0 := r.Put(t, r.Get(t).(validating := false));
    var b := r0.Get(t);
    if b.draft != Some(sent) then (r0, None)
    else match v
      case Valid => Dispatch(r0.Put(t, b.(rejected := false)), t, sent, seqNo)
      case Invalid => (CancelGenerate(r0.Put(t, b.(rejected := true)), t), None)
      case Unavailable => (CancelGenerate(r0.Put(t, Bump(b)), t), None)
  }

  // ---------------------------------------------------------------- finishing a save

  function SavedItem(o: Outcome): Option<Item> {
    if o.Saved? then o.item else None
  }

  function SavedRevision(save: Save, saved: Option<Item>): nat {
    if saved.Some? then saved.value.revision else save.revision
  }

  /** The result shows, or an earlier snapshot showed, a version this save did not write. */
  predicate Disowned(b: Buffer, t: Target, save: Save, saved: Option<Item>) {
    || (b.stamp.Some? &&
        var stamp := b.stamp.value;
        || stamp.revision > SavedRevision(save, saved)
        || stamp.generation != save.generation
        || (saved.Some? && !IsStale(stamp, Some(TargetStamp(saved.value, t))) && b.server != Some(save.sent)))
    || (saved.Some? &&
        var i := saved.value;
        || i.lifecycle.Deleted?
        || GenerationOf(i, t) != save.generation
        || i.revision > save.revision + 1
        || TargetDraft(i, t) != save.sent)
  }

  function SavedStamp(b: Buffer, t: Target, save: Save, saved: Option<Item>): Stamp {
    if saved.Some? && !IsStale(TargetStamp(saved.value, t), b.stamp) then TargetStamp(saved.value, t)
    else Stamp(SavedRevision(save, saved), save.generation,
               if b.stamp.Some? then b.stamp.value.time else 0,
               if b.stamp.Some? then b.stamp.value.raw else 0)
  }

  /** The returned item shows the sibling exactly as it was captured when this save went out. */
  predicate SiblingUntouched(r: Refs, s: Target, save: Save, i: Item) {
    var b := r.Get(s);
    var stamp := TargetStamp(i, s);
    var persisted := TargetDraft(i, s);
    && b.base.Some?
    && (|| b.base.value.revision == save.revision
        || (b.base.value.revision == stamp.revision && b.server == Some(persisted)))
    && b.base.value.generation == stamp.generation
    && !IsStale(stamp, b.stamp)
    && save.siblingDraft.Some?
    && persisted == save.siblingDraft.value.(tags := save.sent.tags)
  }

  predicate SiblingConcerned(r: Refs, s: Target, saved: Option<Item>) {
    && saved.Some? && r.Get(s).base.Some? && r.Get(s).dirty
    && (s.Source? || saved.value.candidate.Some?)
  }

  function Rebase(r: Refs, s: Target, i: Item): Refs {
    r.Put(s, r.Get(s).(base := Some(TargetStamp(i, s)), stamp := Some(TargetStamp(i, s)),
                       server := Some(TargetDraft(i, s))))
  }

  /** The draft now in the buffer is the one that was sent (candidate tags aside while tags are pending). */
  predicate LandedWhole(r: Refs, t: Target, sent: Draft) {
    var d := r.Get(t).draft;
    d.Some? && (d.value == sent || (t.Candidate? && r.pendingTags.Some? && d.value.(tags := sent.tags) == sent))
  }

  /** What an owned success does before the buffer can be called clean. */
  function Acknowledge(r: Refs, t: Target, save: Save, saved: Option<Item>): Refs {
    var b := r.Get(t);
    var stamp := SavedStamp(b, t, save, saved);
    var r1 := r.Put(t, b.(base := Some(stamp), stamp := Some(stamp),
                          ack := Some(Ack(save.sent, b.server)), server := Some(save.sent)));
    var r2 := if t.Source? && r.pendingTags == Some(save.sent.tags) then ForgetTags(r1) else r1;
    var s := t.Sibling();
    var r3 := if !SiblingConcerned(r2, s, saved) then r2
              else if SiblingUntouched(r2, s, save, saved.value) then Rebase(r2, s, saved.value)
              else MarkConflict(r2, s);
    r3.Put(t, r3.Get(t).(failures := 0))
  }

  /** Fires the Generate queued on this buffer when the landed draft is the confirmed one. */
  function FirePending(r: Refs, t: Target, revision: nat): (Refs, Option<Fire>) {
    if t.Source? && r.pendingGenerate.Some? && r.source.draft.Some?
       && PayloadOf(r.source.draft.value) == r.pendingGenerate.value then
      (r.(pendingGenerate := None), Some(Fire(r.pendingGenerate.value, revision)))
    else (r, None)
  }

  function FinishSave(r: Refs, t: Target, seqNo: nat, o: Outcome): (Refs, Option<Fire>) {
    var b := r.Get(t);
    if b.inFlight.None? || b.inFlight.value.seqNo != seqNo then (r, None)
    else
      var save := b.inFlight.value;
      var saved := SavedItem(o);
      var r0 := r.Put(t, b.(inFlight := None));
      if Disowned(b, t, save, saved) then (MarkConflict(r0, t), None)
      else if o.Saved? then
        var r1 := Acknowledge(r0, t, save, saved);
        if LandedWhole(r1, t, save.sent) then
          FirePending(r1.Put(t, r1.Get(t).(dirty := false, base := None)), t, SavedRevision(save, saved))
        else (r1, None)
      else
        var r1 := CancelGenerate(r0, t);
        (if o.mismatch then MarkConflict(r1, t) else r1.Put(t, Bump(r1.Get(t))), None)
  }

  // ---------------------------------------------------------------- Generate

  function ClickGenerate(r: Refs, i: Item): (Refs, Option<Fire>) {
    if r.generating || r.pendingGenerate.Some? then (r, None)
    else
      var payload := PayloadOf(Shown(r, i, Source));
      var r1 := r.(generating := true, pendingGenerate := Some(payload));
      if !r.source.dirty && r.source.inFlight.None? then
        (r1.(pendingGenerate := None), Some(Fire(payload, i.revision)))
      else (r1, None)
  }

  function GenerateSettled(r: Refs): Refs {
    r.(generating := false)
  }
}
