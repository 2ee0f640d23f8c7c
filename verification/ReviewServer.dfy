/** The server side of the review editor: one ingestion item, its guarded writes and the
    rule that ties `contentRevision` to semantic content.

    Every interactive write carries the revision it was composed against and is refused
    when the item has moved on. Background workers never move the revision; one of them, the
    extraction worker, replaces the draft all the same. */
module ReviewServer {
  import opened Prelude

  /** The semantic fields of a source draft or of a generated candidate, as stored (null is None). */
  datatype Content = Content(
    text: Option<string>,
    problemType: Option<string>,
    graphDsl: Option<string>,
    correctAnswer: Option<string>,
    subject: Option<string>)

  datatype VariationStatus =
    | NotRequested | Queued | Generating | Validating | Ready | Failed | NeedsValidation

  /** Item lifecycle; the editable states are not told apart. */
  datatype Lifecycle = Editable | Deleted | Submitted

  datatype Item = Item(
    content: Content,
    tags: seq<string>,
    candidate: Option<Content>,
    original: Option<Content>,
    status: VariationStatus,
    generation: nat,
    revision: nat,
    readings: nat,  // extraction results that gave the draft another meaning; the store keeps no such number
    lifecycle: Lifecycle,
    time: int,      // milliseconds of updatedAt
    raw: int)       // rank of the updatedAt string in string order

  const BLANK := Content(None, None, None, None, None)

  // ---------------------------------------------------------------- semantic comparison

  /** Removes every whitespace run. */
  function Squeeze(s: string): string {
    if s == "" then ""
    else if PythonSpace(s[0]) then Squeeze(s[1..])
    else [s[0]] + Squeeze(s[1..])
  }

  function SemanticValue(v: Option<string>): Option<string> {
    if v.None? || Squeeze(v.value) == "" then None else Some(Squeeze(v.value))
  }

  function SemanticValues(c: Option<Content>): Content {
    if c.None? then BLANK
    else Content(
      SemanticValue(c.value.text),
      SemanticValue(c.value.problemType),
      SemanticValue(c.value.graphDsl),
      SemanticValue(c.value.correctAnswer),
      SemanticValue(c.value.subject))
  }

  predicate SemanticChange(before: Option<Content>, after: Option<Content>) {
    SemanticValues(before) != SemanticValues(after)
  }

  // ---------------------------------------------------------------- writes

  predicate InFlight(s: VariationStatus) {
    s.Queued? || s.Generating? || s.Validating?
  }

  predicate CandidateEditable(s: VariationStatus) {
    s.Ready? || s.NeedsValidation? || s.Failed?
  }

  /** Everything that can change a stored item. `expected` is the revision the caller composed against. */
  datatype Write =
    | WriteSource(expected: nat, content: Content, tags: seq<string>)
    | WriteCandidate(expected: nat, candidate: Content, newTags: Option<seq<string>>)
    | RequestGeneration(expected: nat, original: Content)
    | Revalidate(expected: nat)
    | Attest(expected: nat)
    | Claim
    | Checkpoint(produced: Content)
    | Verdict(outcome: VariationStatus)
    | Extract(read: Content, readTags: seq<string>)
    | Delete
    | Undelete
    | Submit
    | Touch

  predicate Admits(i: Item, w: Write) {
    match w
    case WriteSource(expected, _, _) => i.revision == expected && i.lifecycle.Editable?
    case WriteCandidate(expected, _, _) =>
      i.revision == expected && i.lifecycle.Editable? && CandidateEditable(i.status)
    case RequestGeneration(expected, _) =>
      i.revision == expected && i.lifecycle.Editable? && !InFlight(i.status)
    case Revalidate(expected) =>
      i.revision == expected && i.lifecycle.Editable? && i.status.NeedsValidation?
    case Attest(expected) =>
      i.revision == expected && i.lifecycle.Editable? && (i.status.NeedsValidation? || i.status.Failed?)
    case Claim => i.lifecycle.Editable? && InFlight(i.status)
    case Checkpoint(_) => i.lifecycle.Editable? && i.status.Generating?
    case Verdict(outcome) =>
      i.lifecycle.Editable? && (i.status.Generating? || i.status.Validating?) && CandidateEditable(outcome)
    case Extract(_, _) => i.lifecycle.Editable? && i.status.NotRequested?
    case Delete => i.lifecycle.Editable?
    case Undelete => i.lifecycle.Deleted?
    case Submit => i.lifecycle.Editable?
    case Touch => true
  }

  /** The stored item after an admitted write, apart from its new `updatedAt`. */
  function Written(i: Item, w: Write): Item
    requires Admits(i, w)
  {
    match w
    case WriteSource(_, content, tags) =>
      var written := i.(content := content, tags := tags);
      if SemanticChange(Some(i.content), Some(content)) then
        written.(revision := i.revision + 1, status := NotRequested, candidate := None, original := None)
      else written
    case WriteCandidate(_, candidate, tags) =>
      var written := i.(candidate := Some(candidate), tags := tags.GetOr(i.tags));
      if SemanticChange(i.candidate, Some(candidate)) then
        written.(revision := i.revision + 1, status := NeedsValidation)
      else written
    case RequestGeneration(_, original) =>
      i.(content := original, original := Some(original), candidate := None, status := Queued,
         revision := i.revision + 1, generation := i.generation + 1)
    case Revalidate(_) => i.(status := Queued)
    case Attest(_) => i.(status := Ready)
    case Claim => i.(status := if i.candidate.Some? then Validating else Generating)
    case Checkpoint(produced) => i.(candidate := Some(produced), status := Validating)
    case Verdict(outcome) => i.(status := outcome)
    case Extract(read, tags) =>
      i.(content := read, tags := tags,
         readings := if SemanticChange(Some(i.content), Some(read)) then i.readings + 1 else i.readings)
    case Delete => i.(lifecycle := Deleted)
    case Undelete => i.(lifecycle := Editable, status := if InFlight(i.status) then Queued else i.status)
    case Submit => i.(lifecycle := Submitted)
    case Touch => i
  }

  /** A write also stamps the item; nothing is promised about the order of stamps. */
  function Stored(i: Item, w: Write, time: int, raw: int): Item
    requires Admits(i, w)
  {
    Written(i, w).(time := time, raw := raw)
  }

  /** What every stored item satisfies: work without a checkpoint has no candidate. */
  predicate WellFormed(i: Item) {
    i.status.NotRequested? || i.status.Generating? ==> i.candidate.None?
  }

  // ---------------------------------------------------------------- what a revision pins down

  /** The same extraction result stands behind two states of one revision: always, unless no variant
      has been requested, for only then may the item be extracted again. */
  predicate SameReading(p: Item, q: Item) {
    p.readings == q.readings || !p.status.NotRequested?
  }

  /** `q` may be a later state of the item that was once `p`. */
  predicate Later(p: Item, q: Item) {
    && p.revision <= q.revision
    && p.generation <= q.generation
    && p.readings <= q.readings
    && (p.revision == q.revision ==>
          && p.generation == q.generation
          && (p.status.NotRequested? <==> q.status.NotRequested?)
          && (SameReading(p, q) ==> p.readings == q.readings && !SemanticChange(Some(p.content), Some(q.content)))
          && (p.candidate.Some? ==> q.candidate.Some? && !SemanticChange(p.candidate, q.candidate)))
    && (p.generation == q.generation ==>
          && (p.status.NotRequested? ==> q.status.NotRequested? && q.candidate.None?)
          && (p.candidate.Some? ==> q.candidate.Some? || q.status.NotRequested?)
          && (p.candidate.Some? && q.candidate.Some? ==> !SemanticChange(Some(p.content), Some(q.content))))
  }

  lemma LaterReflexive(p: Item)
    requires WellFormed(p)
    ensures Later(p, p)
  {
  }

  lemma LaterTransitive(p: Item, q: Item, r: Item)
    requires Later(p, q) && Later(q, r)
    ensures Later(p, r)
  {
  }

  /** The revision rule: no admitted write changes semantic content while keeping the revision,
      except an extraction result, which then counts as another reading. */
  lemma WriteIsLater(i: Item, w: Write, time: int, raw: int)
    requires WellFormed(i) && Admits(i, w)
    ensures WellFormed(Stored(i, w, time, raw))
    ensures Later(i, Stored(i, w, time, raw))
  {
  }

  /** The other half of the rule: the revision moves only for a change of meaning or a new
      generation, so tags, formatting and worker progress leave it alone. An extraction result
      leaves it alone whatever it changes. */
  lemma RevisionMovesOnlyOnChange(i: Item, w: Write)
    requires Admits(i, w)
    ensures var j := Written(i, w);
            j.revision != i.revision <==>
              || j.generation != i.generation
              || (!w.Extract? && SemanticChange(Some(i.content), Some(j.content)))
              || (!w.Checkpoint? && SemanticChange(i.candidate, j.candidate))
    ensures var j := Written(i, w);
            j.readings != i.readings <==> w.Extract? && SemanticChange(Some(i.content), Some(j.content))
  {
  }

  // ---------------------------------------------------------------- histories

  /** All states an item went through, oldest first. */
  ghost predicate History(hist: seq<Item>) {
    && |hist| > 0
    && (forall k :: 0 <= k < |hist| ==> WellFormed(hist[k]))
    && (forall j, k :: 0 <= j <= k < |hist| ==> Later(hist[j], hist[k]))
  }

  function Last(hist: seq<Item>): Item
    requires |hist| > 0
  {
    hist[|hist| - 1]
  }

  lemma HistoryExtends(hist: seq<Item>, w: Write, time: int, raw: int)
    requires History(hist) && Admits(Last(hist), w)
    ensures History(hist + [Stored(Last(hist), w, time, raw)])
  {
    var next := Stored(Last(hist), w, time, raw);
    var longer := hist + [next];
    WriteIsLater(Last(hist), w, time, raw);
    LaterReflexive(next);
    forall j, k | 0 <= j <= k < |longer|
      ensures Later(longer[j], longer[k])
    {
      if k == |hist| && j < |hist| {
        LaterTransitive(hist[j], Last(hist), next);
      }
    }
  }
}
