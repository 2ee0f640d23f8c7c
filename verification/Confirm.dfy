/** Confirming an ingestion preview, one database step at a time. */
module Confirm {
  import opened Prelude

  type Id = string

  datatype Status = Ready | VlmFailed | Confirmed | Elsewhere

  /** What the funnel from draft to problem looks at. `graphRejected` is the sanitizer's verdict. */
  datatype Draft = Draft(text: Option<string>, problemType: Option<string>, correctAnswer: Option<string>,
                         graphRejected: bool)

  datatype Preview = Preview(owner: string, status: Status, draft: Draft)

  datatype Origin = Origin(previewId: Option<string>, batchId: Option<string>, itemId: Option<string>)

  datatype Problem = Problem(owner: string, origin: Origin)

  datatype Failure =
    | NotFound | AlreadyConfirmed | InvalidPreview | InvalidGraph | InvalidProblemType | CreationFailed

  datatype Store = Store(previews: map<Id, Preview>, problems: map<Id, Problem>)

  // ---------------------------------------------------------------- the origin query

  datatype Field = PreviewField | BatchField | ItemField

  function FieldOf(o: Origin, f: Field): Option<string> {
    match f
    case PreviewField => o.previewId
    case BatchField => o.batchId
    case ItemField => o.itemId
  }

  predicate Given(v: Option<string>) {
    v.Some? && v.value != ""
  }

  /** Asks for every origin field that has a value; with none of them there is nothing to look up. */
  method BuildOriginQuery(o: Origin) returns (query: Option<map<Field, string>>)
    ensures query.Some? <==> exists f :: Given(FieldOf(o, f))
    ensures query.Some? ==> forall f ::
            (f in query.value <==> Given(FieldOf(o, f))) && (f in query.value ==> query.value[f] == FieldOf(o, f).value)
    ensures query == OriginQuery(o)
  {
    var m: map<Field, string> := map[];
    if Given(o.previewId) { m := m[PreviewField := o.previewId.value]; }
    if Given(o.batchId) { m := m[BatchField := o.batchId.value]; }
    if Given(o.itemId) { m := m[ItemField := o.itemId.value]; }
    assert forall f :: (f in m <==> Given(FieldOf(o, f))) && (f in m ==> m[f] == FieldOf(o, f).value);
    assert m == FieldsGiven(o);
    if m == map[] {
      forall f ensures !Given(FieldOf(o, f)) { assert f !in m; }
      return None;
    }
    var g :| g in m;
    assert Given(FieldOf(o, g));
    return Some(m);
  }

  const FIELDS := {PreviewField, BatchField, ItemField}

  function FieldsGiven(o: Origin): map<Field, string> {
    map f | f in FIELDS && Given(FieldOf(o, f)) :: FieldOf(o, f).value
  }

  function OriginQuery(o: Origin): Option<map<Field, string>> {
    if FieldsGiven(o) == map[] then None else Some(FieldsGiven(o))
  }

  predicate Matches(query: map<Field, string>, o: Origin) {
    forall f | f in query :: FieldOf(o, f) == Some(query[f])
  }

  function PreviewOrigin(pv: Id): Origin {
    Origin(Some(pv), None, None)
  }

  /** Looking up the origin of a preview finds exactly the problems made from that preview, whatever
      other origins problems have. */
  lemma PreviewQueryFindsItsProblems(pv: Id, o: Origin)
    requires pv != ""
    ensures OriginQuery(PreviewOrigin(pv)).Some?
    ensures Matches(OriginQuery(PreviewOrigin(pv)).value, o) <==> o.previewId == Some(pv)
  {
    var m := FieldsGiven(PreviewOrigin(pv));
    assert PreviewField in FIELDS && PreviewField in m && m[PreviewField] == pv;
    assert forall f :: f in m ==> f == PreviewField;
  }

  function MadeFrom(s: Store, pv: Id): set<Id> {
    set p | p in s.problems && s.problems[p].origin.previewId == Some(pv)
  }

  // ---------------------------------------------------------------- a draft

  const PROBLEM_TYPES := {"single-choice", "multi-choice", "fill-in-the-blank", "short-answer"}

  function Stripped(v: Option<string>): Option<string> {
    if v.None? || (forall k :: 0 <= k < |v.value| ==> PythonSpace(v.value[k])) then None else v
  }

  /** The checks before anything is looked up, in order. */
  function DraftFailure(d: Draft): Option<Failure> {
    if d.graphRejected then Some(InvalidGraph)
    else if Stripped(d.text).None? || d.problemType.None? || Stripped(d.correctAnswer).None? then Some(InvalidPreview)
    else if d.problemType.value !in PROBLEM_TYPES then Some(InvalidProblemType)
    else None
  }

  // ---------------------------------------------------------------- confirmers

  /** Where a confirmer is. A lost confirmer stopped in some phase without running its
      error path. */
  datatype Phase =
    | Claimed
    | Found(problem: Id)
    | Inserting(problem: Id)
    | Enqueueing(problem: Id)
    | Tagging(problem: Id)
    | Compensating(problem: Id)
    | RollingBack(why: Failure)
    | Returned(problem: Id)
    | Refused(why: Failure)
    | Lost(at: Phase)

  datatype Confirmer = Confirmer(preview: Id, before: Status, draft: Draft, owner: string, phase: Phase)

  /** `kept` are the confirmers whose insert has landed and whose delete, if any, has not. */
  datatype World = World(store: Store, confirmers: map<nat, Confirmer>, kept: set<nat>)

  datatype Event =
    | NewPreview(preview: Id, made: Preview)
    | PreviewChanges(preview: Id, status: Status, draft: Draft)
    | OtherProblem(problem: Id, other: Problem)
    | Confirming(who: nat, preview: Id, user: string)
    | LooksUp(who: nat, hit: Id, unused: Id)
    | Succeeds(who: nat)
    | Fails(who: nat, landed: bool)
    | Vanishes(who: nat)

  predicate Claimable(st: Status) {
    st.Ready? || st.VlmFailed?
  }

  /** The compare-and-set that decides who confirms. */
  function Claim(s: Store, pv: Id, user: string): (Store, Option<Preview>) {
    if pv in s.previews && s.previews[pv].owner == user && Claimable(s.previews[pv].status) then
      (s.(previews := s.previews[pv := s.previews[pv].(status := Confirmed)]), Some(s.previews[pv]))
    else (s, None)
  }

  function ClaimRefusal(s: Store, pv: Id, user: string): Failure {
    if pv in s.previews && s.previews[pv].owner == user then AlreadyConfirmed else NotFound
  }

  function WithProblem(s: Store, p: Id, c: Confirmer): Store {
    s.(problems := s.problems[p := Problem(c.owner, PreviewOrigin(c.preview))])
  }

  function Without(s: Store, p: Id): Store {
    s.(problems := s.problems - {p})
  }

  function Restored(s: Store, c: Confirmer): Store {
    if c.preview in s.previews then s.(previews := s.previews[c.preview := s.previews[c.preview].(status := c.before)])
    else s
  }

  /** The next database step of a confirmer goes through. */
  function Success(s: Store, c: Confirmer): (Store, Phase) {
    match c.phase
    case Found(p) => (s, Returned(p))
    case Inserting(p) => (WithProblem(s, p, c), Enqueueing(p))
    case Enqueueing(p) => (s, Tagging(p))
    case Tagging(p) => (s, Returned(p))
    case Compensating(p) => (Without(s, p), RollingBack(CreationFailed))
    case RollingBack(why) => (Restored(s, c), Refused(why))
    case _ => (s, c.phase)
  }

  /** The next database step raises. An insert, a delete or the roll back may have landed all the same. */
  function Failing(s: Store, c: Confirmer, landed: bool): (Store, Phase) {
    match c.phase
    case Found(p) => (s, Lost(c.phase))
    case Inserting(p) => (if landed then WithProblem(s, p, c) else s, Compensating(p))
    case Enqueueing(p) => (s, Compensating(p))
    case Tagging(p) => (s, Compensating(p))
    case Compensating(p) => (if landed then Without(s, p) else s, RollingBack(CreationFailed))
    case RollingBack(why) => (if landed then Restored(s, c) else s, Lost(c.phase))
    case Claimed => (s, Lost(c.phase))
    case _ => (s, c.phase)
  }

  /** What the look-up by origin can answer with. */
  function Matching(s: Store, o: Origin): set<Id> {
    var query := OriginQuery(o);
    if query.None? then {} else set p | p in s.problems && Matches(query.value, s.problems[p].origin)
  }

  /** Validation and look-up: `hit` is the match the database picks, `unused` the identity a new
      problem would get. */
  function LookedUp(s: Store, c: Confirmer, hit: Id, unused: Id): Phase {
    if !c.phase.Claimed? then c.phase
    else if DraftFailure(c.draft).Some? then RollingBack(DraftFailure(c.draft).value)
    else if hit in Matching(s, PreviewOrigin(c.preview)) then Found(hit)
    else if Matching(s, PreviewOrigin(c.preview)) == {} then Inserting(unused)
    else c.phase
  }

  predicate Mentions(ph: Phase, p: Id) {
    match ph
    case Found(q) => p == q
    case Inserting(q) => p == q
    case Enqueueing(q) => p == q
    case Tagging(q) => p == q
    case Compensating(q) => p == q
    case Returned(q) => p == q
    case _ => false
  }

  predicate Unused(w: World, p: Id) {
    p !in w.store.problems && forall h | h in w.confirmers :: !Mentions(w.confirmers[h].phase, p)
  }

  /** An identity is free when no stored problem has it and no confirmer holds it. */
  lemma UnusedMeansFree(w: World, p: Id)
    ensures Unused(w, p) <==>
              && p !in w.store.problems
              && forall h :: h in w.confirmers ==>
                   w.confirmers[h].phase !in {Found(p), Inserting(p), Enqueueing(p), Tagging(p), Compensating(p),
                                              Returned(p)}
  {
    forall h | h in w.confirmers
      ensures Mentions(w.confirmers[h].phase, p) <==>
                w.confirmers[h].phase in {Found(p), Inserting(p), Enqueueing(p), Tagging(p), Compensating(p),
                                          Returned(p)} {}
  }

  predicate Active(ph: Phase) {
    !ph.Returned? && !ph.Refused? && !ph.Lost?
  }

  /** Whether the problem a confirmer inserts or deletes is there after the step. */
  function KeptAfter(w: World, h: nat, s: Store): set<nat>
    requires h in w.confirmers
  {
    match w.confirmers[h].phase
    case Inserting(p) => if p in s.problems then w.kept + {h} else w.kept
    case Compensating(p) => if p in s.problems then w.kept else w.kept - {h}
    case _ => w.kept
  }

  function Moved(w: World, h: nat, out: (Store, Phase)): World
    requires h in w.confirmers
  {
    World(out.0, w.confirmers[h := w.confirmers[h].(phase := out.1)],
          if out.1 == w.confirmers[h].phase then w.kept else KeptAfter(w, h, out.0))
  }

  function Step(w: World, e: Event): World {
    var s := w.store;
    match e
    case NewPreview(pv, made) =>
      if pv == "" || pv in s.previews || made.status.Confirmed? then w
      else w.(store := s.(previews := s.previews[pv := made]))
    case PreviewChanges(pv, status, draft) =>
      if pv !in s.previews || s.previews[pv].status.Confirmed? || status.Confirmed? then w
      else w.(store := s.(previews := s.previews[pv := s.previews[pv].(status := status, draft := draft)]))
    case OtherProblem(p, other) =>
      if !Unused(w, p) || other.origin.previewId.Some? then w else w.(store := s.(problems := s.problems[p := other]))
    case Confirming(h, pv, user) =>
      if h in w.confirmers then w
      else
        var (s', claimed) := Claim(s, pv, user);
        World(s', w.confirmers[h :=
          if claimed.Some? then Confirmer(pv, claimed.value.status, claimed.value.draft, user, Claimed)
          else Confirmer(pv, Elsewhere, Draft(None, None, None, false), user, Refused(ClaimRefusal(s, pv, user)))],
            w.kept)
    case LooksUp(h, hit, unused) =>
      if h !in w.confirmers || !Unused(w, unused) then w
      else Moved(w, h, (s, LookedUp(s, w.confirmers[h], hit, unused)))
    case Succeeds(h) => if h !in w.confirmers then w else Moved(w, h, Success(s, w.confirmers[h]))
    case Fails(h, landed) => if h !in w.confirmers then w else Moved(w, h, Failing(s, w.confirmers[h], landed))
    case Vanishes(h) =>
      if h !in w.confirmers || !Active(w.confirmers[h].phase) then w else Moved(w, h, (s, Lost(w.confirmers[h].phase)))
  }

  const EMPTY := World(Store(map[], map[]), map[], {})

  function Run(w: World, events: seq<Event>): World
    decreases |events|
  {
    if events == [] then w else Run(Step(w, events[0]), events[1..])
  }
}
