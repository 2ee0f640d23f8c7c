/** The editor itself: the refs of every item, held in maps and sets keyed by buffer and updated
    in place. Each handler takes, on the refs of its item, exactly the step `ReviewRefs` gives,
    and leaves every other item alone. */
module ReviewHook {
  import opened Prelude
  import opened ReviewServer
  import opened ReviewRefs

  datatype Key = Key(id: string, target: Target)

  /** One item of the batch on screen. */
  datatype Row = Row(id: string, item: Item)

  predicate DistinctRows(rows: seq<Row>) {
    forall j, k :: 0 <= j < k < |rows| ==> rows[j].id != rows[k].id
  }

  predicate OnScreen(rows: seq<Row>, id: string) {
    exists n :: 0 <= n < |rows| && rows[n].id == id
  }

  predicate Live(rows: seq<Row>, id: string) {
    exists n :: 0 <= n < |rows| && rows[n].id == id && !rows[n].item.lifecycle.Deleted?
  }

  function Find<K, V>(m: map<K, V>, k: K): Option<V> {
    if k in m then Some(m[k]) else None
  }

  class ReviewEditing {
    var drafts: map<Key, Draft>
    var dirty: set<Key>
    var failures: map<Key, nat>
    var conflicts: set<Key>
    var rejected: set<Key>
    var validating: set<Key>
    var server: map<Key, Draft>
    var acks: map<Key, Ack>
    var stamps: map<Key, Stamp>
    var bases: map<Key, Stamp>
    var inFlight: map<Key, Save>
    var saveSeq: nat
    var pendingTags: map<string, seq<string>>
    var pendingGenerate: map<string, Payload>
    var generating: set<string>

    ghost predicate Valid()
      reads this
    {
      forall k :: k in failures ==> failures[k] > 0
    }

    function BufferOf(k: Key): Buffer
      reads `drafts, `dirty, `failures, `conflicts, `rejected, `validating, `server, `acks, `stamps, `bases, `inFlight
    {
      Buffer(Find(drafts, k), k in dirty, Find(failures, k).GetOr(0), k in conflicts, k in rejected, k in validating,
             Find(server, k), Find(acks, k), Find(stamps, k), Find(bases, k), Find(inFlight, k))
    }

    /** The refs of one item as a value. */
    ghost function View(id: string): Refs
      reads this
    {
      Refs(BufferOf(Key(id, Source)), BufferOf(Key(id, Candidate)),
           Find(pendingTags, id), Find(pendingGenerate, id), id in generating)
    }

    constructor ()
      ensures Valid() && saveSeq == 0
      ensures forall id :: View(id) == FRESH
    {
      drafts, failures, server, acks := map[], map[], map[], map[];
      stamps, bases, inFlight := map[], map[], map[];
      dirty, conflicts, rejected, validating := {}, {}, {}, {};
      saveSeq, pendingTags, pendingGenerate, generating := 0, map[], map[], {};
    }

    method CancelPendingGenerate(k: Key)
      requires Valid()
      modifies this`pendingGenerate, this`generating
      ensures View(k.id) == CancelGenerate(old(View(k.id)), k.target)
      ensures forall x :: x != k.id ==> View(x) == old(View(x))
    {
      if k.target.Source? && k.id in pendingGenerate {
        pendingGenerate := pendingGenerate - {k.id};
        generating := generating - {k.id};
      }
    }

    method FlagConflict(k: Key)
      requires Valid()
      modifies this`conflicts, this`pendingGenerate, this`generating
      ensures View(k.id) == MarkConflict(old(View(k.id)), k.target)
      ensures forall x :: x != k.id ==> View(x) == old(View(x))
    {
      if k in conflicts {
        return;
      }
      conflicts := conflicts + {k};
      CancelPendingGenerate(k);
    }

    /** Pins the revision a first edit builds on; later edits keep the pin. */
    method Pin(k: Key, i: Item)
      modifies this`bases, this`dirty
      ensures var b := old(BufferOf(k));
              BufferOf(k) == b.(dirty := true,
                                base := if b.base.Some? then b.base else Some(b.stamp.GetOr(TargetStamp(i, k.target))))
      ensures forall x :: x != k ==> BufferOf(x) == old(BufferOf(x))
    {
      if k !in bases {
        bases := bases[k := if k in stamps then stamps[k] else TargetStamp(i, k.target)];
      }
      dirty := dirty + {k};
    }

    method PatchDraft(k: Key, i: Item, p: Patch)
      modifies this`drafts, this`rejected
      ensures var b := old(BufferOf(k));
              BufferOf(k) == b.(draft := Some(p.ApplyTo(b.draft.GetOr(TargetDraft(i, k.target)))),
                                rejected := b.rejected && p.graphDsl.None?)
      ensures forall x :: x != k ==> BufferOf(x) == old(BufferOf(x))
    {
      hide TargetDraft;
      if p.graphDsl.Some? {
        rejected := rejected - {k};
      }
      drafts := drafts[k := p.ApplyTo(if k in drafts then drafts[k] else TargetDraft(i, k.target))];
    }

    method ShareTags(k: Key, i: Item, tags: seq<string>)
      modifies this`drafts
      ensures var b := old(BufferOf(k));
              BufferOf(k) == b.(draft := Some(b.draft.GetOr(TargetDraft(i, k.target)).(tags := tags)))
      ensures forall x :: x != k ==> BufferOf(x) == old(BufferOf(x))
    {
      hide TargetDraft;
      var shown := if k in drafts then drafts[k] else TargetDraft(i, k.target);
      drafts := drafts[k := shown.(tags := tags)];
    }

    /** What an edit does to the buffers of its item: pins the save target, patches the edited draft
        and shows new tags in the other. */
    method EditBuffers(id: string, i: Item, t: Target, p: Patch)
      requires Valid()
      modifies this`drafts, this`dirty, this`bases, this`rejected
      ensures forall x: Target :: BufferOf(Key(id, x)) == EditBuffer(old(BufferOf(Key(id, x))), x, i, t, p)
      ensures forall x: Key :: x.id != id ==> BufferOf(x) == old(BufferOf(x))
    {
      hide TargetDraft, TargetStamp, BufferOf;
      Pin(Key(id, SaveTarget(t, p)), i);
      PatchDraft(Key(id, t), i, p);
      if p.tags.Some? && (t.Candidate? || i.candidate.Some?) {
        ShareTags(Key(id, t.Sibling()), i, p.tags.value);
      }
    }

    method UpdateDraft(id: string, i: Item, t: Target, p: Patch)
      requires Valid()
      modifies this
      ensures Valid() && saveSeq == old(saveSeq)
      ensures View(id) == Edit(old(View(id)), i, t, p)
      ensures EditMeans(old(View(id)), View(id), i, t, p)
      ensures forall x :: x != id ==> View(x) == old(View(x))
    {
      hide BufferOf, EditBuffer, EditMeans;
      EditTakesPatch(View(id), i, t, p);
      if t.Source? && id in generating && p.TouchesContent() {
        return;
      }
      EditBuffers(id, i, t, p);
      if p.tags.Some? {
        pendingTags := pendingTags[id := p.tags.value];
      }
    }

    // -------------------------------------------------------------- reconcile

    /** One pass of the loop body up to the conflict test: adopts the stamp and the server draft. */
    method AdoptVersion(k: Key, i: Item)
      modifies this`acks, this`stamps
      ensures BufferOf(k) == old(BufferOf(k)).(stamp := Some(TargetStamp(i, k.target)), ack := None)
      ensures forall x :: x != k ==> BufferOf(x) == old(BufferOf(x))
    {
      acks := acks - {k};
      stamps := stamps[k := TargetStamp(i, k.target)];
    }

    method AdoptServerDraft(k: Key, d: Draft, conflict: bool)
      modifies this`server, this`conflicts
      ensures var b := old(BufferOf(k));
              BufferOf(k) == b.(server := Some(d), conflict := b.conflict || conflict)
      ensures forall x :: x != k ==> BufferOf(x) == old(BufferOf(x))
    {
      server := server[k := d];
      if conflict {
        conflicts := conflicts + {k};
      }
    }

    method SeedDraft(k: Key, d: Draft, regenerated: bool)
      modifies this`drafts, this`bases
      ensures var b := old(BufferOf(k));
              BufferOf(k) == b.(draft := Some(d), base := if regenerated then b.base else None)
      ensures forall x :: x != k ==> BufferOf(x) == old(BufferOf(x))
    {
      drafts := drafts[k := d];
      if !regenerated {
        bases := bases - {k};
      }
    }

    /** One iteration of the reconcile loop, short of cancelling a queued Generate. */
    method ObserveKey(k: Key, i: Item, keepCandidate: bool) returns (m: Mark)
      modifies this`acks, this`stamps, this`server, this`conflicts, this`drafts, this`bases
      ensures var saving := old(BufferOf(Key(k.id, k.target.Sibling()))).inFlight.Some?;
              (BufferOf(k), m) == ObserveBuffer(old(BufferOf(k)), saving, Find(pendingTags, k.id), i, k.target,
                                                keepCandidate)
      ensures forall x :: x != k ==> BufferOf(x) == old(BufferOf(x))
    {
      hide TargetDraft, TargetStamp, BufferOf, Ignores, HasState, Missing, Regenerated, Overtaken, Guarded;
      var t := k.target;
      var b, saving := BufferOf(k), BufferOf(Key(k.id, t.Sibling())).inFlight.Some?;
      if Ignores(b, i, t) {
        return Keep;
      }
      AdoptVersion(k, i);
      if Missing(i, t, keepCandidate) {
        return if HasState(BufferOf(k)) then Drop else Keep;
      }
      var incoming, regenerated := TargetDraft(i, t), Regenerated(b, i, t);
      AdoptServerDraft(k, incoming, !regenerated && Overtaken(b, saving, i, t));
      if !regenerated && (b.server == Some(incoming) || Guarded(BufferOf(k))) {
        return Keep;
      }
      var seeded := if k.id in pendingTags then incoming.(tags := pendingTags[k.id]) else incoming;
      SeedDraft(k, seeded, regenerated);
      return if regenerated then Reset else Keep;
    }

    method ObserveOne(id: string, i: Item, t: Target, keepCandidate: bool) returns (m: Mark)
      requires Valid()
      modifies this
      ensures Valid() && saveSeq == old(saveSeq) && pendingTags == old(pendingTags)
      ensures (View(id), m) == ObserveTarget(old(View(id)), i, t, keepCandidate)
      ensures forall x :: x != id ==> View(x) == old(View(x))
    {
      hide BufferOf, ObserveBuffer;
      var k := Key(id, t);
      var before := BufferOf(k).conflict;
      m := ObserveKey(k, i, keepCandidate);
      if BufferOf(k).conflict && !before {
        CancelPendingGenerate(k);
      }
    }

    method ForgetSave(k: Key)
      modifies this`inFlight, this`bases, this`acks
      ensures BufferOf(k) == old(BufferOf(k)).(inFlight := None, base := None, ack := None)
      ensures forall x :: x != k ==> BufferOf(x) == old(BufferOf(x))
    {
      inFlight, bases, acks := inFlight - {k}, bases - {k}, acks - {k};
    }

    method ClearFlags(k: Key)
      requires Valid()
      modifies this`rejected, this`dirty, this`failures, this`conflicts
      ensures Valid()
      ensures BufferOf(k) == old(BufferOf(k)).(rejected := false, dirty := false, failures := 0, conflict := false)
      ensures forall x :: x != k ==> BufferOf(x) == old(BufferOf(x))
    {
      rejected, dirty, failures, conflicts := rejected - {k}, dirty - {k}, failures - {k}, conflicts - {k};
    }

    method DropContent(k: Key)
      modifies this`drafts, this`server
      ensures BufferOf(k) == old(BufferOf(k)).(draft := None, server := None)
      ensures forall x :: x != k ==> BufferOf(x) == old(BufferOf(x))
    {
      drafts, server := drafts - {k}, server - {k};
    }

    /** The end of the reconcile effect for one buffer. */
    method ResetBuffer(k: Key, m: Mark)
      requires Valid()
      modifies this
      ensures Valid() && saveSeq == old(saveSeq) && pendingTags == old(pendingTags)
      ensures View(k.id) == ApplyMark(old(View(k.id)), k.target, m)
      ensures forall x :: x != k.id ==> View(x) == old(View(x))
    {
      hide BufferOf;
      if m.Keep? {
        return;
      }
      ForgetSave(k);
      ClearFlags(k);
      if m.Drop? {
        DropContent(k);
      }
      CancelPendingGenerate(k);
    }

    /** Both passes over one row, before any reset. */
    method ObserveRow(row: Row, keepCandidate: bool) returns (m1: Mark, m2: Mark)
      requires Valid()
      modifies this
      ensures Valid() && saveSeq == old(saveSeq) && pendingTags == old(pendingTags)
      ensures var (r1, n1) := ObserveTarget(old(View(row.id)), row.item, Source, keepCandidate);
              var (r2, n2) := ObserveTarget(r1, row.item, Candidate, keepCandidate);
              View(row.id) == r2 && m1 == n1 && m2 == n2
      ensures forall x :: x != row.id ==> View(x) == old(View(x))
    {
      hide View, ObserveTarget;
      m1 := ObserveOne(row.id, row.item, Source, keepCandidate);
      m2 := ObserveOne(row.id, row.item, Candidate, keepCandidate);
    }

    /** Where the loop over the rows leaves one item, with the marks it has collected for it. */
    ghost predicate RowObserved(before: Refs, row: Row, keepCandidate: bool, m1: Mark, m2: Mark)
      reads this
    {
      var (r1, n1) := ObserveTarget(before, row.item, Source, keepCandidate);
      var (r2, n2) := ObserveTarget(r1, row.item, Candidate, keepCandidate);
      View(row.id) == r2 && m1 == n1 && m2 == n2
    }

    method ObserveRows(rows: seq<Row>, keepCandidate: Item -> bool) returns (marks: seq<(Mark, Mark)>)
      requires Valid() && DistinctRows(rows)
      modifies this
      ensures Valid() && saveSeq == old(saveSeq) && pendingTags == old(pendingTags) && |marks| == |rows|
      ensures forall n :: 0 <= n < |rows| ==>
                RowObserved(old(View(rows[n].id)), rows[n], keepCandidate(rows[n].item), marks[n].0, marks[n].1)
      ensures forall x :: !OnScreen(rows, x) ==> View(x) == old(View(x))
    {
      hide View, ObserveTarget;
      marks := [];
      for n := 0 to |rows|
        invariant Valid() && saveSeq == old(saveSeq) && pendingTags == old(pendingTags) && |marks| == n
        invariant forall j :: 0 <= j < n ==>
                    RowObserved(old(View(rows[j].id)), rows[j], keepCandidate(rows[j].item), marks[j].0, marks[j].1)
        invariant forall j :: n <= j < |rows| ==> View(rows[j].id) == old(View(rows[j].id))
        invariant forall x :: !OnScreen(rows, x) ==> View(x) == old(View(x))
      {
        var m1, m2 := ObserveRow(rows[n], keepCandidate(rows[n].item));
        marks := marks + [(m1, m2)];
      }
    }

    method ResetRows(rows: seq<Row>, marks: seq<(Mark, Mark)>)
      requires Valid() && DistinctRows(rows) && |marks| == |rows|
      modifies this
      ensures Valid() && saveSeq == old(saveSeq) && pendingTags == old(pendingTags)
      ensures forall n :: 0 <= n < |rows| ==>
                View(rows[n].id) == ApplyMark(ApplyMark(old(View(rows[n].id)), Source, marks[n].0), Candidate,
                                              marks[n].1)
      ensures forall x :: !OnScreen(rows, x) ==> View(x) == old(View(x))
    {
      hide View, ApplyMark;
      for n := 0 to |rows|
        invariant Valid() && saveSeq == old(saveSeq) && pendingTags == old(pendingTags)
        invariant forall j :: 0 <= j < n ==>
                    View(rows[j].id) == ApplyMark(ApplyMark(old(View(rows[j].id)), Source, marks[j].0), Candidate,
                                                  marks[j].1)
        invariant forall j :: n <= j < |rows| ==> View(rows[j].id) == old(View(rows[j].id))
        invariant forall x :: !OnScreen(rows, x) ==> View(x) == old(View(x))
      {
        ResetBuffer(Key(rows[n].id, Source), marks[n].0);
        ResetBuffer(Key(rows[n].id, Candidate), marks[n].1);
      }
    }

    method PrunePendingTags(rows: seq<Row>)
      modifies this`pendingTags
      ensures forall x :: View(x) == if Live(rows, x) then old(View(x)) else ForgetTags(old(View(x)))
    {
      hide BufferOf;
      pendingTags := map x | x in pendingTags && Live(rows, x) :: pendingTags[x];
    }

    /** The reconcile effect over the batch on screen. */
    method Reconcile(rows: seq<Row>, keepCandidate: Item -> bool)
      requires Valid() && DistinctRows(rows)
      modifies this
      ensures Valid() && saveSeq == old(saveSeq)
      ensures forall n :: 0 <= n < |rows| ==>
                View(rows[n].id) == Observe(old(View(rows[n].id)), rows[n].item, keepCandidate(rows[n].item))
      ensures forall x :: !OnScreen(rows, x) ==> View(x) == ForgetTags(old(View(x)))
    {
      hide View, ApplyMark, ObserveTarget, ForgetTags;
      var marks := ObserveRows(rows, keepCandidate);
      ResetRows(rows, marks);
      PrunePendingTags(rows);
      assert forall x :: !OnScreen(rows, x) ==> !Live(rows, x);
      assert forall n :: 0 <= n < |rows| ==> (Live(rows, rows[n].id) <==> !rows[n].item.lifecycle.Deleted?);
    }

    // -------------------------------------------------------------- saving

    method Track(k: Key, save: Save)
      modifies this`inFlight
      ensures BufferOf(k) == old(BufferOf(k)).(inFlight := Some(save))
      ensures forall x :: x != k ==> BufferOf(x) == old(BufferOf(x))
    {
      inFlight := inFlight[k := save];
    }

    /** Sends the draft unless the buffer has moved on since the draft was captured. */
    method Send(k: Key, sent: Draft) returns (q: Option<Request>)
      requires Valid()
      modifies this`inFlight, this`saveSeq
      ensures Valid()
      ensures (View(k.id), q) == Dispatch(old(View(k.id)), k.target, sent, old(saveSeq) + 1)
      ensures saveSeq == old(saveSeq) + (if q.Some? then 1 else 0)
      ensures forall x :: x != k.id ==> View(x) == old(View(x))
    {
      hide BufferOf;
      var b, s := BufferOf(k), BufferOf(Key(k.id, k.target.Sibling()));
      if !b.dirty || b.conflict || b.inFlight.Some? || s.inFlight.Some? || b.draft != Some(sent) {
        return None;
      }
      var base := if b.base.Some? then b.base else b.stamp;
      var revision := if base.Some? then base.value.revision else 0;
      var generation := if base.Some? then base.value.generation else 0;
      saveSeq := saveSeq + 1;
      Track(k, Save(saveSeq, revision, generation, s.server, sent));
      return Some(Request(k.target, saveSeq, revision, sent));
    }

    method SetValidation(k: Key, pending: bool, bad: bool)
      modifies this`validating, this`rejected
      ensures BufferOf(k) == old(BufferOf(k)).(validating := pending, rejected := bad)
      ensures forall x :: x != k ==> BufferOf(x) == old(BufferOf(x))
    {
      validating := if pending then validating + {k} else validating - {k};
      rejected := if bad then rejected + {k} else rejected - {k};
    }

    method CountFailure(k: Key)
      requires Valid()
      modifies this`failures
      ensures Valid() && BufferOf(k) == Bump(old(BufferOf(k)))
      ensures forall x :: x != k ==> BufferOf(x) == old(BufferOf(x))
    {
      failures := failures[k := (if k in failures then failures[k] else 0) + 1];
    }

    method FireTimer(k: Key) returns (q: Option<Request>)
      requires Valid()
      modifies this
      ensures Valid()
      ensures (View(k.id), q) == Timer(old(View(k.id)), k.target, old(saveSeq) + 1)
      ensures saveSeq == old(saveSeq) + (if q.Some? then 1 else 0)
      ensures forall x :: x != k.id ==> View(x) == old(View(x))
    {
      hide BufferOf, Blank, Dispatch;
      var b, s := BufferOf(k), BufferOf(Key(k.id, k.target.Sibling()));
      if b.validating || b.rejected || !b.dirty || b.conflict || b.inFlight.Some? || s.inFlight.Some? || b.draft.None? {
        return None;
      }
      if Blank(b.draft.value.graphDsl) {
        SetValidation(k, b.validating, false);
        q := Send(k, b.draft.value);
      } else {
        SetValidation(k, true, b.rejected);
        q := None;
      }
    }

    /** A snapshot that did not pass: a rejection is kept, an unavailable validation counts as a failure. */
    method RefuseSnapshot(k: Key, bad: bool)
      requires Valid()
      modifies this
      ensures Valid() && saveSeq == old(saveSeq)
      ensures var r, t := old(View(k.id)), k.target;
              View(k.id) == CancelGenerate(r.Put(t, if bad then r.Get(t).(rejected := true) else Bump(r.Get(t))), t)
      ensures forall x :: x != k.id ==> View(x) == old(View(x))
    {
      hide BufferOf, CancelGenerate, Bump;
      if bad {
        SetValidation(k, BufferOf(k).validating, true);
      } else {
        CountFailure(k);
      }
      CancelPendingGenerate(k);
    }

    method MarkValidation(k: Key, pending: bool, bad: bool)
      requires Valid()
      modifies this`validating, this`rejected
      ensures Valid()
      ensures var r, t := old(View(k.id)), k.target;
              View(k.id) == r.Put(t, r.Get(t).(validating := pending, rejected := bad))
      ensures forall x :: x != k.id ==> View(x) == old(View(x))
    {
      hide BufferOf;
      SetValidation(k, pending, bad);
    }

    method ValidationSettled(k: Key, sent: Draft, v: Validation) returns (q: Option<Request>)
      requires Valid()
      modifies this
      ensures Valid()
      ensures (View(k.id), q) == Settle(old(View(k.id)), k.target, sent, v, old(saveSeq) + 1)
      ensures saveSeq == old(saveSeq) + (if q.Some? then 1 else 0)
      ensures forall x :: x != k.id ==> View(x) == old(View(x))
    {
      hide BufferOf, Dispatch, CancelGenerate, Bump;
      var bad, current := k in rejected, Find(drafts, k) == Some(sent);
      assert bad == View(k.id).Get(k.target).rejected && current == (View(k.id).Get(k.target).draft == Some(sent)) by {
        BufferFields(k);
      }
      hide View;
      MarkValidation(k, false, bad);
      if !current {
        return None;
      }
      match v
      case Valid =>
        MarkValidation(k, false, false);
        q := Send(k, sent);
      case Invalid =>
        RefuseSnapshot(k, true);
        q := None;
      case Unavailable =>
        RefuseSnapshot(k, false);
        q := None;
    }

    lemma BufferFields(k: Key)
      ensures BufferOf(k).rejected == (k in rejected) && BufferOf(k).draft == Find(drafts, k)
    {
    }

    // -------------------------------------------------------------- finishing a save

    method StopTracking(k: Key)
      modifies this`inFlight
      ensures BufferOf(k) == old(BufferOf(k)).(inFlight := None)
      ensures forall x :: x != k ==> BufferOf(x) == old(BufferOf(x))
    {
      inFlight := inFlight - {k};
    }

    method AdoptSaved(k: Key, save: Save, stamp: Stamp)
      modifies this`bases, this`stamps, this`acks, this`server
      ensures var b := old(BufferOf(k));
              BufferOf(k) == b.(base := Some(stamp), stamp := Some(stamp),
                                ack := Some(Ack(save.sent, b.server)), server := Some(save.sent))
      ensures forall x :: x != k ==> BufferOf(x) == old(BufferOf(x))
    {
      acks := acks[k := Ack(save.sent, if k in server then Some(server[k]) else None)];
      bases, stamps, server := bases[k := stamp], stamps[k := stamp], server[k := save.sent];
    }

    method RebaseBuffer(k: Key, i: Item)
      modifies this`bases, this`stamps, this`server
      ensures BufferOf(k) == old(BufferOf(k)).(base := Some(TargetStamp(i, k.target)),
                                               stamp := Some(TargetStamp(i, k.target)),
                                               server := Some(TargetDraft(i, k.target)))
      ensures forall x :: x != k ==> BufferOf(x) == old(BufferOf(x))
    {
      hide TargetDraft, TargetStamp;
      bases, stamps := bases[k := TargetStamp(i, k.target)], stamps[k := TargetStamp(i, k.target)];
      server := server[k := TargetDraft(i, k.target)];
    }

    method ClearFailures(k: Key)
      requires Valid()
      modifies this`failures
      ensures Valid() && BufferOf(k) == old(BufferOf(k)).(failures := 0)
      ensures forall x :: x != k ==> BufferOf(x) == old(BufferOf(x))
    {
      failures := failures - {k};
    }

    method Clean(k: Key)
      modifies this`dirty, this`bases
      ensures BufferOf(k) == old(BufferOf(k)).(dirty := false, base := None)
      ensures forall x :: x != k ==> BufferOf(x) == old(BufferOf(x))
    {
      dirty, bases := dirty - {k}, bases - {k};
    }

    /** The tags a source save carried are no longer pending. */
    method SettleTags(k: Key, sent: Draft)
      modifies this`pendingTags
      ensures var r := old(View(k.id));
              View(k.id) == if k.target.Source? && r.pendingTags == Some(sent.tags) then ForgetTags(r) else r
      ensures forall x :: x != k.id ==> View(x) == old(View(x))
    {
      hide BufferOf;
      if k.target.Source? && k.id in pendingTags && pendingTags[k.id] == sent.tags {
        pendingTags := pendingTags - {k.id};
      }
    }

    method SettleSibling(k: Key, save: Save, saved: Option<Item>)
      requires Valid()
      modifies this
      ensures Valid() && saveSeq == old(saveSeq)
      ensures var r, s := old(View(k.id)), k.target.Sibling();
              View(k.id) == if !SiblingConcerned(r, s, saved) then r
                            else if SiblingUntouched(r, s, save, saved.value) then Rebase(r, s, saved.value)
                            else MarkConflict(r, s)
      ensures forall x :: x != k.id ==> View(x) == old(View(x))
    {
      hide BufferOf, TargetStamp, TargetDraft, IsStale, MarkConflict;
      var s := k.target.Sibling();
      var sibling := Key(k.id, s);
      var b := BufferOf(sibling);
      if saved.None? || b.base.None? || !b.dirty || (s.Candidate? && saved.value.candidate.None?) {
        return;
      }
      var stamp, persisted := TargetStamp(saved.value, s), TargetDraft(saved.value, s);
      if (b.base.value.revision == save.revision
          || (b.base.value.revision == stamp.revision && b.server == Some(persisted)))
         && b.base.value.generation == stamp.generation
         && !IsStale(stamp, b.stamp)
         && save.siblingDraft.Some?
         && persisted == save.siblingDraft.value.(tags := save.sent.tags)
      {
        RebaseBuffer(sibling, saved.value);
      } else {
        FlagConflict(sibling);
      }
    }

    /** The saved version becomes the buffer's own. */
    method AdoptResult(k: Key, save: Save, saved: Option<Item>)
      requires Valid()
      modifies this`bases, this`stamps, this`acks, this`server
      ensures Valid()
      ensures var r, t := old(View(k.id)), k.target;
              var b, stamp := r.Get(t), SavedStamp(r.Get(t), t, save, saved);
              View(k.id) == r.Put(t, b.(base := Some(stamp), stamp := Some(stamp),
                                        ack := Some(Ack(save.sent, b.server)), server := Some(save.sent)))
      ensures forall x :: x != k.id ==> View(x) == old(View(x))
    {
      hide BufferOf, SavedStamp;
      AdoptSaved(k, save, SavedStamp(BufferOf(k), k.target, save, saved));
    }

    method ForgetFailures(k: Key)
      requires Valid()
      modifies this`failures
      ensures Valid()
      ensures View(k.id) == old(View(k.id)).Put(k.target, old(View(k.id)).Get(k.target).(failures := 0))
      ensures forall x :: x != k.id ==> View(x) == old(View(x))
    {
      hide BufferOf;
      ClearFailures(k);
    }

    method AcknowledgeSave(k: Key, save: Save, saved: Option<Item>)
      requires Valid()
      modifies this
      ensures Valid() && saveSeq == old(saveSeq)
      ensures View(k.id) == Acknowledge(old(View(k.id)), k.target, save, saved)
      ensures forall x :: x != k.id ==> View(x) == old(View(x))
    {
      hide View, SavedStamp, SiblingConcerned, SiblingUntouched, Rebase, MarkConflict, ForgetTags;
      AdoptResult(k, save, saved);
      SettleTags(k, save.sent);
      SettleSibling(k, save, saved);
      ForgetFailures(k);
    }

    method FireQueued(k: Key, revision: nat) returns (fire: Option<Fire>)
      requires Valid()
      modifies this`pendingGenerate
      ensures (View(k.id), fire) == FirePending(old(View(k.id)), k.target, revision)
      ensures forall x :: x != k.id ==> View(x) == old(View(x))
    {
      hide BufferOf, PayloadOf;
      var b := BufferOf(k);
      if k.target.Source? && k.id in pendingGenerate && b.draft.Some?
        && PayloadOf(b.draft.value) == pendingGenerate[k.id] {
        fire := Some(Fire(pendingGenerate[k.id], revision));
        pendingGenerate := pendingGenerate - {k.id};
      } else {
        fire := None;
      }
    }

    /** An owned success: acknowledges, and cleans the buffer when its draft is the one that landed. */
    method Succeed(k: Key, save: Save, saved: Option<Item>) returns (fire: Option<Fire>)
      requires Valid()
      modifies this
      ensures Valid() && saveSeq == old(saveSeq)
      ensures var r, t := Acknowledge(old(View(k.id)), k.target, save, saved), k.target;
              (View(k.id), fire) ==
                if LandedWhole(r, t, save.sent)
                then FirePending(r.Put(t, r.Get(t).(dirty := false, base := None)), t, SavedRevision(save, saved))
                else (r, None)
      ensures forall x :: x != k.id ==> View(x) == old(View(x))
    {
      hide BufferOf, Acknowledge, FirePending;
      AcknowledgeSave(k, save, saved);
      var d := BufferOf(k).draft;
      if d.Some? && (d.value == save.sent
         || (k.target.Candidate? && k.id in pendingTags && d.value.(tags := save.sent.tags) == save.sent))
      {
        Clean(k);
        fire := FireQueued(k, SavedRevision(save, saved));
      } else {
        fire := None;
      }
    }

    method Fail(k: Key, mismatch: bool)
      requires Valid()
      modifies this
      ensures Valid() && saveSeq == old(saveSeq)
      ensures var r, t := CancelGenerate(old(View(k.id)), k.target), k.target;
              View(k.id) == if mismatch then MarkConflict(r, t) else r.Put(t, Bump(r.Get(t)))
      ensures forall x :: x != k.id ==> View(x) == old(View(x))
    {
      hide BufferOf;
      CancelPendingGenerate(k);
      if mismatch {
        FlagConflict(k);
      } else {
        CountFailure(k);
      }
    }

    /** The promise of a save settles; only the tracked save of the buffer is listened to. */
    method FinishTrackedSave(k: Key, seqNo: nat, o: Outcome) returns (fire: Option<Fire>)
      requires Valid()
      modifies this
      ensures Valid() && saveSeq == old(saveSeq)
      ensures (View(k.id), fire) == FinishSave(old(View(k.id)), k.target, seqNo, o)
      ensures forall x :: x != k.id ==> View(x) == old(View(x))
    {
      hide BufferOf, Disowned, Acknowledge, FirePending, LandedWhole, MarkConflict, CancelGenerate, Bump, SavedRevision;
      var b := BufferOf(k);
      fire := None;
      if b.inFlight.None? || b.inFlight.value.seqNo != seqNo {
        return;
      }
      var save, saved := b.inFlight.value, SavedItem(o);
      StopTracking(k);
      if Disowned(b, k.target, save, saved) {
        FlagConflict(k);
      } else if o.Saved? {
        fire := Succeed(k, save, saved);
      } else {
        Fail(k, o.mismatch);
      }
    }

    // -------------------------------------------------------------- Generate

    method HandleGenerate(id: string, i: Item) returns (fire: Option<Fire>)
      requires Valid()
      modifies this`pendingGenerate, this`generating
      ensures Valid()
      ensures (View(id), fire) == ClickGenerate(old(View(id)), i)
      ensures forall x :: x != id ==> View(x) == old(View(x))
    {
      hide BufferOf, PayloadOf, TargetDraft;
      fire := None;
      if id in generating || id in pendingGenerate {
        return;
      }
      var b := BufferOf(Key(id, Source));
      var payload := PayloadOf(b.draft.GetOr(TargetDraft(i, Source)));
      generating := generating + {id};
      if !b.dirty && b.inFlight.None? {
        fire := Some(Fire(payload, i.revision));
      } else {
        pendingGenerate := pendingGenerate[id := payload];
      }
    }

    method GenerateFinished(id: string)
      requires Valid()
      modifies this`generating
      ensures Valid() && View(id) == GenerateSettled(old(View(id)))
      ensures forall x :: x != id ==> View(x) == old(View(x))
    {
      hide BufferOf;
      generating := generating - {id};
    }
  }
}
