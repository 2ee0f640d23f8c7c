/** The home page's charts: the score histogram and the activity calendar. */
module HomeCharts {
  import opened Prelude
  import S = Selection
  import H = Home

  // ---------------------------------------------------------------- score histogram

  datatype Category = NeverTested | MinAged | Tested | Cooldown

  datatype Tallies = Tallies(neverTested: nat, minAged: nat, tested: nat, cooldown: nat)
  {
    function Of(c: Category): nat {
      match c
      case NeverTested => neverTested
      case MinAged => minAged
      case Tested => tested
      case Cooldown => cooldown
    }

    function Sum(): nat {
      neverTested + minAged + tested + cooldown
    }

    function Plus(c: Category): Tallies {
      match c
      case NeverTested => this.(neverTested := neverTested + 1)
      case MinAged => this.(minAged := minAged + 1)
      case Tested => this.(tested := tested + 1)
      case Cooldown => this.(cooldown := cooldown + 1)
    }
  }

  const NONE := Tallies(0, 0, 0, 0)

  datatype Bucket = Bucket(start: int, tallies: Tallies)

  /** Tested problems are never counted as too young. */
  function CategoryOf(p: S.Problem, cfg: S.Config, now: int): Category {
    match p.tracking.lastTested
    case Some(t) => if t > now - cfg.cooldownDays * S.DAY then Cooldown else Tested
    case None => if p.createdAt > now - cfg.minAgeDays * S.DAY then MinAged else NeverTested
  }

  /** The categories against the sampler's own test: a problem that is not deleted or disabled and has an
      answer may not be picked while cooling down, may be picked when never tested and old enough, and
      otherwise exactly when its age is no matter or has been reached. */
  lemma CategoryMeansEligible(p: S.Problem, cfg: S.Config, now: int)
    requires !p.deleted && !p.disabled && p.answer.Some? && p.answer.value != ""
    ensures var young := p.createdAt > now - cfg.minAgeDays * S.DAY;
            && (S.Eligible(p, cfg, now) <==>
                  CategoryOf(p, cfg, now) != Cooldown && (cfg.minAgeDays <= 0 || !young))
            && (CategoryOf(p, cfg, now) == NeverTested ==> S.Eligible(p, cfg, now))
            && (CategoryOf(p, cfg, now) == MinAged && cfg.minAgeDays > 0 ==> !S.Eligible(p, cfg, now))
            && (CategoryOf(p, cfg, now) in {NeverTested, MinAged} <==> p.tracking.lastTested == None)
            && (p.tracking.lastTested == None ==> (CategoryOf(p, cfg, now) == MinAged <==> young))
  {
  }

  /** A tested problem cools down for exactly the configured days; one never tested is too young for
      exactly the minimum age. */
  lemma CategoryInTime(p: S.Problem, cfg: S.Config, now: int)
    ensures p.tracking.lastTested != None ==>
              (CategoryOf(p, cfg, now) == Cooldown
               <==> now - p.tracking.lastTested.value < cfg.cooldownDays * 86_400_000_000)
    ensures p.tracking.lastTested == None ==>
              (CategoryOf(p, cfg, now) == MinAged <==> now - p.createdAt < cfg.minAgeDays * 86_400_000_000)
    ensures p.tracking.lastTested != None <==> CategoryOf(p, cfg, now) in {Cooldown, Tested}
  {
  }

  /** A bucket holds the scores from its start up to the next, before the floor at zero. */
  lemma BucketHolds(p: S.Problem, cfg: S.Config, now: int, root: nat -> real, b: int)
    ensures BucketOf(p, cfg, now, root) == b <==> b as real <= S.RawScore(p, cfg, now, root) < b as real + 1.0
    ensures S.Score(p, cfg, now, root) > 0.0 ==> BucketOf(p, cfg, now, root) >= 0
  {
    hide S.RawScore;
  }

  function BucketOf(p: S.Problem, cfg: S.Config, now: int, root: nat -> real): int {
    S.RawScore(p, cfg, now, root).Floor
  }

  /** The problems of a bucket and category; a document that is no valid problem is in none. */
  function CountIn(docs: seq<Option<S.Problem>>, cfg: S.Config, now: int, root: nat -> real, b: int, c: Category): nat {
    if docs == [] then 0
    else
      var last := docs[|docs| - 1];
      CountIn(docs[..|docs| - 1], cfg, now, root, b, c)
        + (if last.Some? && BucketOf(last.value, cfg, now, root) == b && CategoryOf(last.value, cfg, now) == c then 1
           else 0)
  }

  function CountValid(docs: seq<Option<S.Problem>>): nat {
    if docs == [] then 0 else CountValid(docs[..|docs| - 1]) + (if docs[|docs| - 1].Some? then 1 else 0)
  }

  predicate Occupied(docs: seq<Option<S.Problem>>, cfg: S.Config, now: int, root: nat -> real, b: int) {
    exists k :: 0 <= k < |docs| && docs[k].Some? && BucketOf(docs[k].value, cfg, now, root) == b
  }

  ghost predicate CountsAre(counts: map<int, Tallies>, docs: seq<Option<S.Problem>>, cfg: S.Config, now: int,
                            root: nat -> real) {
    && (forall b, c :: CountIn(docs, cfg, now, root, b, c) == (if b in counts then counts[b].Of(c) else 0))
    && (forall b :: b in counts <==> Occupied(docs, cfg, now, root, b))
  }

  lemma CountNext(counts: map<int, Tallies>, docs: seq<Option<S.Problem>>, p: S.Problem, cfg: S.Config, now: int,
                  root: nat -> real)
    requires CountsAre(counts, docs, cfg, now, root)
    ensures var b := BucketOf(p, cfg, now, root);
            var found := if b in counts then counts[b] else NONE;
            CountsAre(counts[b := found.Plus(CategoryOf(p, cfg, now))], docs + [Some(p)], cfg, now, root)
  {
    hide BucketOf, CategoryOf;
    var b := BucketOf(p, cfg, now, root);
    var more := docs + [Some(p)];
    assert more[..|docs|] == docs && more[|more| - 1] == Some(p);
    forall x, c ensures CountIn(more, cfg, now, root, x, c)
                        == CountIn(docs, cfg, now, root, x, c)
                           + (if x == b && c == CategoryOf(p, cfg, now) then 1 else 0) {}
    forall x ensures Occupied(more, cfg, now, root, x) <==> x == b || Occupied(docs, cfg, now, root, x) {
      assert more[|docs|] == Some(p);
      if k :| 0 <= k < |docs| && docs[k].Some? && BucketOf(docs[k].value, cfg, now, root) == x {
        assert more[k] == docs[k];
      }
    }
  }

  lemma CountSkip(counts: map<int, Tallies>, docs: seq<Option<S.Problem>>, cfg: S.Config, now: int, root: nat -> real)
    requires CountsAre(counts, docs, cfg, now, root)
    ensures CountsAre(counts, docs + [None], cfg, now, root)
  {
    hide BucketOf, CategoryOf;
    var more := docs + [None];
    assert more[..|docs|] == docs && more[|more| - 1] == None;
    forall x, c ensures CountIn(more, cfg, now, root, x, c) == CountIn(docs, cfg, now, root, x, c) {}
    forall x ensures Occupied(more, cfg, now, root, x) <==> Occupied(docs, cfg, now, root, x) {
      if k :| 0 <= k < |docs| && docs[k].Some? && BucketOf(docs[k].value, cfg, now, root) == x {
        assert more[k] == docs[k];
      }
    }
  }

  method CountBuckets(docs: seq<Option<S.Problem>>, cfg: S.Config, now: int, root: nat -> real)
    returns (counts: map<int, Tallies>)
    ensures CountsAre(counts, docs, cfg, now, root)
  {
    hide CategoryOf, CountsAre;
    counts := map[];
    NoCounts(cfg, now, root);
    for k := 0 to |docs|
      invariant CountsAre(counts, docs[..k], cfg, now, root)
    {
      assert docs[..k + 1] == docs[..k] + [docs[k]];
      if docs[k].None? {
        CountSkip(counts, docs[..k], cfg, now, root);
        continue;
      }
      var p := docs[k].value;
      CountNext(counts, docs[..k], p, cfg, now, root);
      var bucket := S.RawScore(p, cfg, now, root).Floor;
      ghost var before := counts;
      if bucket !in counts {
        counts := counts[bucket := NONE];
      }
      counts := counts[bucket := counts[bucket].Plus(CategoryOf(p, cfg, now))];
      assert counts == before[bucket :=
                              (if bucket in before then before[bucket] else NONE).Plus(CategoryOf(p, cfg, now))];
    }
    assert docs[..|docs|] == docs;
  }

  lemma NoCounts(cfg: S.Config, now: int, root: nat -> real)
    ensures CountsAre(map[], [], cfg, now, root)
  {
  }

  method Pick<T>(s: set<T>) returns (x: T)
    requires s != {}
    ensures x in s
  {
    x :| x in s;
  }

  method Extremes(counts: map<int, Tallies>) returns (low: int, high: int)
    requires counts != map[]
    ensures low in counts && high in counts && forall b :: b in counts ==> low <= b <= high
  {
    var left: set<int> := counts.Keys;
    assert left != {};
    var any := Pick(left);
    low, high := any, any;
    left := left - {any};
    while left != {}
      invariant left <= counts.Keys && low in counts && high in counts
      invariant forall b :: b in counts && b !in left ==> low <= b <= high
      decreases left
    {
      var b := Pick(left);
      left := left - {b};
      low, high := if b < low then b else low, if b > high then b else high;
    }
  }

  /** Every bucket from the lowest to the highest score, with every valid problem in exactly one
      category of the bucket its score falls in. */
  method ScoreDistribution(docs: seq<Option<S.Problem>>, cfg: S.Config, now: int, root: nat -> real)
    returns (buckets: seq<Bucket>)
    ensures forall k :: 0 <= k < |buckets| ==> buckets[k].start == buckets[0].start + k
    ensures forall k, c :: 0 <= k < |buckets| ==>
            buckets[k].tallies.Of(c) == CountIn(docs, cfg, now, root, buckets[k].start, c)
    ensures forall b :: Occupied(docs, cfg, now, root, b) ==>
            buckets != [] && buckets[0].start <= b < buckets[0].start + |buckets|
    ensures buckets != [] ==>
              && Occupied(docs, cfg, now, root, buckets[0].start)
              && Occupied(docs, cfg, now, root, buckets[|buckets| - 1].start)
    ensures Total(buckets) == CountValid(docs)
  {
    hide Occupied, CountIn, BucketOf, CategoryOf, CountsAre, CountValid, Total;
    var counts := CountBuckets(docs, cfg, now, root);
    buckets := SpreadBuckets(counts);
    SpreadIsCount(counts, buckets, docs, cfg, now, root);
    AllCounted(docs, buckets, cfg, now, root);
  }

  /** The counts from the lowest bucket to the highest, gaps filled with zeros. */
  predicate Spread(counts: map<int, Tallies>, buckets: seq<Bucket>) {
    && (buckets == [] ==> counts == map[])
    && (forall k :: 0 <= k < |buckets| ==> buckets[k].start == buckets[0].start + k)
    && (forall k :: 0 <= k < |buckets| ==>
          buckets[k].tallies == if buckets[k].start in counts then counts[buckets[k].start] else NONE)
    && (buckets != [] ==> buckets[0].start in counts && buckets[|buckets| - 1].start in counts)
    && (forall b | b in counts :: buckets != [] && buckets[0].start <= b < buckets[0].start + |buckets|)
  }

  method SpreadBuckets(counts: map<int, Tallies>) returns (buckets: seq<Bucket>)
    ensures Spread(counts, buckets)
  {
    if counts == map[] {
      return [];
    }
    var low, high := Extremes(counts);
    buckets := seq(high + 1 - low, k requires 0 <= k < high + 1 - low =>
                   Bucket(low + k, if low + k in counts then counts[low + k] else NONE));
  }

  lemma SpreadIsCount(counts: map<int, Tallies>, buckets: seq<Bucket>, docs: seq<Option<S.Problem>>, cfg: S.Config,
                      now: int, root: nat -> real)
    requires CountsAre(counts, docs, cfg, now, root) && Spread(counts, buckets)
    ensures forall k, c :: 0 <= k < |buckets| ==>
            buckets[k].tallies.Of(c) == CountIn(docs, cfg, now, root, buckets[k].start, c)
    ensures forall b :: Occupied(docs, cfg, now, root, b) ==>
            buckets != [] && buckets[0].start <= b < buckets[0].start + |buckets|
    ensures buckets != [] ==>
              && Occupied(docs, cfg, now, root, buckets[0].start)
              && Occupied(docs, cfg, now, root, buckets[|buckets| - 1].start)
  {
    hide CountIn, Occupied;
  }

  function Total(buckets: seq<Bucket>): nat {
    if buckets == [] then 0 else Total(buckets[..|buckets| - 1]) + buckets[|buckets| - 1].tallies.Sum()
  }

  function CountBucket(docs: seq<Option<S.Problem>>, cfg: S.Config, now: int, root: nat -> real, b: int): nat {
    CountIn(docs, cfg, now, root, b, NeverTested) + CountIn(docs, cfg, now, root, b, MinAged)
      + CountIn(docs, cfg, now, root, b, Tested) + CountIn(docs, cfg, now, root, b, Cooldown)
  }

  function CountRange(docs: seq<Option<S.Problem>>, cfg: S.Config, now: int, root: nat -> real, low: int, n: nat): nat {
    if n == 0 then 0 else CountRange(docs, cfg, now, root, low, n - 1) + CountBucket(docs, cfg, now, root, low + n - 1)
  }

  lemma {:induction false} RangeOfNothing(cfg: S.Config, now: int, root: nat -> real, low: int, n: nat)
    ensures CountRange([], cfg, now, root, low, n) == 0
  {
    if n > 0 {
      RangeOfNothing(cfg, now, root, low, n - 1);
    }
  }

  /** One more document adds one to the buckets of a range when its own bucket is among them. */
  lemma {:induction false} RangeOfOneMore(docs: seq<Option<S.Problem>>, cfg: S.Config, now: int, root: nat -> real,
                                          low: int, n: nat)
    requires docs != []
    ensures var last := docs[|docs| - 1];
            CountRange(docs, cfg, now, root, low, n)
            == CountRange(docs[..|docs| - 1], cfg, now, root, low, n)
               + (if last.Some? && low <= BucketOf(last.value, cfg, now, root) < low + n then 1 else 0)
  {
    hide BucketOf, CategoryOf;
    if n > 0 {
      RangeOfOneMore(docs, cfg, now, root, low, n - 1);
    }
  }

  lemma {:induction false} RangeCountsValid(docs: seq<Option<S.Problem>>, cfg: S.Config, now: int, root: nat -> real,
                                            low: int, n: nat)
    requires forall k :: 0 <= k < |docs| && docs[k].Some? ==> low <= BucketOf(docs[k].value, cfg, now, root) < low + n
    ensures CountRange(docs, cfg, now, root, low, n) == CountValid(docs)
  {
    hide BucketOf;
    if docs == [] {
      RangeOfNothing(cfg, now, root, low, n);
    } else {
      RangeOfOneMore(docs, cfg, now, root, low, n);
      RangeCountsValid(docs[..|docs| - 1], cfg, now, root, low, n);
    }
  }

  lemma {:induction false} TotalIsRange(docs: seq<Option<S.Problem>>, buckets: seq<Bucket>, cfg: S.Config, now: int,
                                        root: nat -> real, low: int)
    requires forall k :: 0 <= k < |buckets| ==> buckets[k].start == low + k
    requires forall k, c :: 0 <= k < |buckets| ==>
             buckets[k].tallies.Of(c) == CountIn(docs, cfg, now, root, buckets[k].start, c)
    ensures Total(buckets) == CountRange(docs, cfg, now, root, low, |buckets|)
  {
    hide CountIn;
    if buckets != [] {
      var n := |buckets| - 1;
      TotalIsRange(docs, buckets[..n], cfg, now, root, low);
      var t := buckets[n].tallies;
      assert t.Of(NeverTested) + t.Of(MinAged) + t.Of(Tested) + t.Of(Cooldown) == t.Sum();
    }
  }

  lemma AllCounted(docs: seq<Option<S.Problem>>, buckets: seq<Bucket>, cfg: S.Config, now: int, root: nat -> real)
    requires forall k :: 0 <= k < |buckets| ==> buckets[k].start == buckets[0].start + k
    requires forall k, c :: 0 <= k < |buckets| ==>
             buckets[k].tallies.Of(c) == CountIn(docs, cfg, now, root, buckets[k].start, c)
    requires forall b :: Occupied(docs, cfg, now, root, b) ==>
             buckets != [] && buckets[0].start <= b < buckets[0].start + |buckets|
    ensures Total(buckets) == CountValid(docs)
  {
    hide CountIn, BucketOf;
    var low := if buckets == [] then 0 else buckets[0].start;
    forall k | 0 <= k < |docs| && docs[k].Some?
      ensures low <= BucketOf(docs[k].value, cfg, now, root) < low + |buckets| {
      assert Occupied(docs, cfg, now, root, BucketOf(docs[k].value, cfg, now, root));
    }
    TotalIsRange(docs, buckets, cfg, now, root, low);
    RangeCountsValid(docs, cfg, now, root, low, |buckets|);
  }

  // ---------------------------------------------------------------- activity calendar

  const WINDOW := 365

  /** The attempts of one local day. */
  function CountOn(es: seq<H.Attempt>, dayOf: int -> int, d: int): nat {
    if es == [] then 0
    else (if es[0].time.Some? && dayOf(es[0].time.value) == d then 1 else 0) + CountOn(es[1..], dayOf, d)
  }

  lemma {:induction false} CountOnJoins(a: seq<H.Attempt>, b: seq<H.Attempt>, dayOf: int -> int, d: int)
    ensures CountOn(a + b, dayOf, d) == CountOn(a, dayOf, d) + CountOn(b, dayOf, d)
  {
    if a == [] {
      assert a + b == b;
    } else {
      assert (a + b)[1..] == a[1..] + b;
      CountOnJoins(a[1..], b, dayOf, d);
    }
  }

  function DateKey(time: Option<int>, dayOf: int -> int, today: int): Option<int> {
    if time.Some? && today - (WINDOW - 1) <= dayOf(time.value) <= today then Some(dayOf(time.value)) else None
  }

  ghost predicate Tracks(daily: map<int, nat>, es: seq<H.Attempt>, dayOf: int -> int, today: int) {
    && (forall d :: d in daily <==> today - (WINDOW - 1) <= d <= today)
    && (forall d :: d in daily ==> daily[d] == CountOn(es, dayOf, d))
  }

  function ActiveItems(items: seq<(H.Id, H.Verdict)>, active: set<H.Id>): nat {
    if items == [] then 0 else (if items[0].0 in active then 1 else 0) + ActiveItems(items[1..], active)
  }

  lemma {:induction false} ItemsOnDay(es: seq<H.Attempt>, items: seq<(H.Id, H.Verdict)>, time: Option<int>,
                                      active: set<H.Id>, dayOf: int -> int, d: int)
    requires |es| == |items| && forall k :: 0 <= k < |items| ==> es[k] == H.Attempt(items[k].0, time, items[k].1)
    ensures CountOn(H.OfActive(es, active), dayOf, d)
            == if time.Some? && dayOf(time.value) == d then ActiveItems(items, active) else 0
  {
    if items != [] {
      ItemsOnDay(es[1..], items[1..], time, active, dayOf, d);
      CountOnJoins(if es[0].problem in active then [es[0]] else [], H.OfActive(es[1..], active), dayOf, d);
    }
  }

  lemma TracksMore(daily: map<int, nat>, es: seq<H.Attempt>, more: seq<H.Attempt>, dayOf: int -> int, today: int,
                   key: Option<int>, n: nat)
    requires Tracks(daily, es, dayOf, today) && (key.Some? ==> key.value in daily)
    requires forall d :: d in daily ==> CountOn(more, dayOf, d) == if key == Some(d) then n else 0
    ensures Tracks(if key.Some? then daily[key.value := daily[key.value] + n] else daily, es + more, dayOf, today)
  {
    hide CountOn;
    forall d ensures CountOn(es + more, dayOf, d) == CountOn(es, dayOf, d) + CountOn(more, dayOf, d) {
      CountOnJoins(es, more, dayOf, d);
    }
  }

  /** One entry for each of the last days, in order, each counting the attempts of that day at active
      problems: practice and submitted exam items alike. */
  method ActivityDays(attempts: seq<H.Attempt>, exams: seq<H.ExamDoc>, active: set<H.Id>, dayOf: int -> int, today: int)
    returns (days: seq<(int, nat)>)
    ensures |days| == WINDOW
    ensures forall k :: 0 <= k < WINDOW ==> days[k].0 == today - (WINDOW - 1) + k
    ensures forall k :: 0 <= k < WINDOW ==> days[k].1 == CountOn(H.Events(attempts, exams, active), dayOf, days[k].0)
  {
    hide CountOn, H.OfActive, Tracks;
    var start := today - (WINDOW - 1);
    var daily: map<int, nat> := map[];
    for current := start to today + 1
      invariant forall d :: d in daily <==> start <= d < current
      invariant forall d :: d in daily ==> daily[d] == 0
    {
      daily := daily[current := 0];
    }
    NothingTracked(daily, dayOf, today, active);
    for k := 0 to |attempts|
      invariant Tracks(daily, H.OfActive(attempts[..k], active), dayOf, today)
    {
      assert attempts[..k + 1] == attempts[..k] + [attempts[k]];
      H.OfActiveJoins(attempts[..k], [attempts[k]], active);
      TrackAttempt(daily, H.OfActive(attempts[..k], active), attempts[k], active, dayOf, today);
      var key := DateKey(attempts[k].time, dayOf, today);
      if key.Some? && attempts[k].problem in active {
        daily := daily[key.value := daily[key.value] + 1];
      }
    }
    assert attempts[..|attempts|] == attempts;
    ghost var first := H.OfActive(attempts, active);
    assert exams[..0] == [] && first + [] == first;
    for k := 0 to |exams|
      invariant Tracks(daily, first + H.OfActive(H.ExamAttempts(exams[..k]), active), dayOf, today)
    {
      assert exams[..k + 1] == exams[..k] + [exams[k]];
      ghost var before := H.OfActive(H.ExamAttempts(exams[..k]), active);
      ghost var more := H.OfActive(H.ItemAttempts(exams[k]), active);
      H.ExamAttemptsJoin(exams[..k], exams[k]);
      H.OfActiveJoins(H.ExamAttempts(exams[..k]), H.ItemAttempts(exams[k]), active);
      assert first + before + more == first + (before + more);
      TrackExam(daily, first + before, exams[k], active, dayOf, today);
      var key := DateKey(exams[k].submittedAt, dayOf, today);
      if key.Some? {
        daily := daily[key.value := daily[key.value] + ActiveItems(exams[k].items, active)];
      }
    }
    assert exams[..|exams|] == exams;
    DaysOf(daily, H.Events(attempts, exams, active), dayOf, today);
    days := seq(WINDOW, k requires 0 <= k < WINDOW => (start + k, if start + k in daily then daily[start + k] else 0));
  }

  lemma NothingTracked(daily: map<int, nat>, dayOf: int -> int, today: int, active: set<H.Id>)
    requires forall d :: d in daily <==> today - (WINDOW - 1) <= d <= today
    requires forall d :: d in daily ==> daily[d] == 0
    ensures Tracks(daily, [], dayOf, today) && H.OfActive([], active) == []
            && H.OfActive(H.ExamAttempts([]), active) == []
  {
  }

  lemma DaysOf(daily: map<int, nat>, es: seq<H.Attempt>, dayOf: int -> int, today: int)
    requires Tracks(daily, es, dayOf, today)
    ensures forall d :: today - (WINDOW - 1) <= d <= today ==> d in daily && daily[d] == CountOn(es, dayOf, d)
  {
  }

  lemma TrackAttempt(daily: map<int, nat>, es: seq<H.Attempt>, e: H.Attempt, active: set<H.Id>, dayOf: int -> int,
                     today: int)
    requires Tracks(daily, es, dayOf, today)
    ensures var key := DateKey(e.time, dayOf, today);
            && (key.Some? ==> key.value in daily)
            && Tracks(if key.Some? && e.problem in active then daily[key.value := daily[key.value] + 1] else daily,
                      es + H.OfActive([e], active), dayOf, today)
  {
    assert [e][1..] == [] && H.OfActive([e], active) == if e.problem in active then [e] else [];
    var key := if e.problem in active then DateKey(e.time, dayOf, today) else None;
    TracksMore(daily, es, H.OfActive([e], active), dayOf, today, key, 1);
  }

  lemma TrackExam(daily: map<int, nat>, es: seq<H.Attempt>, x: H.ExamDoc, active: set<H.Id>, dayOf: int -> int,
                  today: int)
    requires Tracks(daily, es, dayOf, today)
    ensures var key := DateKey(x.submittedAt, dayOf, today);
            && (key.Some? ==> key.value in daily)
            && Tracks(if key.Some? then daily[key.value := daily[key.value] + ActiveItems(x.items, active)] else daily,
                      es + H.OfActive(H.ItemAttempts(x), active), dayOf, today)
  {
    forall d ensures CountOn(H.OfActive(H.ItemAttempts(x), active), dayOf, d)
                     == if x.submittedAt.Some? && dayOf(x.submittedAt.value) == d then ActiveItems(x.items, active)
                        else 0 {
      ItemsOnDay(H.ItemAttempts(x), x.items, x.submittedAt, active, dayOf, d);
    }
    TracksMore(daily, es, H.OfActive(H.ItemAttempts(x), active), dayOf, today, DateKey(x.submittedAt, dayOf, today),
               ActiveItems(x.items, active));
  }
}
