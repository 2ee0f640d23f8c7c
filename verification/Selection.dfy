/** Picking exam problems: eligibility, scores, and weighted sampling without replacement. */
module Selection {
  import opened Prelude
  import opened Sorting

  type Id = string

  const DAY := 86_400_000_000

  datatype Tracking = Tracking(lastTested: Option<int>, lastCorrect: Option<bool>, correct: nat, failed: nat)

  /** Times are in microseconds. */
  datatype Problem = Problem(
    id: Id, text: string, deleted: bool, disabled: bool, answer: Option<string>, createdAt: int, tracking: Tracking)

  datatype Config = Config(
    cooldownDays: int, minAgeDays: int, lastWrongWeight: real, failureWeight: real, recencyWeight: real)

  // ---------------------------------------------------------------- eligibility

  predicate Eligible(p: Problem, cfg: Config, now: int) {
    && !p.deleted && !p.disabled
    && p.answer.Some? && p.answer.value != ""
    && (cfg.minAgeDays > 0 ==> p.createdAt <= now - cfg.minAgeDays * DAY)
    && (p.tracking.lastTested.Some? ==> p.tracking.lastTested.value <= now - cfg.cooldownDays * DAY)
  }

  function Filter<T>(s: seq<T>, f: T -> bool): seq<T> {
    if s == [] then [] else if f(s[0]) then [s[0]] + Filter(s[1..], f) else Filter(s[1..], f)
  }

  lemma {:induction false} FilterJoins<T>(a: seq<T>, b: seq<T>, f: T -> bool)
    ensures Filter(a + b, f) == Filter(a, f) + Filter(b, f)
  {
    if a == [] {
      assert a + b == b;
    } else {
      assert (a + b)[1..] == a[1..] + b;
      FilterJoins(a[1..], b, f);
    }
  }

  lemma {:induction false} FilterKeeps<T>(s: seq<T>, f: T -> bool)
    ensures forall x :: x in Filter(s, f) <==> x in s && f(x)
    ensures Distinct(s) ==> Distinct(Filter(s, f))
  {
    if s != [] {
      FilterKeeps(s[1..], f);
      if Distinct(s) {
        assert forall k :: 0 <= k < |s| - 1 ==> s[1..][k] == s[k + 1];
        assert s[0] !in s[1..];
      }
    }
  }

  method GetEligible(problems: seq<Problem>, cfg: Config, now: int) returns (eligible: seq<Problem>)
    ensures eligible == Filter(problems, p => Eligible(p, cfg, now))
    ensures forall p :: p in eligible <==> p in problems && Eligible(p, cfg, now)
  {
    ghost var f := (p: Problem) => Eligible(p, cfg, now);
    eligible := [];
    for k := 0 to |problems|
      invariant eligible == Filter(problems[..k], f)
    {
      var p := problems[k];
      FilterJoins(problems[..k], [p], f);
      assert problems[..k + 1] == problems[..k] + [p];
      if p.deleted { continue; }
      if p.disabled { continue; }
      if p.answer.None? || p.answer.value == "" { continue; }
      if cfg.minAgeDays > 0 {
        var cutoff := now - cfg.minAgeDays * DAY;
        if p.createdAt > cutoff { continue; }
      }
      if p.tracking.lastTested.Some? {
        var cutoff := now - cfg.cooldownDays * DAY;
        if p.tracking.lastTested.value > cutoff { continue; }
      }
      eligible := eligible + [p];
    }
    assert problems[..|problems|] == problems;
    FilterKeeps(problems, f);
  }

  // ---------------------------------------------------------------- scores

  function Square(x: real): real {
    x * x
  }

  /** Non-negative square roots. */
  ghost predicate SquareRoots(root: nat -> real) {
    forall n :: root(n) >= 0.0 && Square(root(n)) == n as real
  }

  function FailureScore(failed: nat, correct: nat, root: nat -> real): real {
    if failed > correct && correct > 0 then failed as real / correct as real
    else if failed == correct then 0.0
    else if failed > correct then root(failed - correct)
    else -root(correct - failed)
  }

  function RecencyScore(p: Problem, now: int): real {
    var t := p.tracking;
    var reference := t.lastTested.GetOr(p.createdAt);
    var days := (now - reference) / DAY;
    if t.lastTested.None? then 1.0 + days as real / 20.0
    else if t.lastCorrect == Some(true) then days as real / 40.0
    else if t.lastCorrect == Some(false) then 0.5 + days as real / 30.0
    else days as real / 30.0
  }

  function LastWrongScore(t: Tracking): real {
    if t.lastTested.None? then 1.0
    else match t.lastCorrect
      case Some(true) => 0.5
      case Some(false) => 2.0
      case None => 1.0
  }

  /** The three weighted components together, before the floor at zero. */
  function RawScore(p: Problem, cfg: Config, now: int, root: nat -> real): real {
    RecencyScore(p, now) * cfg.recencyWeight
      + FailureScore(p.tracking.failed, p.tracking.correct, root) * cfg.failureWeight
      + LastWrongScore(p.tracking) * cfg.lastWrongWeight
  }

  function Score(p: Problem, cfg: Config, now: int, root: nat -> real): real {
    var total := RawScore(p, cfg, now, root);
    if total > 0.0 then total else 0.0
  }

  lemma SquaresGrow(a: real, b: real)
    requires 0.0 <= a < b
    ensures Square(a) < Square(b)
  {
    ProductPositive(b - a, b + a);
    assert (b - a) * (b + a) == b * b - a * a;
  }

  lemma ProductPositive(a: real, b: real)
    requires a > 0.0 && b > 0.0
    ensures a * b > 0.0
  {
  }

  lemma RootsGrow(root: nat -> real, m: nat, n: nat)
    requires SquareRoots(root) && m <= n
    ensures root(m) <= root(n)
  {
    hide Square;
    if root(n) < root(m) {
      SquaresGrow(root(n), root(m));
    }
  }

  /** Each further failure raises the failure score, through all of its branches; it is positive
      exactly when failures outnumber correct answers, and zero exactly when they balance. */
  lemma FailureScoreGrows(failed: nat, more: nat, correct: nat, root: nat -> real)
    requires SquareRoots(root) && failed <= more
    ensures FailureScore(failed, correct, root) <= FailureScore(more, correct, root)
    ensures FailureScore(failed, correct, root) > 0.0 <==> failed > correct
    ensures FailureScore(failed, correct, root) == 0.0 <==> failed == correct
  {
    RootPositive(root, if failed > correct then failed - correct else correct - failed);
    RootPositive(root, if more > correct then more - correct else correct - more);
    if failed <= more <= correct {
      RootsGrow(root, correct - more, correct - failed);
    } else if failed > correct && correct == 0 {
      RootsGrow(root, failed - correct, more - correct);
    } else if failed > correct {
      assert failed as real / correct as real <= more as real / correct as real by {
        QuotientGrows(failed as real, more as real, correct as real);
      }
    }
    if failed > correct && correct > 0 {
      QuotientPositive(failed as real, correct as real);
    }
    if more > correct && correct > 0 {
      QuotientPositive(more as real, correct as real);
    }
  }

  lemma RootPositive(root: nat -> real, n: nat)
    requires SquareRoots(root)
    ensures root(n) >= 0.0 && (root(n) == 0.0 <==> n == 0)
  {
    assert Square(0.0) == 0.0;
    hide Square;
    assert Square(root(n)) == n as real;
    if root(n) > 0.0 {
      SquaresGrow(0.0, root(n));
    }
  }

  lemma QuotientGrows(a: real, b: real, c: real)
    requires a <= b && c > 0.0
    ensures a / c <= b / c
  {
    assert b / c - a / c == (b - a) / c;
  }

  lemma QuotientPositive(a: real, c: real)
    requires a > 0.0 && c > 0.0
    ensures a / c > 0.0
  {
  }

  // ---------------------------------------------------------------- weighted sampling

  type Candidate = (Problem, real)

  /** The weight of the first `n` candidates. */
  function Prefix(cs: seq<Candidate>, n: nat): real
    requires n <= |cs|
  {
    if n == 0 then 0.0 else Prefix(cs, n - 1) + cs[n - 1].1
  }

  predicate Positive(cs: seq<Candidate>) {
    forall k :: 0 <= k < |cs| ==> cs[k].1 > 0.0
  }

  /** Candidate `k` owns the draws above the weight before it, up to and including its own; zero goes
      to the first. */
  predicate InInterval(cs: seq<Candidate>, k: nat, r: real)
    requires k < |cs|
  {
    (k == 0 || Prefix(cs, k) < r) && r <= Prefix(cs, k + 1)
  }

  lemma {:induction false} PrefixGrows(cs: seq<Candidate>, m: nat, n: nat)
    requires Positive(cs) && m <= n <= |cs|
    ensures Prefix(cs, m) <= Prefix(cs, n)
    ensures m < n ==> Prefix(cs, m) < Prefix(cs, n)
  {
    if m < n {
      PrefixGrows(cs, m, n - 1);
    }
  }

  lemma OneInterval(cs: seq<Candidate>, j: nat, k: nat, r: real)
    requires Positive(cs) && j < |cs| && k < |cs| && InInterval(cs, j, r) && InInterval(cs, k, r)
    ensures j == k
  {
    if j < k {
      PrefixGrows(cs, j + 1, k);
    } else if k < j {
      PrefixGrows(cs, k + 1, j);
    }
  }

  /** A draw from the unit interval, scaled to the total weight. */
  function DrawPoint(cs: seq<Candidate>, u: real): real {
    u * Prefix(cs, |cs|)
  }

  /** The index a draw falls on: the first whose cumulative weight reaches it, else the first of all. */
  function PickFrom(cs: seq<Candidate>, r: real, k: nat): (i: nat)
    requires k <= |cs| && 0 < |cs|
    ensures i < |cs|
    decreases |cs| - k
  {
    if k == |cs| then 0 else if r <= Prefix(cs, k + 1) then k else PickFrom(cs, r, k + 1)
  }

  method PickIndex(cs: seq<Candidate>, r: real) returns (chosen: nat)
    requires 0 < |cs|
    ensures chosen == PickFrom(cs, r, 0)
  {
    var cumulative := 0.0;
    chosen := 0;
    for k := 0 to |cs|
      invariant cumulative == Prefix(cs, k) && chosen == 0
      invariant PickFrom(cs, r, 0) == PickFrom(cs, r, k)
    {
      cumulative := cumulative + cs[k].1;
      if r <= cumulative {
        return k;
      }
    }
  }

  lemma {:induction false} PickFromOwns(cs: seq<Candidate>, r: real, k: nat)
    requires 0 < |cs| && k <= |cs| && r <= Prefix(cs, |cs|) && (k == 0 || Prefix(cs, k) < r)
    ensures InInterval(cs, PickFrom(cs, r, k), r)
    decreases |cs| - k
  {
    if k < |cs| && r > Prefix(cs, k + 1) {
      PickFromOwns(cs, r, k + 1);
    }
  }

  lemma PickIsInterval(cs: seq<Candidate>, r: real, k: nat)
    requires Positive(cs) && k < |cs| && r <= Prefix(cs, |cs|)
    ensures PickFrom(cs, r, 0) == k <==> InInterval(cs, k, r)
  {
    PickFromOwns(cs, r, 0);
    if InInterval(cs, k, r) {
      OneInterval(cs, PickFrom(cs, r, 0), k, r);
    }
  }

  /** Draw `u` picks candidate `k` exactly when it lies in that candidate's share of the unit interval,
      a share as wide as its weight is part of the total. */
  lemma DrawPicksItsShare(cs: seq<Candidate>, u: real, k: nat)
    requires Positive(cs) && k < |cs| && 0.0 <= u < 1.0
    ensures var total := Prefix(cs, |cs|);
            && total > 0.0
            && (PickFrom(cs, DrawPoint(cs, u), 0) == k
                <==> (k == 0 || Prefix(cs, k) / total < u) && u <= Prefix(cs, k + 1) / total)
            && Prefix(cs, k + 1) / total - Prefix(cs, k) / total == cs[k].1 / total
  {
    var total := Prefix(cs, |cs|);
    PrefixGrows(cs, 0, |cs|);
    assert Prefix(cs, k + 1) == Prefix(cs, k) + cs[k].1;
    hide PickFrom, Prefix, Positive, DrawPoint;
    DrawPointBelow(cs, u);
    PickIsInterval(cs, DrawPoint(cs, u), k);
    DrawPointDivided(cs, Prefix(cs, k), u);
    DrawPointDivided(cs, Prefix(cs, k + 1), u);
    SumDivided(Prefix(cs, k), cs[k].1, total);
  }

  lemma DrawPointBelow(cs: seq<Candidate>, u: real)
    requires u < 1.0 && Prefix(cs, |cs|) > 0.0
    ensures DrawPoint(cs, u) <= Prefix(cs, |cs|)
  {
    Scaled(u, 1.0, Prefix(cs, |cs|));
  }

  lemma DrawPointDivided(cs: seq<Candidate>, a: real, u: real)
    requires Prefix(cs, |cs|) > 0.0
    ensures a / Prefix(cs, |cs|) < u <==> a < DrawPoint(cs, u)
    ensures u <= a / Prefix(cs, |cs|) <==> DrawPoint(cs, u) <= a
  {
    hide Prefix;
    Divided(a, u, Prefix(cs, |cs|));
  }

  lemma SumDivided(a: real, b: real, t: real)
    requires t > 0.0
    ensures (a + b) / t - a / t == b / t
  {
  }

  lemma Scaled(a: real, b: real, c: real)
    requires a < b && c > 0.0
    ensures a * c < b * c
  {
  }

  lemma Divided(a: real, u: real, t: real)
    requires t > 0.0
    ensures a / t < u <==> a < u * t
    ensures u <= a / t <==> u * t <= a
  {
    var q := a / t;
    assert q * t == a;
    if q < u { Scaled(q, u, t); }
    if u < q { Scaled(u, q, t); }
  }

  function Removed<T>(s: seq<T>, k: nat): seq<T>
    requires k < |s|
  {
    s[..k] + s[k + 1..]
  }

  /** What sampling selects from `rest` on, the `n`-th draw being next. */
  function Sample(rest: seq<Candidate>, count: int, draws: nat -> real, n: nat): (r: (seq<Problem>, seq<Candidate>))
    decreases |rest|
  {
    if count <= 0 || rest == [] || Prefix(rest, |rest|) <= 0.0 then ([], rest)
    else
      var k := PickFrom(rest, DrawPoint(rest, draws(n)), 0);
      var later := Sample(Removed(rest, k), count - 1, draws, n + 1);
      ([rest[k].0] + later.0, later.1)
  }

  lemma SampleDraws(rest: seq<Candidate>, count: int, draws: nat -> real, n: nat)
    requires count > 0 && rest != [] && Prefix(rest, |rest|) > 0.0
    ensures var k := PickFrom(rest, DrawPoint(rest, draws(n)), 0);
            var later := Sample(Removed(rest, k), count - 1, draws, n + 1);
            Sample(rest, count, draws, n) == ([rest[k].0] + later.0, later.1)
  {
    hide PickFrom, DrawPoint, Prefix;
  }

  lemma SampleStops(rest: seq<Candidate>, count: int, draws: nat -> real, n: nat)
    requires count <= 0 || rest == [] || Prefix(rest, |rest|) <= 0.0
    ensures Sample(rest, count, draws, n) == ([], rest)
  {
    hide PickFrom, DrawPoint, Prefix;
  }

  method WeightedSample(candidates: seq<Candidate>, count: int, draws: nat -> real) returns (selected: seq<Problem>)
    ensures selected == Sample(candidates, count, draws, 0).0
  {
    hide Sample, PickFrom, DrawPoint, Prefix;
    selected := [];
    var remaining := candidates;
    assert [] + Sample(candidates, count, draws, 0).0 == Sample(candidates, count, draws, 0).0;
    while |selected| < count && remaining != []
      invariant Sample(candidates, count, draws, 0)
                == (var later := Sample(remaining, count - |selected|, draws, |selected|);
                    (selected + later.0, later.1))
      decreases |remaining|
    {
      var total := Prefix(remaining, |remaining|);
      if total <= 0.0 {
        SampleStops(remaining, count - |selected|, draws, |selected|);
        assert selected + [] == selected;
        return;
      }
      var k := PickIndex(remaining, DrawPoint(remaining, draws(|selected|)));
      SampleDraws(remaining, count - |selected|, draws, |selected|);
      ghost var after := Sample(Removed(remaining, k), count - |selected| - 1, draws, |selected| + 1);
      assert selected + ([remaining[k].0] + after.0) == (selected + [remaining[k].0]) + after.0;
      selected := selected + [remaining[k].0];
      remaining := Removed(remaining, k);
    }
    SampleStops(remaining, count - |selected|, draws, |selected|);
    assert selected + [] == selected;
  }

  function Firsts(cs: seq<Candidate>): seq<Problem> {
    seq(|cs|, k requires 0 <= k < |cs| => cs[k].0)
  }

  lemma RemovedElements<T>(s: seq<T>, k: nat)
    requires k < |s|
    ensures multiset(s) == multiset(Removed(s, k)) + multiset{s[k]}
  {
    assert s == s[..k] + [s[k]] + s[k + 1..];
  }

  lemma TotalPositive(cs: seq<Candidate>)
    requires Positive(cs) && cs != []
    ensures Prefix(cs, |cs|) > 0.0
  {
    PrefixGrows(cs, 0, |cs|);
  }

  /** Selected and remaining together are the candidates; with positive weights as many are selected as
      asked for, or all of them. */
  lemma {:induction false} SampleSplits(rest: seq<Candidate>, count: int, draws: nat -> real, n: nat)
    requires Positive(rest)
    ensures var (selected, left) := Sample(rest, count, draws, n);
            && multiset(selected) + multiset(Firsts(left)) == multiset(Firsts(rest))
            && |selected| == (if count <= 0 then 0 else if count <= |rest| then count else |rest|)
    decreases |rest|
  {
    hide PickFrom, DrawPoint, Prefix;
    if count > 0 && rest != [] {
      TotalPositive(rest);
      var k := PickFrom(rest, DrawPoint(rest, draws(n)), 0);
      SampleDraws(rest, count, draws, n);
      hide Sample, Firsts;
      var (selected, left) := Sample(Removed(rest, k), count - 1, draws, n + 1);
      SampleSplits(Removed(rest, k), count - 1, draws, n + 1);
      OneMoreSelected(rest, k, selected, left);
    }
  }

  lemma OneMoreSelected(rest: seq<Candidate>, k: nat, selected: seq<Problem>, left: seq<Candidate>)
    requires k < |rest| && multiset(selected) + multiset(Firsts(left)) == multiset(Firsts(Removed(rest, k)))
    ensures multiset([rest[k].0] + selected) + multiset(Firsts(left)) == multiset(Firsts(rest))
  {
    RemovedElements(Firsts(rest), k);
    assert Firsts(Removed(rest, k)) == Removed(Firsts(rest), k);
  }

  // ---------------------------------------------------------------- selecting

  function Weighted(problems: seq<Problem>, cfg: Config, now: int, root: nat -> real): seq<Candidate> {
    var eligible := Filter(problems, p => Eligible(p, cfg, now));
    Filter(seq(|eligible|, k requires 0 <= k < |eligible| => (eligible[k], Score(eligible[k], cfg, now, root))),
           (c: Candidate) => c.1 > 0.0)
  }

  predicate Selectable(p: Problem, cfg: Config, now: int, root: nat -> real) {
    Eligible(p, cfg, now) && Score(p, cfg, now, root) > 0.0
  }

  lemma WeightedAre(problems: seq<Problem>, cfg: Config, now: int, root: nat -> real)
    ensures Firsts(Weighted(problems, cfg, now, root)) == Filter(problems, p => Selectable(p, cfg, now, root))
    ensures Positive(Weighted(problems, cfg, now, root))
  {
    var eligible := Filter(problems, p => Eligible(p, cfg, now));
    var pairs := seq(|eligible|, k requires 0 <= k < |eligible| => (eligible[k], Score(eligible[k], cfg, now, root)));
    ScoredFilter(eligible, pairs, cfg, now, root);
    FilterTwice(problems, p => Eligible(p, cfg, now), p => Score(p, cfg, now, root) > 0.0,
                p => Selectable(p, cfg, now, root));
    var weighted := Filter(pairs, (c: Candidate) => c.1 > 0.0);
    FilterKeeps(pairs, (c: Candidate) => c.1 > 0.0);
    forall k | 0 <= k < |weighted| ensures weighted[k].1 > 0.0 { assert weighted[k] in weighted; }
  }

  lemma {:induction false} FilterTwice<T>(s: seq<T>, f: T -> bool, g: T -> bool, both: T -> bool)
    requires forall x :: x in s ==> (both(x) <==> f(x) && g(x))
    ensures Filter(Filter(s, f), g) == Filter(s, both)
  {
    if s != [] {
      FilterTwice(s[1..], f, g, both);
    }
  }

  lemma {:induction false} ScoredFilter(ps: seq<Problem>, pairs: seq<Candidate>, cfg: Config, now: int,
                                        root: nat -> real)
    requires |pairs| == |ps| && forall k :: 0 <= k < |ps| ==> pairs[k] == (ps[k], Score(ps[k], cfg, now, root))
    ensures Firsts(Filter(pairs, (c: Candidate) => c.1 > 0.0)) == Filter(ps, p => Score(p, cfg, now, root) > 0.0)
  {
    if ps != [] {
      ScoredFilter(ps[1..], pairs[1..], cfg, now, root);
      var rest := Filter(pairs[1..], (c: Candidate) => c.1 > 0.0);
      assert Firsts([pairs[0]] + rest) == [ps[0]] + Firsts(rest);
    }
  }

  /** The selection is duplicate-free, takes only eligible problems of positive score, and is as long
      as asked for or takes them all. */
  method SelectProblems(problems: seq<Problem>, count: int, cfg: Config, now: int, root: nat -> real,
                        draws: nat -> real)
    returns (selected: seq<Problem>)
    ensures forall p :: p in selected ==> p in problems && Selectable(p, cfg, now, root)
    ensures Distinct(problems) ==> Distinct(selected)
    ensures var n := |Filter(problems, p => Selectable(p, cfg, now, root))|;
            |selected| == (if count <= 0 then 0 else if count <= n then count else n)
  {
    hide Eligible, Score;
    var eligible := GetEligible(problems, cfg, now);
    var weighted: seq<Candidate> := [];
    ghost var pairs := seq(|eligible|, k requires 0 <= k < |eligible| =>
                           (eligible[k], Score(eligible[k], cfg, now, root)));
    for k := 0 to |eligible|
      invariant weighted == Filter(pairs[..k], (c: Candidate) => c.1 > 0.0)
    {
      var total := Score(eligible[k], cfg, now, root);
      FilterJoins(pairs[..k], [(eligible[k], total)], (c: Candidate) => c.1 > 0.0);
      assert pairs[..k + 1] == pairs[..k] + [(eligible[k], total)];
      if total > 0.0 {
        weighted := weighted + [(eligible[k], total)];
      }
    }
    assert pairs[..|eligible|] == pairs;
    WeightedAre(problems, cfg, now, root);
    assert weighted == Weighted(problems, cfg, now, root);
    selected := WeightedSample(weighted, count, draws);
    SampleSplits(weighted, count, draws, 0);
    SampleIsSound(problems, weighted, selected, Firsts(Sample(weighted, count, draws, 0).1), cfg, now, root);
  }

  lemma SampleIsSound(problems: seq<Problem>, weighted: seq<Candidate>, selected: seq<Problem>, left: seq<Problem>,
                      cfg: Config, now: int, root: nat -> real)
    requires Firsts(weighted) == Filter(problems, p => Selectable(p, cfg, now, root))
    requires multiset(selected) + multiset(left) == multiset(Firsts(weighted))
    ensures forall p :: p in selected ==> p in problems && Selectable(p, cfg, now, root)
    ensures Distinct(problems) ==> Distinct(selected)
    ensures |weighted| == |Filter(problems, p => Selectable(p, cfg, now, root))|
  {
    hide Selectable;
    var all := Firsts(weighted);
    FilterKeeps(problems, p => Selectable(p, cfg, now, root));
    forall p | p in selected ensures p in all {
      assert p in multiset(selected) + multiset(left);
    }
    if Distinct(problems) {
      forall p ensures multiset(selected)[p] <= 1 {
        CountInDistinct(all, p);
        assert multiset(selected)[p] <= multiset(all)[p];
      }
      DistinctByCount(selected);
    }
  }
}
