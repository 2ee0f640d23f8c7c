/** What moves the score of a problem: each lemma compares the whole score of two problems, or of one
    problem under two clocks or weights, that differ in one thing. */
module Scores {
  import opened Prelude
  import opened Selection

  /** `p` with another last attempt. */
  function Tested(p: Problem, at: int, correct: Option<bool>): Problem {
    p.(tracking := p.tracking.(lastTested := Some(at), lastCorrect := correct))
  }

  /** After a wrong last attempt a problem scores higher than after a right one, by this much; after an
      undecided one it lies between. */
  lemma LastAttemptCounts(p: Problem, at: int, cfg: Config, now: int, root: nat -> real)
    ensures var wrong, right, open := RawScore(Tested(p, at, Some(false)), cfg, now, root),
                                      RawScore(Tested(p, at, Some(true)), cfg, now, root),
                                      RawScore(Tested(p, at, None), cfg, now, root);
            var days := ((now - at) / DAY) as real;
            && wrong - right == 1.5 * cfg.lastWrongWeight + (0.5 + days / 30.0 - days / 40.0) * cfg.recencyWeight
            && open - right == 0.5 * cfg.lastWrongWeight + (days / 30.0 - days / 40.0) * cfg.recencyWeight
            && wrong - open == cfg.lastWrongWeight + 0.5 * cfg.recencyWeight
  {
    TestedScore(p, at, Some(false), cfg, now, root);
    TestedScore(p, at, Some(true), cfg, now, root);
    TestedScore(p, at, None, cfg, now, root);
    var days := ((now - at) / DAY) as real;
    var fixed := FailureScore(p.tracking.failed, p.tracking.correct, root) * cfg.failureWeight;
    SumsDiffer(0.5 + days / 30.0, days / 40.0, fixed, 2.0, 0.5, cfg);
    SumsDiffer(days / 30.0, days / 40.0, fixed, 1.0, 0.5, cfg);
    SumsDiffer(0.5 + days / 30.0, days / 30.0, fixed, 2.0, 1.0, cfg);
  }

  lemma SumsDiffer(a: real, b: real, fixed: real, x: real, y: real, cfg: Config)
    ensures (a * cfg.recencyWeight + fixed + x * cfg.lastWrongWeight)
            - (b * cfg.recencyWeight + fixed + y * cfg.lastWrongWeight)
            == (x - y) * cfg.lastWrongWeight + (a - b) * cfg.recencyWeight
  {
  }

  lemma TestedScore(p: Problem, at: int, correct: Option<bool>, cfg: Config, now: int, root: nat -> real)
    ensures var days := ((now - at) / DAY) as real;
            var recency := if correct == Some(true) then days / 40.0
                           else if correct == Some(false) then 0.5 + days / 30.0 else days / 30.0;
            var last := if correct == Some(true) then 0.5 else if correct == Some(false) then 2.0 else 1.0;
            RawScore(Tested(p, at, correct), cfg, now, root)
            == recency * cfg.recencyWeight
               + FailureScore(p.tracking.failed, p.tracking.correct, root) * cfg.failureWeight
               + last * cfg.lastWrongWeight
  {
    var q := Tested(p, at, correct);
    var days := ((now - at) / DAY) as real;
    assert RecencyScore(q, now) == if correct == Some(true) then days / 40.0
                                   else if correct == Some(false) then 0.5 + days / 30.0 else days / 30.0;
    assert LastWrongScore(q.tracking) == if correct == Some(true) then 0.5
                                         else if correct == Some(false) then 2.0 else 1.0;
    hide FailureScore, RecencyScore, LastWrongScore;
  }

  /** So with weights that are not negative the order is right, undecided, wrong. */
  lemma WrongAnswersComeBack(p: Problem, at: int, cfg: Config, now: int, root: nat -> real)
    requires cfg.lastWrongWeight >= 0.0 && cfg.recencyWeight >= 0.0 && at <= now
    ensures RawScore(Tested(p, at, Some(true)), cfg, now, root) <= RawScore(Tested(p, at, None), cfg, now, root)
            <= RawScore(Tested(p, at, Some(false)), cfg, now, root)
    ensures cfg.lastWrongWeight > 0.0 ==>
              RawScore(Tested(p, at, Some(true)), cfg, now, root) < RawScore(Tested(p, at, Some(false)), cfg, now, root)
  {
    hide RawScore;
    LastAttemptCounts(p, at, cfg, now, root);
    var days := ((now - at) / DAY) as real;
    NotNegative(days / 30.0 - days / 40.0, cfg.recencyWeight);
  }

  lemma NotNegative(a: real, b: real)
    requires a >= 0.0 && b >= 0.0
    ensures a * b >= 0.0
  {
  }

  /** The weight of the last attempt: 2 for a wrong one, 1/2 for a right one, 1 for an undecided one and for
      a problem never tested. */
  lemma LastWrongWeightCounts(p: Problem, cfg: Config, more: real, now: int, root: nat -> real)
    ensures var heavier := cfg.(lastWrongWeight := cfg.lastWrongWeight + more);
            var gain := RawScore(p, heavier, now, root) - RawScore(p, cfg, now, root);
            && (p.tracking.lastTested == None ==> gain == more)
            && (p.tracking.lastTested != None && p.tracking.lastCorrect == Some(false) ==> gain == 2.0 * more)
            && (p.tracking.lastTested != None && p.tracking.lastCorrect == Some(true) ==> gain == 0.5 * more)
            && (p.tracking.lastTested != None && p.tracking.lastCorrect == None ==> gain == more)
  {
    hide FailureScore, RecencyScore;
  }

  /** The moment the score of a problem grows old from. */
  function Since(p: Problem): int {
    if p.tracking.lastTested == None then p.createdAt else p.tracking.lastTested.value
  }

  /** One more day adds a twentieth of the recency weight before the first attempt, a fortieth after a
      right one, a thirtieth after any other. */
  lemma OneMoreDay(p: Problem, cfg: Config, now: int, root: nat -> real)
    ensures var gain := RawScore(p, cfg, now + 86_400_000_000, root) - RawScore(p, cfg, now, root);
            && (p.tracking.lastTested == None ==> gain == cfg.recencyWeight / 20.0)
            && (p.tracking.lastTested != None && p.tracking.lastCorrect == Some(true) ==>
                gain == cfg.recencyWeight / 40.0)
            && (p.tracking.lastTested != None && p.tracking.lastCorrect != Some(true) ==>
                gain == cfg.recencyWeight / 30.0)
  {
    hide FailureScore, LastWrongScore;
    assert (now + DAY - Since(p)) / DAY == (now - Since(p)) / DAY + 1;
    OneMoreRecent(p, now);
    DistributesOver(RecencyScore(p, now + DAY), RecencyScore(p, now), cfg.recencyWeight);
  }

  lemma OneMoreRecent(p: Problem, now: int)
    requires (now + DAY - Since(p)) / DAY == (now - Since(p)) / DAY + 1
    ensures RecencyScore(p, now + DAY) - RecencyScore(p, now)
            == if p.tracking.lastTested == None then 0.05
               else if p.tracking.lastCorrect == Some(true) then 0.025 else 1.0 / 30.0
  {
  }

  lemma DistributesOver(a: real, b: real, c: real)
    ensures a * c - b * c == (a - b) * c
  {
  }

  /** On its first day a problem has one recency weight before any attempt, none after a right or an
      undecided one, half of one after a wrong one. */
  lemma FirstDay(p: Problem, cfg: Config, more: real, now: int, root: nat -> real)
    requires Since(p) <= now < Since(p) + 86_400_000_000
    ensures var heavier := cfg.(recencyWeight := cfg.recencyWeight + more);
            var gain := RawScore(p, heavier, now, root) - RawScore(p, cfg, now, root);
            && (p.tracking.lastTested == None ==> gain == more)
            && (p.tracking.lastTested != None && p.tracking.lastCorrect == Some(false) ==> gain == 0.5 * more)
            && (p.tracking.lastTested != None && p.tracking.lastCorrect != Some(false) ==> gain == 0.0)
  {
    hide FailureScore, LastWrongScore;
    assert (now - Since(p)) / DAY == 0;
    FirstDayRecency(p, now);
    DistributesOver(cfg.recencyWeight + more, cfg.recencyWeight, RecencyScore(p, now));
  }

  lemma FirstDayRecency(p: Problem, now: int)
    requires (now - Since(p)) / DAY == 0
    ensures RecencyScore(p, now)
            == if p.tracking.lastTested == None then 1.0 else if p.tracking.lastCorrect == Some(false) then 0.5 else 0.0
  {
  }

  /** `p` with other counts. */
  function Counted(p: Problem, correct: nat, failed: nat): Problem {
    p.(tracking := p.tracking.(correct := correct, failed := failed))
  }

  /** The counts add the failure weight times: nothing when they balance, the quotient when failures lead
      over at least one right answer, else the signed root of the difference. */
  lemma CountsCount(p: Problem, correct: nat, failed: nat, cfg: Config, now: int, root: nat -> real)
    returns (share: real)
    requires SquareRoots(root)
    ensures RawScore(Counted(p, correct, failed), cfg, now, root) - RawScore(Counted(p, 0, 0), cfg, now, root)
            == share * cfg.failureWeight
    ensures failed > correct > 0 ==> share * correct as real == failed as real
    ensures correct == 0 || failed <= correct ==>
              && share * share == (if failed >= correct then failed - correct else correct - failed) as real
              && (failed >= correct ==> share >= 0.0) && (failed <= correct ==> share <= 0.0)
  {
    share := FailureScore(failed, correct, root);
    RawOfCounts(p, correct, failed, cfg, now, root);
    RawOfCounts(p, 0, 0, cfg, now, root);
    assert FailureScore(0, 0, root) == 0.0;
    var d: nat := if failed >= correct then failed - correct else correct - failed;
    assert root(d) >= 0.0 && Square(root(d)) == d as real;
    if failed == correct {
      assert share == 0.0;
    } else if failed > correct && correct > 0 {
      QuotientTimes(failed as real, correct as real);
    } else if failed < correct {
      assert share * share == root(d) * root(d);
    }
  }

  lemma QuotientTimes(a: real, b: real)
    requires b != 0.0
    ensures a / b * b == a
  {
  }

  lemma RawOfCounts(p: Problem, correct: nat, failed: nat, cfg: Config, now: int, root: nat -> real)
    ensures RawScore(Counted(p, correct, failed), cfg, now, root)
            == RecencyScore(p, now) * cfg.recencyWeight + FailureScore(failed, correct, root) * cfg.failureWeight
               + LastWrongScore(p.tracking) * cfg.lastWrongWeight
  {
    var q := Counted(p, correct, failed);
    assert RecencyScore(q, now) == RecencyScore(p, now) && LastWrongScore(q.tracking) == LastWrongScore(p.tracking);
    hide FailureScore, RecencyScore, LastWrongScore;
  }

  /** The score is the sum of its parts where that is positive and nothing elsewhere: never negative, and
      of two problems the one with the larger sum scores no less. */
  lemma ScoreIsFloored(p: Problem, q: Problem, cfg: Config, now: int, root: nat -> real)
    ensures Score(p, cfg, now, root) >= 0.0
    ensures RawScore(p, cfg, now, root) >= 0.0 ==> Score(p, cfg, now, root) == RawScore(p, cfg, now, root)
    ensures RawScore(p, cfg, now, root) <= RawScore(q, cfg, now, root) ==>
            Score(p, cfg, now, root) <= Score(q, cfg, now, root)
    ensures Score(p, cfg, now, root) > 0.0 <==> RawScore(p, cfg, now, root) > 0.0
  {
    hide RawScore;
  }

  /** A problem that may be tested at all becomes eligible at one moment and stays so: when it is old enough
      and has rested long enough since its last attempt. */
  lemma EligibleFromThen(p: Problem, cfg: Config, now: int)
    ensures var usable := !p.deleted && !p.disabled && p.answer.Some? && |p.answer.value| > 0;
            var aged, rested := p.createdAt + cfg.minAgeDays * 86_400_000_000,
                                p.tracking.lastTested.GetOr(0) + cfg.cooldownDays * 86_400_000_000;
            Eligible(p, cfg, now) <==>
              usable && (cfg.minAgeDays <= 0 || aged <= now) && (p.tracking.lastTested == None || rested <= now)
    ensures forall later :: Eligible(p, cfg, now) && now <= later ==> Eligible(p, cfg, later)
  {
  }
}
