/** Phase transitions, discovery saturation and the phase-1 completion conditions. */
module Phases {
  import opened Common

  datatype Phase = Bootstrap | Discovery | Collect | Validation | Phase1Complete | Incremental

  /** Position in the phase order. */
  function Rank(p: Phase): nat {
    match p
    case Bootstrap => 0
    case Discovery => 1
    case Collect => 2
    case Validation => 3
    case Phase1Complete => 4
    case Incremental => 5
  }

  /** The discovery numbers one run recorded: cumulative candidates, and the run's new ones. */
  datatype Yield = Yield(total: nat, created: nat)

  const WINDOW: nat := 5
  const MIN_RUNS: nat := 3

  /** The last `n` recorded runs. */
  function Recent(runs: seq<Yield>, n: nat): (r: seq<Yield>)
    ensures |r| == Min(n, |runs|) && r == runs[|runs| - |r|..]
  {
    runs[Max(0, |runs| - n)..]
  }

  /** A new-candidate rate of at most one in twenty; no candidates at all counts as low here. */
  predicate LowYield(y: Yield) {
    20 * y.created <= y.total
  }

  /** The streak's rule: a zero total is low whatever was new. */
  predicate LowForStreak(y: Yield) {
    y.total == 0 || LowYield(y)
  }

  /** Discovery has tapered off: enough runs, each with some candidates and few new ones. */
  predicate Saturated(runs: seq<Yield>) {
    var window := Recent(runs, WINDOW);
    |window| >= MIN_RUNS && forall i :: 0 <= i < |window| ==> window[i].total != 0 && LowYield(window[i])
  }

  lemma RateIsLow(y: Yield)
    requires y.total != 0
    ensures y.created as real / y.total as real <= 0.05 <==> LowYield(y)
  {
    var rate, total := y.created as real / y.total as real, y.total as real;
    assert rate * total == y.created as real;
    if rate <= 0.05 {
      assert rate * total <= 0.05 * total;
    } else {
      assert rate * total > 0.05 * total;
    }
  }

  lemma SaturatedIff(runs: seq<Yield>)
    ensures Saturated(runs) <==>
      && |runs| >= 3
      && forall i :: |runs| - 5 <= i < |runs| && 0 <= i ==> runs[i].total != 0 && 20 * runs[i].created <= runs[i].total
  {
    var window, start := Recent(runs, WINDOW), Max(0, |runs| - 5);
    assert window == runs[start..];
    assert forall i :: start <= i < |runs| ==> runs[i] == window[i - start];
  }

  method IsSaturated(runs: seq<Yield>) returns (saturated: bool)
    ensures saturated <==>
      && |runs| >= 3
      && forall i :: |runs| - 5 <= i < |runs| && 0 <= i ==> runs[i].total != 0 && 20 * runs[i].created <= runs[i].total
    ensures saturated <==> Saturated(runs)
  {
    SaturatedIff(runs);
    var window := Recent(runs, WINDOW);
    if |window| < MIN_RUNS {
      return false;
    }
    var rates: seq<real> := [];
    for i := 0 to |window|
      invariant |rates| == i
      invariant forall j :: 0 <= j < i ==> window[j].total != 0 && (rates[j] <= 0.05 <==> LowYield(window[j]))
    {
      var total := window[i].total;
      if total == 0 {
        return false;
      }
      RateIsLow(window[i]);
      rates := rates + [window[i].created as real / total as real];
    }
    saturated := forall j :: 0 <= j < |rates| ==> rates[j] <= 0.05;
    assert !saturated ==> exists j :: 0 <= j < |window| && !LowYield(window[j]);
  }

  // ---------------------------------------------------------------------
  // Phase-1 completion
  // ---------------------------------------------------------------------

  datatype Conditions = Conditions(
    queueEmpty: bool, minEntityCount: int, maxErrorRate: real, maxUnresolvedReview: int,
    requireSaturation: bool, consecutiveLowRuns: int)

  const DEFAULT_CONDITIONS := Conditions(true, 0, 0.5, 10_000, true, 3)

  datatype Signals = Signals(
    queueEmpty: bool, entityCount: int, errorRate: real, unresolvedReview: int,
    discoverySaturated: bool, consecutiveLowRuns: int)

  datatype Unmet = QueueNotEmpty | TooFewEntities | TooManyErrors | TooManyReviews | NotSaturated | StreakTooShort

  predicate Violates(s: Signals, c: Conditions, u: Unmet) {
    match u
    case QueueNotEmpty => c.queueEmpty && !s.queueEmpty
    case TooFewEntities => s.entityCount < c.minEntityCount
    case TooManyErrors => s.errorRate > c.maxErrorRate
    case TooManyReviews => s.unresolvedReview > c.maxUnresolvedReview
    case NotSaturated => c.requireSaturation && !s.discoverySaturated
    case StreakTooShort => c.consecutiveLowRuns != 0 && s.consecutiveLowRuns < c.consecutiveLowRuns
  }

  predicate ConditionsMet(s: Signals, c: Conditions) {
    && !Violates(s, c, QueueNotEmpty) && !Violates(s, c, TooFewEntities) && !Violates(s, c, TooManyErrors)
    && !Violates(s, c, TooManyReviews) && !Violates(s, c, NotSaturated) && !Violates(s, c, StreakTooShort)
  }

  /** Met exactly when nothing is violated; otherwise names exactly the violations. */
  method Phase1ConditionsMet(s: Signals, c: Conditions) returns (met: bool, unmet: seq<Unmet>)
    ensures met <==> ConditionsMet(s, c)
    ensures met <==> unmet == []
    ensures QueueNotEmpty in unmet <==> c.queueEmpty && !s.queueEmpty
    ensures TooFewEntities in unmet <==> s.entityCount < c.minEntityCount
    ensures TooManyErrors in unmet <==> s.errorRate > c.maxErrorRate
    ensures TooManyReviews in unmet <==> s.unresolvedReview > c.maxUnresolvedReview
    ensures NotSaturated in unmet <==> c.requireSaturation && !s.discoverySaturated
    ensures StreakTooShort in unmet <==> c.consecutiveLowRuns != 0 && s.consecutiveLowRuns < c.consecutiveLowRuns
    ensures forall u :: u in unmet <==> Violates(s, c, u)
  {
    unmet := [];
    ListsNext(unmet, s, c, QueueNotEmpty);
    if c.queueEmpty && !s.queueEmpty {
      unmet := unmet + [QueueNotEmpty];
    }
    ListsNext(unmet, s, c, TooFewEntities);
    if s.entityCount < c.minEntityCount {
      unmet := unmet + [TooFewEntities];
    }
    ListsNext(unmet, s, c, TooManyErrors);
    if s.errorRate > c.maxErrorRate {
      unmet := unmet + [TooManyErrors];
    }
    ListsNext(unmet, s, c, TooManyReviews);
    if s.unresolvedReview > c.maxUnresolvedReview {
      unmet := unmet + [TooManyReviews];
    }
    ListsNext(unmet, s, c, NotSaturated);
    if c.requireSaturation && !s.discoverySaturated {
      unmet := unmet + [NotSaturated];
    }
    ListsNext(unmet, s, c, StreakTooShort);
    if c.consecutiveLowRuns != 0 && s.consecutiveLowRuns < c.consecutiveLowRuns {
      unmet := unmet + [StreakTooShort];
    }
    ListsAll(unmet, s, c);
    met := |unmet| == 0;
    if !met { assert unmet[0] in unmet; }
  }

  function Order(u: Unmet): nat {
    match u
    case QueueNotEmpty => 0
    case TooFewEntities => 1
    case TooManyErrors => 2
    case TooManyReviews => 3
    case NotSaturated => 4
    case StreakTooShort => 5
  }

  /** `unmet` names the violations among the first `n` conditions. */
  ghost predicate Lists(unmet: seq<Unmet>, s: Signals, c: Conditions, n: nat) {
    forall u :: u in unmet <==> Violates(s, c, u) && Order(u) < n
  }

  lemma ListsNext(unmet: seq<Unmet>, s: Signals, c: Conditions, u: Unmet)
    requires Lists(unmet, s, c, Order(u))
    ensures Lists(if Violates(s, c, u) then unmet + [u] else unmet, s, c, Order(u) + 1)
  {
  }

  lemma ListsAll(unmet: seq<Unmet>, s: Signals, c: Conditions)
    requires Lists(unmet, s, c, 6)
    ensures forall u :: u in unmet <==> Violates(s, c, u)
  {
  }

  // ---------------------------------------------------------------------
  // One phase decision
  // ---------------------------------------------------------------------

  /** What the decision reads besides the recorded runs and the streak. */
  datatype Circumstances = Circumstances(
    queueEmpty: bool, entityCount: int, errorRate: real, unresolvedReview: int, conditions: Conditions)

  /** The streak after a run whose numbers are the last recorded ones. */
  function NextStreak(streak: int, runs: seq<Yield>): int {
    if runs == [] then streak
    else if LowForStreak(runs[|runs| - 1]) then streak + 1 else 0
  }

  /** The phase a run ends in, given the phase it worked in. */
  function NextPhase(phase: Phase, runs: seq<Yield>, streak: int, around: Circumstances): Phase {
    match phase
    case Discovery =>
      if (around.queueEmpty && Saturated(runs)) || !around.queueEmpty then Collect else Discovery
    case Collect =>
      if around.queueEmpty && Saturated(runs) then Validation else Collect
    case Validation =>
      var signals := Signals(around.queueEmpty, around.entityCount, around.errorRate, around.unresolvedReview,
                             Saturated(runs), streak);
      if ConditionsMet(signals, around.conditions) then Phase1Complete else Validation
    case Phase1Complete => Incremental
    case _ => phase
  }

  /** When each phase is left, in the numbers themselves. */
  lemma PhaseLeftIff(phase: Phase, runs: seq<Yield>, streak: int, around: Circumstances)
    ensures var low := |runs| >= 3 && forall i :: |runs| - 5 <= i < |runs| && 0 <= i ==>
              runs[i].total != 0 && 20 * runs[i].created <= runs[i].total;
            var next, c := NextPhase(phase, runs, streak, around), around.conditions;
            match phase
            case Discovery => next == if !around.queueEmpty || low then Collect else Discovery
            case Collect => next == if around.queueEmpty && low then Validation else Collect
            case Validation =>
              next == if && (c.queueEmpty ==> around.queueEmpty) && around.entityCount >= c.minEntityCount
                         && around.errorRate <= c.maxErrorRate && around.unresolvedReview <= c.maxUnresolvedReview
                         && (c.requireSaturation ==> low) && (c.consecutiveLowRuns == 0 || streak >= c.consecutiveLowRuns)
                      then Phase1Complete else Validation
            case Phase1Complete => next == Incremental
            case _ => next == phase
  {
    hide Saturated;
    SaturatedIff(runs);
  }
}
