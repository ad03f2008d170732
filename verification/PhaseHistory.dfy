/** Phases, streak and recorded runs of one job over any history of runs, crashed ones included. */
module PhaseHistory {
  import opened Phases

  /** What became of one run, as far as phases are concerned. `Completed` reached its final
      checkpoint save; the others died before recording numbers, between recording them and
      moving the phase, or between moving the phase and saving the streak. */
  datatype Run =
    | Completed(yielded: Yield, around: Circumstances)
    | DiedEarly(bootstrapped: bool)
    | DiedBeforePhase(yielded: Yield)
    | DiedBeforeSave(yielded: Yield, around: Circumstances)

  /** The job's phase and streak, its recorded runs, and those of them that reached their save. */
  datatype JobState = JobState(phase: Phase, streak: int, recorded: seq<Yield>, saved: seq<Yield>)

  const FRESH_JOB := JobState(Bootstrap, 0, [], [])

  /** A bootstrap job works as a discovery job. */
  function WorkingPhase(p: Phase): Phase {
    if p == Bootstrap then Discovery else p
  }

  function After(s: JobState, run: Run): JobState {
    match run
    case DiedEarly(bootstrapped) => if bootstrapped then s.(phase := WorkingPhase(s.phase)) else s
    case DiedBeforePhase(y) => s.(phase := WorkingPhase(s.phase), recorded := s.recorded + [y])
    case DiedBeforeSave(y, around) =>
      var recorded := s.recorded + [y];
      s.(phase := NextPhase(WorkingPhase(s.phase), recorded, StreakFor(s, recorded), around), recorded := recorded)
    case Completed(y, around) =>
      var recorded := s.recorded + [y];
      var streak := StreakFor(s, recorded);
      JobState(NextPhase(WorkingPhase(s.phase), recorded, streak, around), streak, recorded, s.saved + [y])
  }

  /** An incremental job no longer touches its streak. */
  function StreakFor(s: JobState, recorded: seq<Yield>): int {
    if s.phase == Incremental then s.streak else NextStreak(s.streak, recorded)
  }

  lemma WorkingIs(p: Phase)
    ensures WorkingPhase(p) == if p == Bootstrap then Discovery else p
  {
  }

  /** Whether the phase left bootstrap before or within the run makes no difference. */
  lemma CompletedAfter(s: JobState, yielded: Yield, around: Circumstances)
    ensures After(s, Completed(yielded, around)) == After(s.(phase := WorkingPhase(s.phase)), Completed(yielded, around))
  {
  }

  lemma DiedAfter(s: JobState)
    ensures After(s, DiedEarly(true)) == s.(phase := WorkingPhase(s.phase))
  {
  }

  function Final(runs: seq<Run>): JobState {
    if runs == [] then FRESH_JOB else After(Final(runs[..|runs| - 1]), runs[|runs| - 1])
  }

  // ---------------------------------------------------------------------
  // The phase gate
  // ---------------------------------------------------------------------

  /** One run never moves a job backwards, moves it at most one phase (two out of bootstrap),
      and never out of incremental. */
  lemma OneRunPhase(s: JobState, run: Run)
    ensures Rank(s.phase) <= Rank(After(s, run).phase)
    ensures Rank(After(s, run).phase) <= Rank(s.phase) + if s.phase == Bootstrap then 2 else 1
    ensures s.phase == Incremental ==> After(s, run).phase == Incremental
  {
    hide Saturated, ConditionsMet, NextStreak;
  }

  /** Leaving collect takes an empty queue and three to five recorded runs, each with candidates
      and at most one in twenty new, whatever conditions the job configures. */
  lemma CollectGate(s: JobState, run: Run)
    requires s.phase == Collect && After(s, run).phase != Collect
    ensures After(s, run).phase == Validation
    ensures (run.Completed? || run.DiedBeforeSave?) && run.around.queueEmpty
    ensures |After(s, run).recorded| >= MIN_RUNS
    ensures forall y :: y in Recent(After(s, run).recorded, WINDOW) ==> y.total > 0 && 20 * y.created <= y.total
  {
  }

  /** How many recorded runs a phase certifies. */
  function RunsBehind(p: Phase): nat {
    match p
    case Validation => 3
    case Phase1Complete => 4
    case Incremental => 5
    case _ => 0
  }

  /** Over any history, crashes included, later phases certify more and more recorded runs. */
  lemma {:induction false} PhaseCertifiesRuns(runs: seq<Run>)
    ensures |Final(runs).recorded| >= RunsBehind(Final(runs).phase)
  {
    hide After, RunsBehind;
    if runs == [] {
      NothingCertified();
    } else {
      PhaseCertifiesRuns(runs[..|runs| - 1]);
      OneRunCertifies(Final(runs[..|runs| - 1]), runs[|runs| - 1]);
    }
  }

  lemma NothingCertified()
    ensures RunsBehind(FRESH_JOB.phase) == 0
  {
  }

  lemma OneRunCertifies(s: JobState, run: Run)
    requires |s.recorded| >= RunsBehind(s.phase)
    ensures |After(s, run).recorded| >= RunsBehind(After(s, run).phase)
  {
    hide NextStreak;
  }

  lemma {:induction false} PhaseNeverFalls(runs: seq<Run>, more: seq<Run>)
    ensures Rank(Final(runs).phase) <= Rank(Final(runs + more).phase)
    ensures Final(runs).recorded <= Final(runs + more).recorded
  {
    if more == [] {
      assert runs + more == runs;
    } else {
      assert (runs + more)[..|runs + more| - 1] == runs + more[..|more| - 1];
      PhaseNeverFalls(runs, more[..|more| - 1]);
    }
  }

  // ---------------------------------------------------------------------
  // The streak counts history
  // ---------------------------------------------------------------------

  /** The length of the trailing block of low-yield runs. */
  function TrailingLow(runs: seq<Yield>): nat {
    if runs == [] || !LowForStreak(runs[|runs| - 1]) then 0 else 1 + TrailingLow(runs[..|runs| - 1])
  }

  /** Until the job is incremental, the incremental counter is the trailing low block of the
      runs that reached their checkpoint save. */
  lemma {:induction false} StreakCountsHistory(runs: seq<Run>)
    requires Final(runs).phase != Incremental
    ensures Final(runs).streak == TrailingLow(Final(runs).saved)
  {
    hide After;
    if runs != [] {
      var front, last := runs[..|runs| - 1], runs[|runs| - 1];
      OneRunPhase(Final(front), last);
      StreakCountsHistory(front);
      OneRunCounts(Final(front), last);
    }
  }

  lemma OneRunCounts(s: JobState, run: Run)
    requires s.phase != Incremental && s.streak == TrailingLow(s.saved)
    ensures After(s, run).streak == TrailingLow(After(s, run).saved)
  {
    hide NextPhase;
    if run.Completed? {
      assert (s.saved + [run.yielded])[..|s.saved|] == s.saved;
    }
  }

  /** No run died between recording its numbers and saving its streak. */
  ghost predicate Orderly(runs: seq<Run>) {
    forall i :: 0 <= i < |runs| ==> runs[i].Completed? || runs[i].DiedEarly?
  }

  lemma {:induction false} OrderlySavesAll(runs: seq<Run>)
    requires Orderly(runs)
    ensures Final(runs).saved == Final(runs).recorded
  {
    if runs != [] { OrderlySavesAll(runs[..|runs| - 1]); }
  }

  ghost predicate EndsLow(runs: seq<Yield>, n: nat) {
    n <= |runs| && forall j :: |runs| - n <= j < |runs| ==> runs[j].total == 0 || 20 * runs[j].created <= runs[j].total
  }

  lemma {:induction false} TrailingLowIff(runs: seq<Yield>, n: nat)
    ensures TrailingLow(runs) >= n <==> EndsLow(runs, n)
  {
    if n > 0 && runs != [] {
      var front := runs[..|runs| - 1];
      TrailingLowIff(front, n - 1);
      assert EndsLow(runs, n) <==> LowForStreak(runs[|runs| - 1]) && EndsLow(front, n - 1);
    }
  }

  /** The two notions of tapering off agree exactly on what was saved: whatever the recorded history
      says, crashes included, the streak is at least `n` if and only if the last `n` runs that
      reached their checkpoint save had low yields. */
  lemma StreakReachesIff(runs: seq<Run>, n: nat)
    requires Final(runs).phase != Incremental
    ensures Final(runs).streak >= n <==> EndsLow(Final(runs).saved, n)
  {
    StreakCountsHistory(runs);
    TrailingLowIff(Final(runs).saved, n);
  }

  /** How many of the last `n` recorded runs reached their save. */
  function SavedWithin(runs: seq<Run>, n: nat): nat {
    if runs == [] || n == 0 then 0
    else
      var front, last := runs[..|runs| - 1], runs[|runs| - 1];
      match last
      case DiedEarly(_) => SavedWithin(front, n)
      case Completed(_, _) => 1 + SavedWithin(front, n - 1)
      case _ => SavedWithin(front, n - 1)
  }

  /** The last `k` of these runs lie in the window. */
  ghost predicate LastIn(saved: seq<Yield>, k: nat, window: seq<Yield>) {
    k <= |saved| && forall i :: |saved| - k <= i < |saved| ==> saved[i] in window
  }

  lemma LastInNext(saved: seq<Yield>, k: nat, window: seq<Yield>, y: Yield)
    requires LastIn(saved, k, window)
    ensures LastIn(saved, k, window + [y]) && LastIn(saved + [y], k + 1, window + [y])
  {
  }

  /** They are the last saved runs. */
  lemma {:induction false} SavedInWindow(runs: seq<Run>, n: nat)
    ensures LastIn(Final(runs).saved, SavedWithin(runs, n), Recent(Final(runs).recorded, n))
  {
    hide LastIn, Recent, NextPhase, NextStreak;
    if runs == [] || n == 0 {
      NothingLast(Final(runs).saved, Recent(Final(runs).recorded, n));
    } else {
      var front, last := runs[..|runs| - 1], runs[|runs| - 1];
      if last.DiedEarly? {
        SavedInWindow(front, n);
      } else {
        SavedInWindow(front, n - 1);
        RecentNext(Final(front).recorded, last.yielded, n);
        LastInNext(Final(front).saved, SavedWithin(front, n - 1), Recent(Final(front).recorded, n - 1), last.yielded);
      }
    }
  }

  lemma NothingLast(saved: seq<Yield>, window: seq<Yield>)
    ensures LastIn(saved, 0, window)
  {
  }

  lemma RecentNext(rows: seq<Yield>, y: Yield, n: nat)
    requires n > 0
    ensures Recent(rows + [y], n) == Recent(rows, n - 1) + [y]
  {
  }

  lemma {:induction false} OrderlyWithin(runs: seq<Run>, n: nat)
    requires Orderly(runs)
    ensures SavedWithin(runs, n) == |Recent(Final(runs).recorded, n)|
  {
    hide NextPhase, NextStreak;
    if runs != [] && n > 0 {
      var front, last := runs[..|runs| - 1], runs[|runs| - 1];
      if last.DiedEarly? {
        OrderlyWithin(front, n);
      } else {
        OrderlyWithin(front, n - 1);
      }
    }
  }

  /** In a window of low yields only the earlier runs are in question. */
  lemma EndsLowBefore(saved: seq<Yield>, n: nat, k: nat, window: seq<Yield>)
    requires LastIn(saved, k, window) && forall i :: 0 <= i < |window| ==> LowYield(window[i])
    ensures EndsLow(saved, n) <==>
      && |saved| >= n
      && forall i :: |saved| - n <= i < |saved| - k ==> saved[i].total == 0 || 20 * saved[i].created <= saved[i].total
  {
  }

  /** A saturated job has the streak that completion asks for if and only if three runs reached their
      save and those of the last three that were saved before the saturation window were low. */
  lemma SaturationAgreesIff(runs: seq<Run>)
    requires Final(runs).phase != Incremental && Saturated(Final(runs).recorded)
    ensures var saved := Final(runs).saved;
            Final(runs).streak >= MIN_RUNS
            <==> |saved| >= MIN_RUNS
                 && forall i :: |saved| - MIN_RUNS <= i < |saved| - SavedWithin(runs, WINDOW) ==>
                      saved[i].total == 0 || 20 * saved[i].created <= saved[i].total
  {
    hide Final, SavedWithin, EndsLow, LastIn, Recent;
    StreakReachesIff(runs, MIN_RUNS);
    SavedInWindow(runs, WINDOW);
    EndsLowBefore(Final(runs).saved, MIN_RUNS, SavedWithin(runs, WINDOW), Recent(Final(runs).recorded, WINDOW));
  }

  /** Without such crashes the whole window was saved, so a saturated job has a streak of at least three. */
  lemma SaturationImpliesStreak(runs: seq<Run>)
    requires Orderly(runs) && Final(runs).phase != Incremental && Saturated(Final(runs).recorded)
    ensures Final(runs).streak >= MIN_RUNS
  {
    OrderlyWithin(runs, WINDOW);
    SavedInWindow(runs, WINDOW);
    SaturationAgreesIff(runs);
  }

  /** Crashes break it: three runs that recorded low yields but died before their save leave a
      saturated history behind a streak of zero. */
  lemma CrashesBreakAgreement()
    ensures var died := DiedBeforePhase(Yield(100, 0));
            var s := Final([died, died, died]);
            Saturated(s.recorded) && s.streak == 0
  {
    var died := DiedBeforePhase(Yield(100, 0));
    var runs := [died, died, died];
    assert runs[..2] == [died, died] && [died, died][..1] == [died] && [died][..0] == [];
    assert Final([died]).recorded == [Yield(100, 0)];
    assert Final([died, died]).recorded == [Yield(100, 0), Yield(100, 0)];
    assert Final(runs).recorded == [Yield(100, 0), Yield(100, 0), Yield(100, 0)];
  }

  /** With the default conditions, phase 1 only completes on a streak of three low runs, a
      saturated history and an empty queue. */
  lemma DefaultCompletion(s: JobState, run: Run)
    requires s.phase == Validation && After(s, run).phase == Phase1Complete
    requires (run.Completed? || run.DiedBeforeSave?) && run.around.conditions == DEFAULT_CONDITIONS
    ensures run.around.queueEmpty && Saturated(After(s, run).recorded)
    ensures StreakFor(s, After(s, run).recorded) >= 3
  {
  }
}
