/** Workers, command-line runs, the scheduler and stale recovery sharing one database: every
    statement sent to it is one step, and a process may die between any two. */
module Lifecycle {
  import opened Common
  import RunHistory
  import JobRegistry

  type RunRow = RunHistory.RunRow

  // ---------------------------------------------------------------------
  // Processes
  // ---------------------------------------------------------------------

  /** Where `run_job_and_record` stands. `Naming`, `Working` and the two `Finish` points hold a run
      id; `ClearName` and `Release` know how many rows the call has finalized. */
  datatype Pc =
    | Load                                        // load the checkpoint
    | CheckResume(named: Option<nat>)             // read the run it names
    | StartRun                                    // insert a run row
    | NameRun(run: nat)                           // save the checkpoint naming it
    | Working(run: nat)                           // the pipeline, up to its final checkpoint save
    | Wrapped                                     // load the checkpoint again
    | FailLoad                                    // an exception: load the checkpoint
    | FailCheck(named: Option<nat>)               // read the run it names
    | FailStart                                   // insert a run row for the failure
    | FinishRead(target: Option<nat>, status: RunHistory.RunStatus)
    | FinishWrite(run: nat, status: RunHistory.RunStatus)
    | ClearName(status: RunHistory.RunStatus)     // save the checkpoint without a run
    | Release(status: RunHistory.RunStatus)       // write the job's final status

  /** A process is free, or executes a job; `finalized` counts the rows this call has finalized. */
  datatype Proc = Free | Busy(jobId: string, pc: Pc, finalized: nat)

  /** The shared tables, the processes, and bookkeeping of the proof: runs left running that
      nothing names, aborts in the two windows that leave one, and per job how often it was
      queued and claimed. `checkpoints` keeps the run each checkpoint names, and `stale` the jobs
      that recoveries have selected and not reset yet. */
  datatype State = State(
    jobs: JobRegistry.JobTable, runs: seq<RunRow>, checkpoints: map<string, Option<nat>>, procs: seq<Proc>,
    stale: multiset<string>, orphans: set<nat>, windowAborts: nat, queued: map<string, nat>, claimed: map<string, nat>)

  datatype Step =
    | MarkQueued(jobId: string)
    | Claim(pid: nat, jobId: string, at: int)
    | Advance(pid: nat, at: int, done: JobRegistry.JobStatus)  // `done`: Completed or Continuing, at a release
    | Raise(pid: nat)                                // an exception surfaces in the process
    | Crash(pid: nat)                                // the process dies
    | SelectStale(cutoff: int)                       // a recovery lists the jobs that look stale
    | Recover(jobId: string)                         // and resets one of them
    | Pause(jobId: string)
    | Resume(jobId: string, at: int)
    | SetEnabled(jobId: string, enabled: bool)

  function Named(s: State, jobId: string): Option<nat> {
    if jobId in s.checkpoints then s.checkpoints[jobId] else None
  }

  function Times(counts: map<string, nat>, jobId: string): nat {
    if jobId in counts then counts[jobId] else 0
  }

  function RunningRun(s: State, named: Option<nat>): bool {
    named.Some? && RunHistory.IsRunning(s.runs, named.value)
  }

  /** `run_once` itself, whose exceptions `run_job_and_record` catches. */
  predicate InRunOnce(pc: Pc) {
    pc.Load? || pc.CheckResume? || pc.StartRun? || pc.NameRun? || pc.Working?
  }

  predicate Enabled(s: State, step: Step) {
    match step
    case Claim(pid, jobId, _) => pid < |s.procs| && s.procs[pid].Free? && JobRegistry.Claimable(s.jobs, jobId)
    case Advance(pid, _, done) =>
      pid < |s.procs| && s.procs[pid].Busy? && (done == JobRegistry.Completed || done == JobRegistry.Continuing)
    case Raise(pid) => pid < |s.procs| && s.procs[pid].Busy?
    case Crash(pid) => pid < |s.procs| && s.procs[pid].Busy?
    case Recover(jobId) => jobId in s.stale
    case _ => true
  }

  // ---------------------------------------------------------------------
  // Steps
  // ---------------------------------------------------------------------

  function To(s: State, pid: nat, pc: Pc): State
    requires pid < |s.procs| && s.procs[pid].Busy?
  {
    s.(procs := s.procs[pid := s.procs[pid].(pc := pc)])
  }

  /** The next statement of an executing process. */
  function Advanced(s: State, pid: nat, at: int, done: JobRegistry.JobStatus): State
    requires pid < |s.procs| && s.procs[pid].Busy?
  {
    var p := s.procs[pid];
    match p.pc
    case Load => To(s, pid, CheckResume(Named(s, p.jobId)))
    case CheckResume(named) => To(s, pid, if RunningRun(s, named) then Working(named.value) else StartRun)
    case StartRun =>
      To(s.(runs := s.runs + [RunHistory.NewRun(p.jobId, at)]), pid, NameRun(|s.runs|))
    case NameRun(run) => To(s.(checkpoints := s.checkpoints[p.jobId := Some(run)]), pid, Working(run))
    case Working(run) => To(s.(checkpoints := s.checkpoints[p.jobId := Some(run)]), pid, Wrapped)
    case Wrapped => To(s, pid, FinishRead(Named(s, p.jobId), RunHistory.Completed))
    case FailLoad => To(s, pid, FailCheck(Named(s, p.jobId)))
    case FailCheck(named) => To(s, pid, if RunningRun(s, named) then FinishRead(named, RunHistory.Failed) else FailStart)
    case FailStart =>
      To(s.(runs := s.runs + [RunHistory.NewRun(p.jobId, at)]), pid, FinishRead(Some(|s.runs|), RunHistory.Failed))
    case FinishRead(run, status) =>
      To(s, pid, if RunningRun(s, run) then FinishWrite(run.value, status) else ClearName(status))
    case FinishWrite(run, status) =>
      var finalized := p.finalized + if RunHistory.IsRunning(s.runs, run) then 1 else 0;
      var written := s.(runs := RunHistory.GuardedFinish(s.runs, run, status, map[], at),
                        procs := s.procs[pid := p.(finalized := finalized)]);
      To(written, pid, ClearName(status))
    case ClearName(status) => To(s.(checkpoints := s.checkpoints[p.jobId := None]), pid, Release(status))
    case Release(status) =>
      var jobStatus := if status == RunHistory.Failed then JobRegistry.Failed else done;
      s.(jobs := JobRegistry.FinishedTable(s.jobs, p.jobId, jobStatus, None, at), procs := s.procs[pid := Free])
  }

  /** The run that dies with a process: inserted, but not yet named or finalized. */
  function Abandoned(s: State, pid: nat): Option<nat>
    requires pid < |s.procs| && s.procs[pid].Busy?
  {
    match s.procs[pid].pc
    case NameRun(run) => Some(run)
    case FinishRead(Some(run), _) => if Named(s, s.procs[pid].jobId) == Some(run) then None else Some(run)
    case FinishWrite(run, _) => if Named(s, s.procs[pid].jobId) == Some(run) then None else Some(run)
    case _ => None
  }

  function Orphaning(s: State, pid: nat): State
    requires pid < |s.procs| && s.procs[pid].Busy?
  {
    match Abandoned(s, pid)
    case Some(run) => s.(orphans := s.orphans + {run}, windowAborts := s.windowAborts + 1)
    case None => s
  }

  function StaleJobs(jobs: JobRegistry.JobTable, cutoff: int): set<string> {
    set j | j in jobs && JobRegistry.LooksStale(jobs[j], cutoff)
  }

  function Apply(s: State, step: Step): State
    requires Enabled(s, step)
  {
    if step.Advance? then Advanced(s, step.pid, step.at, step.done) else Interfered(s, step)
  }

  /** Every step but a process's own next statement. */
  function Interfered(s: State, step: Step): State
    requires Enabled(s, step) && !step.Advance?
  {
    if WritesJob(step) then Written(s, step)
    else match step
    case Claim(pid, jobId, at) =>
      s.(jobs := JobRegistry.ClaimedTable(s.jobs, jobId, at), procs := s.procs[pid := Busy(jobId, Load, 0)],
         claimed := s.claimed[jobId := Times(s.claimed, jobId) + 1])
    case Raise(pid) =>
      // Inside run_once the exception is recorded as a failure; anywhere else it ends the call.
      if InRunOnce(s.procs[pid].pc) then To(Orphaning(s, pid), pid, FailLoad)
      else Orphaning(s, pid).(procs := s.procs[pid := Free])
    case Crash(pid) => Orphaning(s, pid).(procs := s.procs[pid := Free])
    case SelectStale(cutoff) => s.(stale := s.stale + multiset(StaleJobs(s.jobs, cutoff)))
    case _ => s
  }

  /** The steps that write one job's row: the scheduler's, a recovery's and the operator's. */
  predicate WritesJob(step: Step) {
    step.MarkQueued? || step.Recover? || step.Pause? || step.Resume? || step.SetEnabled?
  }

  function Written(s: State, step: Step): State
    requires WritesJob(step)
  {
    match step
    case MarkQueued(jobId) =>
      var jobs := JobRegistry.QueuedTable(s.jobs, jobId);
      s.(jobs := jobs, queued := if jobs == s.jobs then s.queued else s.queued[jobId := Times(s.queued, jobId) + 1])
    case Recover(jobId) => s.(jobs := JobRegistry.ResetTable(s.jobs, jobId), stale := s.stale - multiset{jobId})
    case Pause(jobId) => s.(jobs := JobRegistry.PausedTable(s.jobs, jobId))
    case Resume(jobId, at) => s.(jobs := JobRegistry.ResumedTable(s.jobs, jobId, at))
    case SetEnabled(jobId, enabled) => s.(jobs := JobRegistry.EnabledTable(s.jobs, jobId, enabled))
  }

  /** What such a step may change. */
  ghost predicate OneJobWritten(s: State, jobId: string, t: State) {
    && t == s.(jobs := t.jobs, queued := t.queued, stale := t.stale) && t.jobs.Keys == s.jobs.Keys
    && (forall j :: j in s.jobs && j != jobId ==> t.jobs[j] == s.jobs[j] && Times(t.queued, j) == Times(s.queued, j))
  }

  lemma WrittenEffect(s: State, step: Step)
    requires WritesJob(step)
    ensures OneJobWritten(s, step.jobId, Written(s, step))
  {
  }

  /** A run of the system: each step enabled where it is taken. */
  ghost predicate Possible(s: State, steps: seq<Step>)
    decreases |steps|
  {
    steps == [] || (Enabled(s, steps[0]) && Possible(Apply(s, steps[0]), steps[1..]))
  }

  function Outcome(s: State, steps: seq<Step>): State
    requires Possible(s, steps)
    decreases |steps|
  {
    if steps == [] then s else Outcome(Apply(s, steps[0]), steps[1..])
  }

  // ---------------------------------------------------------------------
  // Run history is immutable
  // ---------------------------------------------------------------------

  lemma StepKeepsHistory(s: State, step: Step)
    requires Enabled(s, step)
    ensures RunHistory.HistoryKept(s.runs, Apply(s, step).runs)
  {
    hide RunHistory.GuardedFinish, JobRegistry.FinishedTable;
    match step
    case Advance(pid, at, done) =>
      match s.procs[pid].pc {
        case StartRun =>
        case FailStart =>
        case FinishWrite(run, status) => RunHistory.FinishKeepsHistory(s.runs, run, status, map[], at);
        case _ => assert Apply(s, step).runs == s.runs;
      }
    case _ => assert Apply(s, step).runs == s.runs;
  }

  /** Under every interleaving of any number of processes, with crashes, exceptions, recoveries,
      pauses and resumes anywhere, a run row that has left `running` never changes again. */
  lemma {:induction false} HistoryImmutable(s: State, steps: seq<Step>)
    requires Possible(s, steps)
    ensures RunHistory.HistoryKept(s.runs, Outcome(s, steps).runs)
    decreases |steps|
  {
    if steps != [] {
      StepKeepsHistory(s, steps[0]);
      HistoryImmutable(Apply(s, steps[0]), steps[1..]);
    }
  }

  // ---------------------------------------------------------------------
  // Mutual exclusion
  // ---------------------------------------------------------------------

  predicate Executes(s: State, pid: nat, jobId: string) {
    pid < |s.procs| && s.procs[pid].Busy? && s.procs[pid].jobId == jobId
  }

  predicate Live(s: State, jobId: string) {
    exists pid: nat :: pid < |s.procs| && Executes(s, pid, jobId)
  }

  /** A job in execution is locked: its status is running, and no other process executes it. */
  ghost predicate Exclusive(s: State) {
    && (forall pid: nat :: pid < |s.procs| && s.procs[pid].Busy? ==>
          s.procs[pid].jobId in s.jobs && s.jobs[s.procs[pid].jobId].status == JobRegistry.Running)
    && (forall p: nat, q: nat :: p < q < |s.procs| && s.procs[p].Busy? && s.procs[q].Busy? ==>
          s.procs[p].jobId != s.procs[q].jobId)
  }

  /** The steps that can take the lock away from a process that still runs: a recovery of a job
      whose worker is alive, and an operator's pause or resume of a job in execution. */
  predicate Preempts(s: State, step: Step) {
    match step
    case Recover(jobId) => Live(s, jobId)
    case Pause(jobId) => Live(s, jobId)
    case Resume(jobId, _) => Live(s, jobId)
    case _ => false
  }

  /** A step keeps mutual exclusion exactly when it does not preempt a live process. */
  lemma ExclusionIff(s: State, step: Step)
    requires Exclusive(s) && Enabled(s, step)
    ensures Exclusive(Apply(s, step)) <==> !Preempts(s, step)
  {
    if step.Advance? {
      AdvanceEffect(s, step.pid, step.at, step.done);
      OwnStatementExclusive(s, step.pid, Advanced(s, step.pid, step.at, step.done));
    } else {
      InterferenceExclusion(s, step, Interfered(s, step));
    }
  }

  lemma InterferenceExclusion(s: State, step: Step, t: State)
    requires Exclusive(s) && Enabled(s, step) && !step.Advance? && t == Interfered(s, step)
    ensures Exclusive(t) <==> !Preempts(s, step)
  {
    hide Exclusive, Live, Written;
    match step
    case Claim(pid, jobId, _) => ClaimExclusive(s, pid, jobId, t);
    case Raise(pid) => AbortExclusive(s, pid, t);
    case Crash(pid) => AbortExclusive(s, pid, t);
    case SelectStale(_) => LocksKept(s, t);
    case _ => WrittenExclusion(s, step);
  }

  lemma WrittenExclusion(s: State, step: Step)
    requires Exclusive(s) && WritesJob(step)
    ensures Exclusive(Written(s, step)) <==> !Preempts(s, step)
  {
    hide Exclusive, Live, Times;
    var t := Written(s, step);
    WrittenEffect(s, step);
    match step
    case Recover(jobId) => PreemptionBreaks(s, jobId, t);
    case Pause(jobId) => PreemptionBreaks(s, jobId, t);
    case Resume(jobId, _) => PreemptionBreaks(s, jobId, t);
    case _ => LocksKept(s, t);
  }

  lemma ClaimExclusive(s: State, pid: nat, jobId: string, t: State)
    requires Exclusive(s) && pid < |s.procs| && JobRegistry.Claimable(s.jobs, jobId)
    requires t.procs == s.procs[pid := Busy(jobId, Load, 0)]
    requires t.jobs.Keys == s.jobs.Keys && t.jobs[jobId].status == JobRegistry.Running
    requires forall j :: j in s.jobs && j != jobId ==> t.jobs[j] == s.jobs[j]
    ensures Exclusive(t)
  {
    assert forall q: nat :: q < |s.procs| && s.procs[q].Busy? ==> s.procs[q].jobId != jobId;
  }

  lemma AbortExclusive(s: State, pid: nat, t: State)
    requires Exclusive(s) && pid < |s.procs| && s.procs[pid].Busy? && t.jobs == s.jobs
    requires |t.procs| == |s.procs| && t.procs == s.procs[pid := t.procs[pid]]
    requires t.procs[pid].Busy? ==> t.procs[pid].jobId == s.procs[pid].jobId
    ensures Exclusive(t)
  {
  }

  lemma LocksKept(s: State, t: State)
    requires Exclusive(s) && t.procs == s.procs && t.jobs.Keys == s.jobs.Keys
    requires forall j :: j in s.jobs && s.jobs[j].status == JobRegistry.Running ==> t.jobs[j].status == JobRegistry.Running
    ensures Exclusive(t)
  {
  }

  /** A statement of an executing process leaves the other processes and jobs alone, and its own
      job too until the release, which ends the call. */
  ghost predicate OwnStatement(s: State, pid: nat, t: State)
    requires pid < |s.procs| && s.procs[pid].Busy?
  {
    var p := s.procs[pid];
    && |t.procs| == |s.procs| && t.procs == s.procs[pid := t.procs[pid]]
    && (t.procs[pid].Busy? ==> t.procs[pid].jobId == p.jobId && t.jobs == s.jobs)
    && (t.procs[pid].Free? ==>
          && p.pc.Release? && t.jobs.Keys == s.jobs.Keys
          && (forall j :: j in s.jobs && j != p.jobId ==> t.jobs[j] == s.jobs[j])
          && (p.jobId in s.jobs ==>
                && t.jobs[p.jobId].lastStartedAt == s.jobs[p.jobId].lastStartedAt
                && (t.jobs[p.jobId].status == JobRegistry.Failed || t.jobs[p.jobId].status == JobRegistry.Completed
                    || t.jobs[p.jobId].status == JobRegistry.Continuing)))
    && t.queued == s.queued && t.claimed == s.claimed
    && t.orphans == s.orphans && t.windowAborts == s.windowAborts
  }

  lemma AdvanceEffect(s: State, pid: nat, at: int, done: JobRegistry.JobStatus)
    requires Enabled(s, Advance(pid, at, done))
    ensures OwnStatement(s, pid, Advanced(s, pid, at, done))
  {
    hide RunHistory.GuardedFinish;
    match s.procs[pid].pc
    case Release(status) =>
    case _ =>
  }

  lemma OwnStatementExclusive(s: State, pid: nat, t: State)
    requires pid < |s.procs| && s.procs[pid].Busy? && OwnStatement(s, pid, t) && Exclusive(s)
    ensures Exclusive(t)
  {
  }

  lemma PreemptionBreaks(s: State, jobId: string, t: State)
    requires Exclusive(s) && t.procs == s.procs && t.jobs.Keys == s.jobs.Keys
    requires forall j :: j in s.jobs && j != jobId ==> t.jobs[j] == s.jobs[j]
    requires jobId in s.jobs && s.jobs[jobId].status == JobRegistry.Running ==> t.jobs[jobId].status != JobRegistry.Running
    ensures Exclusive(t) <==> !Live(s, jobId)
  {
    if Live(s, jobId) {
      var pid: nat :| pid < |s.procs| && Executes(s, pid, jobId);
      assert s.procs[pid].Busy? && t.procs[pid].Busy?;
      assert t.jobs[jobId].status != JobRegistry.Running;
    } else {
      forall pid: nat | pid < |s.procs| && s.procs[pid].Busy? ensures s.procs[pid].jobId != jobId {
        assert !Executes(s, pid, jobId);
      }
    }
  }

  ghost predicate Disciplined(s: State, steps: seq<Step>)
    requires Possible(s, steps)
    decreases |steps|
  {
    steps == [] || (!Preempts(s, steps[0]) && Disciplined(Apply(s, steps[0]), steps[1..]))
  }

  /** Without preemption, at most one live process ever executes a job. */
  lemma {:induction false} AlwaysExclusive(s: State, steps: seq<Step>)
    requires Exclusive(s) && Possible(s, steps) && Disciplined(s, steps)
    ensures Exclusive(Outcome(s, steps))
    decreases |steps|
  {
    if steps != [] {
      ExclusionIff(s, steps[0]);
      AlwaysExclusive(Apply(s, steps[0]), steps[1..]);
    }
  }

  /** Preemption is real: as soon as a claim is older than the cutoff, a recovery that catches the
      worker alive lets a second one in. */
  lemma RecoveryRace(s: State, jobId: string, at: int, cutoff: int, later: int)
    requires |s.procs| == 2 && s.procs[0].Free? && s.procs[1].Free? && JobRegistry.Claimable(s.jobs, jobId)
    requires Truncate(at) < cutoff
    ensures var steps := [Claim(0, jobId, at), SelectStale(cutoff), Recover(jobId), MarkQueued(jobId), Claim(1, jobId, later)];
            Possible(s, steps) && Executes(Outcome(s, steps), 0, jobId) && Executes(Outcome(s, steps), 1, jobId)
  {
    hide Possible, Outcome, Interfered;
    var steps := [Recover(jobId), MarkQueued(jobId), Claim(1, jobId, later)];
    var s1 := Apply(s, Claim(0, jobId, at));
    var s2 := Apply(s1, SelectStale(cutoff));
    ClaimGrowsStale(s, jobId, at, cutoff);
    LockStolen(s2, jobId, later);
    assert [Claim(0, jobId, at)] + ([SelectStale(cutoff)] + steps)
      == [Claim(0, jobId, at), SelectStale(cutoff), Recover(jobId), MarkQueued(jobId), Claim(1, jobId, later)];
    FirstStep(s1, SelectStale(cutoff), steps);
    FirstStep(s, Claim(0, jobId, at), [SelectStale(cutoff)] + steps);
  }

  lemma ClaimGrowsStale(s: State, jobId: string, at: int, cutoff: int)
    requires |s.procs| == 2 && s.procs[0].Free? && s.procs[1].Free? && JobRegistry.Claimable(s.jobs, jobId)
    requires Truncate(at) < cutoff
    ensures var t := Interfered(Interfered(s, Claim(0, jobId, at)), SelectStale(cutoff));
            && |t.procs| == 2 && Executes(t, 0, jobId) && t.procs[1].Free? && jobId in t.stale
            && jobId in t.jobs && t.jobs[jobId].status == JobRegistry.Running && t.jobs[jobId].enabled
  {
    assert JobRegistry.LooksStale(JobRegistry.ClaimedTable(s.jobs, jobId, at)[jobId], cutoff);
  }

  /** A selected job is reset however long its present worker has run: the reset looks at the status
      only, so a worker that claimed it after the selection loses its lock at once. */
  lemma LockStolen(s: State, jobId: string, later: int)
    requires |s.procs| == 2 && Executes(s, 0, jobId) && s.procs[1].Free? && jobId in s.stale
    requires jobId in s.jobs && s.jobs[jobId].status == JobRegistry.Running && s.jobs[jobId].enabled
    ensures var steps := [Recover(jobId), MarkQueued(jobId), Claim(1, jobId, later)];
            Possible(s, steps) && Executes(Outcome(s, steps), 0, jobId) && Executes(Outcome(s, steps), 1, jobId)
  {
    hide Possible, Outcome, Interfered;
    var a, b, c := Recover(jobId), MarkQueued(jobId), Claim(1, jobId, later);
    var s1 := Apply(s, a);
    var s2 := Apply(s1, b);
    ResetAndQueued(s, jobId);
    SecondClaim(s2, jobId, later);
    assert [a] + [b, c] == [a, b, c] && [b] + [c] == [b, c] && [c] + [] == [c];
    NoSteps(Apply(s2, c));
    FirstStep(s2, c, []);
    FirstStep(s1, b, [c]);
    FirstStep(s, a, [b, c]);
  }

  lemma ResetAndQueued(s: State, jobId: string)
    requires |s.procs| == 2 && Executes(s, 0, jobId) && s.procs[1].Free? && jobId in s.stale
    requires jobId in s.jobs && s.jobs[jobId].status == JobRegistry.Running && s.jobs[jobId].enabled
    ensures var t := Interfered(Interfered(s, Recover(jobId)), MarkQueued(jobId));
            |t.procs| == 2 && Executes(t, 0, jobId) && t.procs[1].Free? && JobRegistry.Claimable(t.jobs, jobId)
  {
  }

  lemma SecondClaim(s: State, jobId: string, at: int)
    requires |s.procs| == 2 && Executes(s, 0, jobId) && s.procs[1].Free? && JobRegistry.Claimable(s.jobs, jobId)
    ensures var t := Interfered(s, Claim(1, jobId, at)); Executes(t, 0, jobId) && Executes(t, 1, jobId)
  {
  }

  lemma NoSteps(s: State)
    ensures Possible(s, []) && Outcome(s, []) == s
  {
  }

  lemma FirstStep(s: State, step: Step, rest: seq<Step>)
    requires Enabled(s, step) && Possible(Apply(s, step), rest)
    ensures Possible(s, [step] + rest) && Outcome(s, [step] + rest) == Outcome(Apply(s, step), rest)
  {
    assert ([step] + rest)[1..] == rest;
  }

  /** Each queueing is claimed at most once, and recovery can see every running job. */
  ghost predicate LockLedger(s: State) {
    && (forall j :: j in s.jobs ==>
          Times(s.claimed, j) + (if s.jobs[j].status == JobRegistry.Queued then 1 else 0) <= Times(s.queued, j))
    && (forall j :: j in s.jobs && s.jobs[j].status == JobRegistry.Running ==> s.jobs[j].lastStartedAt.Some?)
  }

  lemma StepKeepsLedger(s: State, step: Step)
    requires LockLedger(s) && Enabled(s, step)
    ensures LockLedger(Apply(s, step))
  {
    if step.Advance? {
      AdvanceEffect(s, step.pid, step.at, step.done);
      OwnStatementLedger(s, step.pid, Advanced(s, step.pid, step.at, step.done));
    } else {
      InterferenceLedger(s, step, Interfered(s, step));
    }
  }

  lemma OwnStatementLedger(s: State, pid: nat, t: State)
    requires pid < |s.procs| && s.procs[pid].Busy? && OwnStatement(s, pid, t) && LockLedger(s)
    ensures LockLedger(t)
  {
  }

  /** The ledger of one job. */
  predicate JobLedger(s: State, jobId: string) {
    jobId in s.jobs ==>
      && Times(s.claimed, jobId) + (if s.jobs[jobId].status == JobRegistry.Queued then 1 else 0) <= Times(s.queued, jobId)
      && (s.jobs[jobId].status == JobRegistry.Running ==> s.jobs[jobId].lastStartedAt.Some?)
  }

  /** A write to one job's row and counts keeps the ledger if it keeps that job's. */
  lemma JobWriteLedger(s: State, t: State, jobId: string)
    requires LockLedger(s) && t.jobs.Keys == s.jobs.Keys && (JobLedger(s, jobId) ==> JobLedger(t, jobId))
    requires forall j :: j in s.jobs && j != jobId ==>
      t.jobs[j] == s.jobs[j] && Times(t.claimed, j) == Times(s.claimed, j) && Times(t.queued, j) == Times(s.queued, j)
    ensures LockLedger(t)
  {
  }

  lemma SameJobsLedger(s: State, t: State)
    requires LockLedger(s) && t.jobs == s.jobs && t.queued == s.queued && t.claimed == s.claimed
    ensures LockLedger(t)
  {
  }

  lemma InterferenceLedger(s: State, step: Step, t: State)
    requires LockLedger(s) && Enabled(s, step) && !step.Advance? && t == Interfered(s, step)
    ensures LockLedger(t)
  {
    hide LockLedger, Written;
    match step
    case Raise(_) => SameJobsLedger(s, t);
    case Crash(_) => SameJobsLedger(s, t);
    case SelectStale(_) => SameJobsLedger(s, t);
    case Claim(_, jobId, _) => JobWriteLedger(s, t, jobId);
    case _ => WrittenLedger(s, step);
  }

  lemma WrittenLedger(s: State, step: Step)
    requires LockLedger(s) && WritesJob(step)
    ensures LockLedger(Written(s, step))
  {
    hide LockLedger;
    WrittenEffect(s, step);
    JobWriteLedger(s, Written(s, step), step.jobId);
  }

  lemma {:induction false} LedgerAlways(s: State, steps: seq<Step>)
    requires LockLedger(s) && Possible(s, steps)
    ensures LockLedger(Outcome(s, steps))
    decreases |steps|
  {
    if steps != [] {
      StepKeepsLedger(s, steps[0]);
      LedgerAlways(Apply(s, steps[0]), steps[1..]);
    }
  }

  predicate Halted(s: State, jobId: string) {
    jobId in s.jobs && (s.jobs[jobId].status == JobRegistry.Failed || s.jobs[jobId].status == JobRegistry.Paused)
  }

  /** A failed or paused job is never claimed again until somebody resumes it. */
  lemma {:induction false} HaltedStays(s: State, steps: seq<Step>, jobId: string)
    requires Exclusive(s) && Possible(s, steps) && Disciplined(s, steps) && Halted(s, jobId)
    requires forall i :: 0 <= i < |steps| && steps[i].Resume? ==> steps[i].jobId != jobId
    ensures Halted(Outcome(s, steps), jobId)
    ensures forall i :: 0 <= i < |steps| && steps[i].Claim? ==> steps[i].jobId != jobId
    decreases |steps|
  {
    hide Exclusive, Apply;
    if steps != [] {
      HaltedStep(s, steps[0], jobId);
      HaltedStays(Apply(s, steps[0]), steps[1..], jobId);
      assert forall i :: 0 < i < |steps| ==> steps[i] == steps[1..][i - 1];
    }
  }

  lemma HaltedStep(s: State, step: Step, jobId: string)
    requires Exclusive(s) && Enabled(s, step) && !Preempts(s, step) && Halted(s, jobId)
    requires step.Resume? ==> step.jobId != jobId
    ensures Exclusive(Apply(s, step)) && Halted(Apply(s, step), jobId)
    ensures step.Claim? ==> step.jobId != jobId
  {
    hide Preempts, Exclusive, Interfered, Halted, Advanced;
    ExclusionIff(s, step);
    if step.Advance? {
      AdvanceEffect(s, step.pid, step.at, step.done);
      OwnStatementHalted(s, step.pid, Advanced(s, step.pid, step.at, step.done), jobId);
    } else {
      InterferenceHalted(s, step, jobId);
    }
  }

  lemma InterferenceHalted(s: State, step: Step, jobId: string)
    requires Enabled(s, step) && !step.Advance? && Halted(s, jobId) && (step.Resume? ==> step.jobId != jobId)
    ensures Halted(Interfered(s, step), jobId) && (step.Claim? ==> step.jobId != jobId)
  {
    hide Written;
    if WritesJob(step) {
      WrittenHalted(s, step, jobId);
    }
  }

  lemma WrittenHalted(s: State, step: Step, jobId: string)
    requires WritesJob(step) && Halted(s, jobId) && (step.Resume? ==> step.jobId != jobId)
    ensures Halted(Written(s, step), jobId)
  {
  }

  lemma OwnStatementHalted(s: State, pid: nat, t: State, jobId: string)
    requires pid < |s.procs| && s.procs[pid].Busy? && OwnStatement(s, pid, t) && Exclusive(s) && Halted(s, jobId)
    ensures Halted(t, jobId)
  {
  }
}
