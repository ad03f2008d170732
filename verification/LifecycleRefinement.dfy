/** A recorded call is a run of the step machine: what `RunJobAndRecord` leaves in the shared tables
    is what one process's own statements leave there, when no other process comes between them. */
module LifecycleRefinement {
  import opened Common
  import opened Lifecycle
  import CrawlState
  import Worker
  import RunHistory
  import JobRegistry
  import Checkpoints

  /** The same rows, but for the counters. */
  ghost predicate SameRuns(runs: seq<RunRow>, others: seq<RunRow>) {
    |runs| == |others| && forall i :: 0 <= i < |runs| ==> runs[i] == others[i].(counts := runs[i].counts)
  }

  /** The step machine's tables are the real ones, but for the counters of runs and the phase and
      times of jobs, which its steps leave out. */
  ghost predicate Matches(s: State, tables: Worker.SharedTables) {
    && SameRuns(s.runs, tables.runs)
    && (forall j :: Named(s, j) == Checkpoints.Loaded(tables.checkpoints, j).state.currentRunId)
    && s.jobs.Keys == tables.jobs.Keys
    && (forall j :: j in s.jobs ==> s.jobs[j].status == tables.jobs[j].status)
  }

  /** The process's own statements, exceptions included. */
  predicate OwnSteps(steps: seq<Step>, pid: nat) {
    forall i :: 0 <= i < |steps| ==> (steps[i].Advance? || steps[i].Raise?) && steps[i].pid == pid
  }

  /** The process gets from one state to the other by itself. */
  ghost predicate Reaches(s: State, t: State, pid: nat) {
    exists steps :: OwnSteps(steps, pid) && Possible(s, steps) && Outcome(s, steps) == t
  }

  lemma ReachesSelf(s: State, pid: nat)
    ensures Reaches(s, s, pid)
  {
    assert OwnSteps([], pid) && Possible(s, []) && Outcome(s, []) == s;
  }

  /** One more statement in front. */
  lemma StepThenReaches(s: State, step: Step, t: State, pid: nat)
    requires (step.Advance? || step.Raise?) && step.pid == pid && Enabled(s, step)
    requires Reaches(Apply(s, step), t, pid)
    ensures Reaches(s, t, pid)
  {
    var steps :| OwnSteps(steps, pid) && Possible(Apply(s, step), steps) && Outcome(Apply(s, step), steps) == t;
    FirstStep(s, step, steps);
    assert OwnSteps([step] + steps, pid);
  }

  /** A state's process is free again, and its run finalized. */
  function Closed(s: State, pid: nat, run: nat, status: RunHistory.RunStatus, ended: int, done: JobRegistry.JobStatus): State
    requires pid < |s.procs| && s.procs[pid].Busy?
  {
    var jobId := s.procs[pid].jobId;
    var final := if status == RunHistory.Failed then JobRegistry.Failed else done;
    s.(runs := RunHistory.GuardedFinish(s.runs, run, status, map[], ended),
       checkpoints := s.checkpoints[jobId := None],
       jobs := JobRegistry.FinishedTable(s.jobs, jobId, final, None, ended),
       procs := s.procs[pid := Free])
  }

  predicate At(s: State, pid: nat, pc: Pc) {
    pid < |s.procs| && s.procs[pid].Busy? && s.procs[pid].pc == pc
  }

  predicate EndsWith(done: JobRegistry.JobStatus) {
    done == JobRegistry.Completed || done == JobRegistry.Continuing
  }

  lemma AdvanceReaches(s: State, pid: nat, at: int, done: JobRegistry.JobStatus, t: State)
    requires pid < |s.procs| && s.procs[pid].Busy? && EndsWith(done) && Reaches(Advanced(s, pid, at, done), t, pid)
    ensures Reaches(s, t, pid)
  {
    StepThenReaches(s, Advance(pid, at, done), t, pid);
  }

  /** Finalize, clear the name, release. */
  lemma Closes(s: State, pid: nat, run: nat, status: RunHistory.RunStatus, ended: int, done: JobRegistry.JobStatus)
    requires At(s, pid, FinishRead(Some(run), status)) && RunHistory.IsRunning(s.runs, run) && EndsWith(done)
    ensures Reaches(s, Closed(s, pid, run, status, ended, done), pid)
  {
    hide Reaches, JobRegistry.FinishedTable;
    var s1 := Advanced(s, pid, ended, done);
    var s2 := Advanced(s1, pid, ended, done);
    var s3 := Advanced(s2, pid, ended, done);
    var s4 := Advanced(s3, pid, ended, done);
    assert s4 == Closed(s, pid, run, status, ended, done);
    ReachesSelf(s4, pid);
    AdvanceReaches(s3, pid, ended, done, s4);
    AdvanceReaches(s2, pid, ended, done, s4);
    AdvanceReaches(s1, pid, ended, done, s4);
    AdvanceReaches(s, pid, ended, done, s4);
  }

  /** The run a call works in, and the run rows once it has it: the named one if still running. */
  function RunOf(s: State, jobId: string): nat {
    if RunningRun(s, Named(s, jobId)) then Named(s, jobId).value else |s.runs|
  }

  function WithRun(s: State, jobId: string, begun: int): State {
    if RunningRun(s, Named(s, jobId)) then s else s.(runs := s.runs + [RunHistory.NewRun(jobId, begun)])
  }

  /** Where the process stands, and what its checkpoint names, is forgotten in the end. */
  lemma ClosedForgets(s: State, u: State, pid: nat, run: nat, status: RunHistory.RunStatus, ended: int,
                      done: JobRegistry.JobStatus)
    requires pid < |s.procs| && s.procs[pid].Busy? && |u.procs| == |s.procs| && u.procs[pid].Busy?
    requires u == s.(procs := s.procs[pid := u.procs[pid]], checkpoints := u.checkpoints)
    requires u.procs[pid].jobId == s.procs[pid].jobId
    requires var jobId := s.procs[pid].jobId;
             u.checkpoints == s.checkpoints || u.checkpoints == s.checkpoints[jobId := Named(u, jobId)]
    ensures Closed(u, pid, run, status, ended, done) == Closed(s, pid, run, status, ended, done)
  {
  }

  /** From the work on: wrap up, then close. */
  lemma Wraps(s: State, pid: nat, run: nat, ended: int, done: JobRegistry.JobStatus)
    requires At(s, pid, Working(run)) && RunHistory.IsRunning(s.runs, run) && EndsWith(done)
    ensures Reaches(s, Closed(s, pid, run, RunHistory.Completed, ended, done), pid)
  {
    hide Reaches, Closed;
    var s1 := Advanced(s, pid, ended, done);
    var s2 := Advanced(s1, pid, ended, done);
    ClosedForgets(s, s2, pid, run, RunHistory.Completed, ended, done);
    Closes(s2, pid, run, RunHistory.Completed, ended, done);
    AdvanceReaches(s1, pid, ended, done, Closed(s, pid, run, RunHistory.Completed, ended, done));
    AdvanceReaches(s, pid, ended, done, Closed(s, pid, run, RunHistory.Completed, ended, done));
  }

  /** Insert a row, name it, and work. */
  lemma StartsAndWraps(s: State, pid: nat, begun: int, ended: int, done: JobRegistry.JobStatus)
    requires At(s, pid, StartRun) && EndsWith(done)
    ensures var inserted := s.(runs := s.runs + [RunHistory.NewRun(s.procs[pid].jobId, begun)]);
            Reaches(s, Closed(inserted, pid, |s.runs|, RunHistory.Completed, ended, done), pid)
  {
    hide Reaches, Closed;
    var inserted := s.(runs := s.runs + [RunHistory.NewRun(s.procs[pid].jobId, begun)]);
    var s1 := Advanced(s, pid, begun, done);
    var s2 := Advanced(s1, pid, begun, done);
    ClosedForgets(inserted, s2, pid, |s.runs|, RunHistory.Completed, ended, done);
    Wraps(s2, pid, |s.runs|, ended, done);
    AdvanceReaches(s1, pid, begun, done, Closed(inserted, pid, |s.runs|, RunHistory.Completed, ended, done));
    AdvanceReaches(s, pid, begun, done, Closed(inserted, pid, |s.runs|, RunHistory.Completed, ended, done));
  }

  /** A call without an exception. */
  lemma Succeeds(s: State, pid: nat, begun: int, ended: int, done: JobRegistry.JobStatus)
    requires At(s, pid, Load) && EndsWith(done)
    ensures var jobId := s.procs[pid].jobId;
            Reaches(s, Closed(WithRun(s, jobId, begun), pid, RunOf(s, jobId), RunHistory.Completed, ended, done), pid)
  {
    hide Reaches, Closed;
    var jobId := s.procs[pid].jobId;
    var run := RunOf(s, jobId);
    var t := Closed(WithRun(s, jobId, begun), pid, run, RunHistory.Completed, ended, done);
    var s1 := Advanced(s, pid, begun, done);
    var s2 := Advanced(s1, pid, begun, done);
    if RunningRun(s, Named(s, jobId)) {
      ClosedForgets(s, s2, pid, run, RunHistory.Completed, ended, done);
      Wraps(s2, pid, run, ended, done);
    } else {
      var inserted := s2.(runs := s2.runs + [RunHistory.NewRun(jobId, begun)]);
      ClosedForgets(WithRun(s, jobId, begun), inserted, pid, run, RunHistory.Completed, ended, done);
      StartsAndWraps(s2, pid, begun, ended, done);
    }
    AdvanceReaches(s1, pid, begun, done, t);
    AdvanceReaches(s, pid, begun, done, t);
  }

  /** Insert a row for a failure, and close it. */
  lemma StartsAndFails(s: State, pid: nat, begun: int, ended: int, done: JobRegistry.JobStatus)
    requires At(s, pid, FailStart) && EndsWith(done)
    ensures var inserted := s.(runs := s.runs + [RunHistory.NewRun(s.procs[pid].jobId, begun)]);
            Reaches(s, Closed(inserted, pid, |s.runs|, RunHistory.Failed, ended, done), pid)
  {
    hide Reaches, Closed;
    var inserted := s.(runs := s.runs + [RunHistory.NewRun(s.procs[pid].jobId, begun)]);
    var s1 := Advanced(s, pid, begun, done);
    ClosedForgets(inserted, s1, pid, |s.runs|, RunHistory.Failed, ended, done);
    Closes(s1, pid, |s.runs|, RunHistory.Failed, ended, done);
    AdvanceReaches(s, pid, begun, done, Closed(inserted, pid, |s.runs|, RunHistory.Failed, ended, done));
  }

  /** Record a failure in the row named, or in a new one. */
  lemma RecordsFailure(s: State, pid: nat, begun: int, ended: int, done: JobRegistry.JobStatus)
    requires At(s, pid, FailLoad) && EndsWith(done)
    ensures var jobId := s.procs[pid].jobId;
            Reaches(s, Closed(WithRun(s, jobId, begun), pid, RunOf(s, jobId), RunHistory.Failed, ended, done), pid)
  {
    hide Reaches, Closed;
    var jobId := s.procs[pid].jobId;
    var run := RunOf(s, jobId);
    var t := Closed(WithRun(s, jobId, begun), pid, run, RunHistory.Failed, ended, done);
    var s1 := Advanced(s, pid, begun, done);
    var s2 := Advanced(s1, pid, begun, done);
    if RunningRun(s, Named(s, jobId)) {
      ClosedForgets(s, s2, pid, run, RunHistory.Failed, ended, done);
      Closes(s2, pid, run, RunHistory.Failed, ended, done);
    } else {
      var inserted := s2.(runs := s2.runs + [RunHistory.NewRun(jobId, begun)]);
      ClosedForgets(WithRun(s, jobId, begun), inserted, pid, run, RunHistory.Failed, ended, done);
      StartsAndFails(s2, pid, begun, ended, done);
    }
    AdvanceReaches(s1, pid, begun, done, t);
    AdvanceReaches(s, pid, begun, done, t);
  }

  /** A call whose exception surfaces at once. */
  lemma Fails(s: State, pid: nat, begun: int, ended: int, done: JobRegistry.JobStatus)
    requires At(s, pid, Load) && EndsWith(done)
    ensures var jobId := s.procs[pid].jobId;
            Reaches(s, Closed(WithRun(s, jobId, begun), pid, RunOf(s, jobId), RunHistory.Failed, ended, done), pid)
  {
    hide Reaches, Closed, Advanced;
    var jobId := s.procs[pid].jobId;
    var s1 := Apply(s, Raise(pid));
    assert s1 == To(s, pid, FailLoad);
    RecordsFailure(s1, pid, begun, ended, done);
    ClosedForgets(WithRun(s, jobId, begun), WithRun(s1, jobId, begun), pid, RunOf(s, jobId), RunHistory.Failed, ended, done);
    StepThenReaches(s, Raise(pid), Closed(WithRun(s, jobId, begun), pid, RunOf(s, jobId), RunHistory.Failed, ended, done), pid);
  }

  /** Whatever a returned call has written, a process that has just claimed the job gets there by
      its own statements, and is free then: one finalized row, no name, and the job's status. */
  lemma CallRefinesSteps(s: State, pid: nat, jobId: string, before: Worker.SharedTables, after: Worker.SharedTables, run: nat,
                         status: JobRegistry.JobStatus)
    requires pid < |s.procs| && s.procs[pid] == Busy(jobId, Load, 0) && Matches(s, before)
    requires Worker.Recorded(before, after, jobId, run, status)
    requires status == JobRegistry.Failed || EndsWith(status)
    ensures exists t :: Reaches(s, t, pid) && Matches(t, after) && t.procs == s.procs[pid := Free]
  {
    hide Reaches;
    var runStatus := Worker.RunStatusOf(status);
    var begun, ended := RecordedTimes(before.runs, after.runs, jobId, run, runStatus);
    SameRun(s, jobId, before);
    var t := Closed(WithRun(s, jobId, begun), pid, run, runStatus, ended,
                    if status == JobRegistry.Failed then JobRegistry.Completed else status);
    if status == JobRegistry.Failed {
      Fails(s, pid, begun, ended, JobRegistry.Completed);
    } else {
      Succeeds(s, pid, begun, ended, status);
    }
    ClosedMatches(s, t, pid, jobId, before, after, run, status, begun, ended);
  }

  /** When the finalized row was begun, if it is new, and ended. */
  ghost predicate EndedAt(before: seq<RunRow>, after: seq<RunRow>, jobId: string, run: nat, status: RunHistory.RunStatus,
                          begun: int, ended: int)
  {
    && run < |after|
    && var row := if run < |before| then before[run] else RunHistory.NewRun(jobId, begun);
       after[run] == RunHistory.Finalized(row, status, after[run].counts, ended).(counts := after[run].counts)
  }

  lemma RecordedTimes(before: seq<RunRow>, after: seq<RunRow>, jobId: string, run: nat, status: RunHistory.RunStatus)
    returns (begun: int, ended: int)
    requires Worker.FinalizedOne(before, after, jobId, run, status)
    ensures EndedAt(before, after, jobId, run, status, begun, ended)
  {
    begun := 0;
    if run == |before| {
      begun :| Worker.EndedFrom(RunHistory.NewRun(jobId, begun), after[run], status);
    }
    var row := if run < |before| then before[run] else RunHistory.NewRun(jobId, begun);
    ended :| after[run] == RunHistory.Finalized(row, status, after[run].counts, ended).(counts := after[run].counts);
  }

  lemma SameRun(s: State, jobId: string, before: Worker.SharedTables)
    requires Matches(s, before)
    ensures CrawlState.Resumable(before.checkpoints, before.runs, jobId)
      == if RunningRun(s, Named(s, jobId)) then Named(s, jobId) else None
  {
  }

  lemma RunsMatch(s: State, jobId: string, before: seq<RunRow>, after: seq<RunRow>, run: nat, status: RunHistory.RunStatus,
                  begun: int, ended: int)
    requires SameRuns(s.runs, before) && Worker.FinalizedOne(before, after, jobId, run, status)
    requires run == RunOf(s, jobId) && EndedAt(before, after, jobId, run, status, begun, ended)
    ensures SameRuns(RunHistory.GuardedFinish(WithRun(s, jobId, begun).runs, run, status, map[], ended), after)
  {
  }

  lemma ClosedMatches(s: State, t: State, pid: nat, jobId: string, before: Worker.SharedTables, after: Worker.SharedTables,
                      run: nat, status: JobRegistry.JobStatus, begun: int, ended: int)
    requires pid < |s.procs| && s.procs[pid] == Busy(jobId, Load, 0) && Matches(s, before)
    requires Worker.Recorded(before, after, jobId, run, status) && run == RunOf(s, jobId)
    requires t == Closed(WithRun(s, jobId, begun), pid, run, Worker.RunStatusOf(status), ended,
                         if status == JobRegistry.Failed then JobRegistry.Completed else status)
    requires EndedAt(before.runs, after.runs, jobId, run, Worker.RunStatusOf(status), begun, ended)
    ensures Matches(t, after)
  {
    hide EndedAt, SameRuns, Worker.FinalizedOne, RunHistory.GuardedFinish;
    RunsMatch(s, jobId, before.runs, after.runs, run, Worker.RunStatusOf(status), begun, ended);
    forall j ensures Named(t, j) == Checkpoints.Loaded(after.checkpoints, j).state.currentRunId {
      assert Named(s, j) == Checkpoints.Loaded(before.checkpoints, j).state.currentRunId;
    }
  }
}
