/** Where every `running` run row comes from, in every state the system can reach. */
module LifecycleAccounting {
  import opened Common
  import opened Lifecycle
  import RunHistory
  import JobRegistry

  // ---------------------------------------------------------------------
  // The invariant
  // ---------------------------------------------------------------------

  predicate IsRunning(s: State, run: nat) {
    RunHistory.IsRunning(s.runs, run)
  }

  /** The process carries a running row of its own across this point. */
  predicate Holds(s: State, pid: nat, run: nat) {
    pid < |s.procs| && s.procs[pid].Busy? &&
    match s.procs[pid].pc
    case NameRun(r) => r == run
    case FinishRead(target, _) => target == Some(run)
    case FinishWrite(r, _) => r == run
    case _ => false
  }

  /** A running row of the job that is not an orphan. */
  predicate OwnRun(s: State, jobId: string, run: nat) {
    IsRunning(s, run) && s.runs[run].jobId == jobId && run !in s.orphans
  }

  /** The row the call is about to finalize is running, and the checkpoint names it or nothing running. */
  predicate Finishing(s: State, jobId: string, run: nat) {
    OwnRun(s, jobId, run) && (Named(s, jobId) == Some(run) || !RunningRun(s, Named(s, jobId)))
  }

  /** What a process knows about its own job at each point. */
  predicate AtPc(s: State, jobId: string, pc: Pc) {
    match pc
    case Load => true
    case CheckResume(named) => named == Named(s, jobId)
    case StartRun => !RunningRun(s, Named(s, jobId))
    case NameRun(run) => OwnRun(s, jobId, run) && !RunningRun(s, Named(s, jobId))
    case Working(run) => OwnRun(s, jobId, run) && Named(s, jobId) == Some(run)
    case Wrapped => RunningRun(s, Named(s, jobId))
    case FailLoad => true
    case FailCheck(named) => named == Named(s, jobId)
    case FailStart => !RunningRun(s, Named(s, jobId))
    case FinishRead(target, status) => status != RunHistory.Running && target.Some? && Finishing(s, jobId, target.value)
    case FinishWrite(run, status) => status != RunHistory.Running && Finishing(s, jobId, run)
    case ClearName(_) => !RunningRun(s, Named(s, jobId))
    case Release(_) => Named(s, jobId) == None
  }

  /** A call has finalized nothing until its one finalization, and exactly one row after it. */
  predicate FinalizedOnce(p: Proc) {
    p.Busy? ==> p.finalized == if p.pc.ClearName? || p.pc.Release? then 1 else 0
  }

  ghost predicate NamesOwnRuns(s: State) {
    forall j :: j in s.checkpoints && s.checkpoints[j].Some? ==>
      var run := s.checkpoints[j].value;
      run < |s.runs| && s.runs[run].jobId == j && run !in s.orphans
  }

  /** The row is the one its own job's checkpoint names. */
  predicate NamedRun(s: State, run: nat) {
    run < |s.runs| && Named(s, s.runs[run].jobId) == Some(run)
  }

  /** Every running row is an orphan, named by its job's checkpoint, or carried by a process. */
  ghost predicate RowsAccounted(s: State) {
    forall r: nat :: IsRunning(s, r) ==>
      r in s.orphans || NamedRun(s, r) || exists pid: nat :: Holds(s, pid, r)
  }

  ghost predicate OrphansRunning(s: State) {
    |s.orphans| == s.windowAborts && forall r :: r in s.orphans ==> IsRunning(s, r)
  }

  ghost predicate ProcsKnow(s: State) {
    forall pid: nat :: pid < |s.procs| && s.procs[pid].Busy? ==>
      AtPc(s, s.procs[pid].jobId, s.procs[pid].pc) && FinalizedOnce(s.procs[pid])
  }

  ghost predicate Accounted(s: State) {
    Exclusive(s) && NamesOwnRuns(s) && RowsAccounted(s) && OrphansRunning(s) && ProcsKnow(s)
  }

  // ---------------------------------------------------------------------
  // Frames: what a process of another job sees
  // ---------------------------------------------------------------------

  /** Nothing about `jobId` changed between the two states. */
  ghost predicate SameFor(s: State, t: State, jobId: string) {
    && Named(t, jobId) == Named(s, jobId)
    && |s.runs| <= |t.runs|
    && (forall r :: 0 <= r < |s.runs| && s.runs[r].jobId == jobId ==>
          t.runs[r] == s.runs[r] && (r in t.orphans <==> r in s.orphans))
  }

  lemma OtherProcKnows(s: State, t: State, jobId: string, pc: Pc)
    requires NamesOwnRuns(s) && SameFor(s, t, jobId) && AtPc(s, jobId, pc)
    ensures AtPc(t, jobId, pc)
  {
  }

  /** A step of one process that leaves every other job alone. */
  ghost predicate LocalStep(s: State, t: State, pid: nat)
    requires pid < |s.procs| && s.procs[pid].Busy?
  {
    && OwnStatement(s, pid, t)
    && forall j :: j != s.procs[pid].jobId ==> SameFor(s, t, j)
  }

  lemma LocalStepProcs(s: State, t: State, pid: nat)
    requires pid < |s.procs| && s.procs[pid].Busy? && LocalStep(s, t, pid)
    requires Accounted(s)
    requires t.procs[pid].Busy? ==> AtPc(t, t.procs[pid].jobId, t.procs[pid].pc) && FinalizedOnce(t.procs[pid])
    ensures ProcsKnow(t)
  {
    forall q: nat | q < |t.procs| && t.procs[q].Busy?
      ensures AtPc(t, t.procs[q].jobId, t.procs[q].pc) && FinalizedOnce(t.procs[q])
    {
      if q != pid {
        assert s.procs[q] == t.procs[q];
        assert s.procs[q].jobId != s.procs[pid].jobId;
        OtherProcKnows(s, t, s.procs[q].jobId, s.procs[q].pc);
      }
    }
  }

  // ---------------------------------------------------------------------
  // One statement of a process
  // ---------------------------------------------------------------------

  /** Statements that only read. */
  lemma ReadKeepsAccounts(s: State, pid: nat, pc: Pc)
    requires Accounted(s) && pid < |s.procs| && s.procs[pid].Busy?
    requires AtPc(s, s.procs[pid].jobId, pc) && FinalizedOnce(s.procs[pid].(pc := pc))
    requires forall r: nat :: Holds(s, pid, r) ==> Holds(To(s, pid, pc), pid, r) || NamedRun(s, r)
    ensures Accounted(To(s, pid, pc))
  {
    var t := To(s, pid, pc);
    LocalStepProcs(s, t, pid);
    HeldElsewhere(s, t, pid);
  }

  /** Rows carried by other processes stay carried. */
  lemma HeldElsewhere(s: State, t: State, pid: nat)
    requires pid < |s.procs| && |t.procs| == |s.procs| && t.procs == s.procs[pid := t.procs[pid]]
    ensures forall q: nat, r: nat :: q != pid ==> (Holds(t, q, r) <==> Holds(s, q, r))
  {
  }

  lemma InsertKeepsAccounts(s: State, pid: nat, at: int, done: JobRegistry.JobStatus)
    requires Accounted(s) && Enabled(s, Advance(pid, at, done))
    requires s.procs[pid].pc.StartRun? || s.procs[pid].pc.FailStart?
    ensures Accounted(Advanced(s, pid, at, done))
  {
    hide Exclusive, OwnStatement;
    var t := Advanced(s, pid, at, done);
    var fresh', p := |s.runs|, s.procs[pid];
    AdvanceEffect(s, pid, at, done);
    OwnStatementExclusive(s, pid, t);
    HeldElsewhere(s, t, pid);
    assert forall r :: 0 <= r < |s.runs| ==> t.runs[r] == s.runs[r];
    assert fresh' !in s.orphans by { assert !IsRunning(s, fresh'); }
    assert Holds(t, pid, fresh') && OwnRun(t, p.jobId, fresh');
    LocalStepProcs(s, t, pid);
    forall r: nat | IsRunning(t, r)
      ensures r in t.orphans || NamedRun(t, r) || exists q: nat :: Holds(t, q, r)
    {
      if r < |s.runs| {
        assert IsRunning(s, r);
        if q: nat :| Holds(s, q, r) {
          assert q != pid;
          assert Holds(t, q, r);
        }
      }
    }
  }

  lemma NamingKeepsAccounts(s: State, pid: nat, at: int, done: JobRegistry.JobStatus)
    requires Accounted(s) && Enabled(s, Advance(pid, at, done))
    requires s.procs[pid].pc.NameRun? || s.procs[pid].pc.Working? || s.procs[pid].pc.ClearName?
    ensures Accounted(Advanced(s, pid, at, done))
  {
    hide Exclusive, OwnStatement, RowsAccounted;
    var t := Advanced(s, pid, at, done);
    AdvanceEffect(s, pid, at, done);
    OwnStatementExclusive(s, pid, t);
    LocalStepProcs(s, t, pid);
    NamingRows(s, pid, at, done);
  }

  lemma NamingRows(s: State, pid: nat, at: int, done: JobRegistry.JobStatus)
    requires Accounted(s) && Enabled(s, Advance(pid, at, done))
    requires s.procs[pid].pc.NameRun? || s.procs[pid].pc.Working? || s.procs[pid].pc.ClearName?
    ensures RowsAccounted(Advanced(s, pid, at, done))
  {
    hide Exclusive;
    var t := Advanced(s, pid, at, done);
    var p := s.procs[pid];
    HeldElsewhere(s, t, pid);
    forall r: nat | IsRunning(t, r)
      ensures r in t.orphans || NamedRun(t, r) || exists q: nat :: Holds(t, q, r)
    {
      assert IsRunning(s, r);
      if q: nat :| Holds(s, q, r) {
        if q == pid {
          assert Named(t, p.jobId) == Some(r);
        } else {
          assert Holds(t, q, r);
        }
      }
    }
  }

  lemma FinishKeepsAccounts(s: State, pid: nat, at: int, done: JobRegistry.JobStatus)
    requires Accounted(s) && Enabled(s, Advance(pid, at, done)) && s.procs[pid].pc.FinishWrite?
    ensures Accounted(Advanced(s, pid, at, done))
  {
    hide Exclusive, OwnStatement;
    var t := Advanced(s, pid, at, done);
    var p := s.procs[pid];
    var run := p.pc.run;
    AdvanceEffect(s, pid, at, done);
    OwnStatementExclusive(s, pid, t);
    HeldElsewhere(s, t, pid);
    assert t.runs[run].status != RunHistory.Running;
    LocalStepProcs(s, t, pid);
    forall r: nat | IsRunning(t, r)
      ensures r in t.orphans || NamedRun(t, r) || exists q: nat :: Holds(t, q, r)
    {
      assert r != run && IsRunning(s, r);
      if q: nat :| Holds(s, q, r) {
        assert q != pid;
        assert Holds(t, q, r);
      }
    }
  }

  lemma AdvanceKeepsAccounts(s: State, pid: nat, at: int, done: JobRegistry.JobStatus)
    requires Accounted(s) && Enabled(s, Advance(pid, at, done))
    ensures Accounted(Advanced(s, pid, at, done))
  {
    var p := s.procs[pid];
    match p.pc
    case Load => ReadKeepsAccounts(s, pid, CheckResume(Named(s, p.jobId)));
    case CheckResume(named) => ReadKeepsAccounts(s, pid, if RunningRun(s, named) then Working(named.value) else StartRun);
    case StartRun => InsertKeepsAccounts(s, pid, at, done);
    case NameRun(_) => NamingKeepsAccounts(s, pid, at, done);
    case Working(_) => NamingKeepsAccounts(s, pid, at, done);
    case Wrapped => ReadKeepsAccounts(s, pid, FinishRead(Named(s, p.jobId), RunHistory.Completed));
    case FailLoad => ReadKeepsAccounts(s, pid, FailCheck(Named(s, p.jobId)));
    case FailCheck(named) =>
      ReadKeepsAccounts(s, pid, if RunningRun(s, named) then FinishRead(named, RunHistory.Failed) else FailStart);
    case FailStart => InsertKeepsAccounts(s, pid, at, done);
    case FinishRead(target, status) => ReadKeepsAccounts(s, pid, FinishWrite(target.value, status));
    case FinishWrite(_, _) => FinishKeepsAccounts(s, pid, at, done);
    case ClearName(_) => NamingKeepsAccounts(s, pid, at, done);
    case Release(_) => ReleaseKeepsAccounts(s, pid, at, done);
  }

  lemma ReleaseKeepsAccounts(s: State, pid: nat, at: int, done: JobRegistry.JobStatus)
    requires Accounted(s) && Enabled(s, Advance(pid, at, done)) && s.procs[pid].pc.Release?
    ensures Accounted(Advanced(s, pid, at, done))
  {
    var t := Advanced(s, pid, at, done);
    AdvanceEffect(s, pid, at, done);
    OwnStatementExclusive(s, pid, t);
    HeldElsewhere(s, t, pid);
    LocalStepProcs(s, t, pid);
    StillHeld(s, t, pid);
  }

  /** With the rows untouched and nothing carried by `pid`, every row stays accounted for. */
  lemma StillHeld(s: State, t: State, pid: nat)
    requires RowsAccounted(s) && t.runs == s.runs && t.checkpoints == s.checkpoints && s.orphans <= t.orphans
    requires forall q: nat, r: nat :: Holds(s, q, r) ==> Holds(t, q, r) || r in t.orphans || NamedRun(t, r)
    ensures RowsAccounted(t)
  {
  }

  // ---------------------------------------------------------------------
  // Every other step
  // ---------------------------------------------------------------------

  /** What an abort gives up is a running row of the job that nothing names. */
  lemma OrphaningEffect(s: State, pid: nat)
    requires Accounted(s) && pid < |s.procs| && s.procs[pid].Busy?
    ensures var o := Orphaning(s, pid);
            && OrphansRunning(o) && NamesOwnRuns(o)
            && o.runs == s.runs && o.checkpoints == s.checkpoints && o.procs == s.procs && o.jobs == s.jobs
            && s.orphans <= o.orphans
            && (forall r: nat :: Holds(s, pid, r) ==> r in o.orphans || NamedRun(s, r))
            && (forall j :: j != s.procs[pid].jobId ==> SameFor(s, o, j))
  {
    hide Exclusive;
    var p := s.procs[pid];
    assert AtPc(s, p.jobId, p.pc);
    match Abandoned(s, pid)
    case None =>
    case Some(run) =>
      assert OwnRun(s, p.jobId, run) && Named(s, p.jobId) != Some(run);
      assert |s.orphans + {run}| == |s.orphans| + 1;
  }

  lemma AbortKeepsAccounts(s: State, pid: nat, t: State)
    requires Accounted(s) && pid < |s.procs| && s.procs[pid].Busy?
    requires t == Orphaning(s, pid).(procs := t.procs) && |t.procs| == |s.procs| && t.procs == s.procs[pid := t.procs[pid]]
    requires t.procs[pid] == Free || t.procs[pid] == s.procs[pid].(pc := FailLoad)
    requires t.procs[pid].Busy? ==> s.procs[pid].finalized == 0
    ensures Accounted(t)
  {
    var o := Orphaning(s, pid);
    OrphaningEffect(s, pid);
    AbortFrame(s, o, t, pid);
  }

  lemma AbortFrame(s: State, o: State, t: State, pid: nat)
    requires Accounted(s) && pid < |s.procs| && s.procs[pid].Busy?
    requires OrphansRunning(o) && NamesOwnRuns(o) && s.orphans <= o.orphans
    requires o.runs == s.runs && o.checkpoints == s.checkpoints && o.jobs == s.jobs
    requires forall r: nat :: Holds(s, pid, r) ==> r in o.orphans || NamedRun(s, r)
    requires forall j :: j != s.procs[pid].jobId ==> SameFor(s, o, j)
    requires t == o.(procs := t.procs) && |t.procs| == |s.procs| && t.procs == s.procs[pid := t.procs[pid]]
    requires t.procs[pid] == Free || t.procs[pid] == s.procs[pid].(pc := FailLoad)
    requires t.procs[pid].Busy? ==> s.procs[pid].finalized == 0
    ensures Accounted(t)
  {
    HeldElsewhere(s, t, pid);
    forall q: nat | q < |t.procs| && t.procs[q].Busy?
      ensures AtPc(t, t.procs[q].jobId, t.procs[q].pc) && FinalizedOnce(t.procs[q])
    {
      if q != pid {
        var j := s.procs[q].jobId;
        assert j != s.procs[pid].jobId && SameFor(s, o, j);
        assert SameFor(s, t, j);
        OtherProcKnows(s, t, j, s.procs[q].pc);
      }
    }
    StillHeld(s, t, pid);
  }

  lemma ClaimKeepsAccounts(s: State, pid: nat, jobId: string, at: int)
    requires Accounted(s) && Enabled(s, Claim(pid, jobId, at))
    ensures Accounted(Interfered(s, Claim(pid, jobId, at)))
  {
    var t := Interfered(s, Claim(pid, jobId, at));
    InterferenceExclusion(s, Claim(pid, jobId, at), t);
    HeldElsewhere(s, t, pid);
    forall q: nat | q < |t.procs| && t.procs[q].Busy?
      ensures AtPc(t, t.procs[q].jobId, t.procs[q].pc) && FinalizedOnce(t.procs[q])
    {
      if q != pid { assert AtPc(s, s.procs[q].jobId, s.procs[q].pc); }
    }
    StillHeld(s, t, pid);
  }

  lemma JobWriteKeepsAccounts(s: State, t: State)
    requires Accounted(s) && Exclusive(t)
    requires t == s.(jobs := t.jobs, queued := t.queued, stale := t.stale)
    ensures Accounted(t)
  {
    forall q: nat | q < |t.procs| && t.procs[q].Busy?
      ensures AtPc(t, t.procs[q].jobId, t.procs[q].pc) && FinalizedOnce(t.procs[q])
    {
      assert AtPc(s, s.procs[q].jobId, s.procs[q].pc);
    }
    assert forall q: nat, r: nat :: Holds(t, q, r) <==> Holds(s, q, r);
    StillHeld(s, t, 0);
  }

  lemma StepKeepsAccounts(s: State, step: Step)
    requires Accounted(s) && Enabled(s, step) && !Preempts(s, step)
    ensures Accounted(Apply(s, step))
  {
    hide Advanced;
    if step.Advance? {
      AdvanceKeepsAccounts(s, step.pid, step.at, step.done);
      return;
    }
    var t := Interfered(s, step);
    match step
    case Claim(pid, jobId, at) => ClaimKeepsAccounts(s, pid, jobId, at);
    case Raise(pid) => AbortKeepsAccounts(s, pid, t);
    case Crash(pid) => AbortKeepsAccounts(s, pid, t);
    case _ =>
      InterferenceExclusion(s, step, t);
      JobWriteKeepsAccounts(s, t);
  }

  /** Every reachable state is accounted for, as long as nothing preempts a live process. */
  lemma {:induction false} AlwaysAccounted(s: State, steps: seq<Step>)
    requires Accounted(s) && Possible(s, steps) && Disciplined(s, steps)
    ensures Accounted(Outcome(s, steps))
    decreases |steps|
  {
    if steps != [] {
      StepKeepsAccounts(s, steps[0]);
      AlwaysAccounted(Apply(s, steps[0]), steps[1..]);
    }
  }

  /** Nothing has run yet. */
  predicate Initial(s: State) {
    && s.runs == [] && s.checkpoints == map[] && s.orphans == {} && s.windowAborts == 0
    && forall pid :: 0 <= pid < |s.procs| ==> s.procs[pid] == Free
  }

  /** Between calls for a job, each of its running rows is the one its checkpoint names or an
      orphan, and orphans number exactly the aborts between inserting a row and its next write. */
  lemma RunningBetweenCalls(s: State, steps: seq<Step>, jobId: string, run: nat)
    requires Initial(s) && Possible(s, steps) && Disciplined(s, steps)
    ensures var t := Outcome(s, steps);
            && |t.orphans| == t.windowAborts
            && (!Live(t, jobId) && IsRunning(t, run) && t.runs[run].jobId == jobId ==>
                  run in t.orphans || Named(t, jobId) == Some(run))
  {
    assert Accounted(s);
    AlwaysAccounted(s, steps);
    var t := Outcome(s, steps);
    if !Live(t, jobId) && IsRunning(t, run) && t.runs[run].jobId == jobId {
      if pid: nat :| Holds(t, pid, run) {
        assert AtPc(t, t.procs[pid].jobId, t.procs[pid].pc);
        assert Executes(t, pid, jobId);
      }
    }
  }

  /** A call that returns has finalized exactly one row and leaves no run named; and the pipeline
      never works under a run that is not running. */
  lemma CallsFinalizeOnce(s: State, steps: seq<Step>, pid: nat)
    requires Initial(s) && Possible(s, steps) && Disciplined(s, steps)
    ensures var t := Outcome(s, steps);
            pid < |t.procs| && t.procs[pid].Busy? ==>
              && (t.procs[pid].pc.Release? ==> t.procs[pid].finalized == 1 && Named(t, t.procs[pid].jobId) == None)
              && (t.procs[pid].pc.Working? ==> OwnRun(t, t.procs[pid].jobId, t.procs[pid].pc.run))
  {
    assert Accounted(s);
    AlwaysAccounted(s, steps);
  }
}
