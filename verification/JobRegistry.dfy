/** The job table: its status column is the lock that workers compete for. */
module JobRegistry {
  import opened Common
  import opened Phases

  datatype JobStatus = Idle | Queued | Running | Completed | Review | Continuing | Retry | Failed | Paused

  /** The parts of a job's definition that the engine reads. Durations are in microseconds.
      `requiredStreak` is the streak the configuration itself asks for, zero if it does not. */
  datatype JobConfig = JobConfig(
    category: string, collectorType: string, adapterKnown: bool, priority: int, interval: int,
    maxPages: nat, rateLimit: int, maxDrainWait: int, revalidateAfter: int, seedUrls: seq<string>,
    conditions: Conditions, requiredStreak: int)

  datatype JobRow = JobRow(status: JobStatus, enabled: bool, phase: Phase, lastStartedAt: Option<int>,
                           lastFinishedAt: Option<int>, nextRunAt: Option<int>, config: JobConfig)

  type JobTable = map<string, JobRow>

  predicate Schedulable(status: JobStatus) {
    status == Idle || status == Completed || status == Continuing || status == Retry
  }

  predicate IsDue(row: JobRow, now: int) {
    row.enabled && Schedulable(row.status) && (row.nextRunAt.None? || row.nextRunAt.value <= Truncate(now))
  }

  lemma DueIsSchedulable(row: JobRow, now: int)
    requires IsDue(row, now)
    ensures Schedulable(row.status)
  {
  }

  /** A running job whose start is older than the cutoff. */
  predicate LooksStale(row: JobRow, cutoff: int) {
    row.status == Running && row.lastStartedAt.Some? && row.lastStartedAt.value < cutoff
  }

  // One update of the table each, as values.

  function QueuedTable(jobs: JobTable, jobId: string): JobTable {
    if jobId in jobs && Schedulable(jobs[jobId].status) then jobs[jobId := jobs[jobId].(status := Queued)] else jobs
  }

  predicate Claimable(jobs: JobTable, jobId: string) {
    jobId in jobs && jobs[jobId].status == Queued && jobs[jobId].enabled
  }

  function ClaimedTable(jobs: JobTable, jobId: string, now: int): JobTable {
    if Claimable(jobs, jobId) then jobs[jobId := jobs[jobId].(status := Running, lastStartedAt := Some(Truncate(now)))] else jobs
  }

  function FinishedTable(jobs: JobTable, jobId: string, status: JobStatus, nextRun: Option<int>, now: int): JobTable {
    if jobId in jobs then
      var next := if status == Paused then None
                  else if nextRun.Some? then nextRun
                  else Some(Truncate(now + jobs[jobId].config.interval));
      jobs[jobId := jobs[jobId].(status := status, lastFinishedAt := Some(Truncate(now)), nextRunAt := next)]
    else jobs
  }

  function PausedTable(jobs: JobTable, jobId: string): JobTable {
    if jobId in jobs then jobs[jobId := jobs[jobId].(status := Paused)] else jobs
  }

  function ResumedTable(jobs: JobTable, jobId: string, now: int): JobTable {
    if jobId in jobs then jobs[jobId := jobs[jobId].(status := Idle, nextRunAt := Some(Truncate(now)))] else jobs
  }

  function EnabledTable(jobs: JobTable, jobId: string, enabled: bool): JobTable {
    if jobId in jobs then jobs[jobId := jobs[jobId].(enabled := enabled)] else jobs
  }

  function PhaseTable(jobs: JobTable, jobId: string, phase: Phase): JobTable {
    if jobId in jobs then jobs[jobId := jobs[jobId].(phase := phase)] else jobs
  }

  function ResetTable(jobs: JobTable, jobId: string): JobTable {
    if jobId in jobs && jobs[jobId].status == Running then jobs[jobId := jobs[jobId].(status := Retry)] else jobs
  }

  class JobRegistry {
    var rows: JobTable

    constructor ()
      ensures rows == map[]
    {
      rows := map[];
    }

    /** `SELECT ... WHERE enabled = 1 AND status IN (...) AND (next_run_at IS NULL OR next_run_at <= ?)` */
    method DueJobs(now: int) returns (due: set<string>)
      ensures forall j :: j in due <==> j in rows && IsDue(rows[j], now)
    {
      due := set j | j in rows && rows[j].enabled
        && (rows[j].status == Idle || rows[j].status == Completed || rows[j].status == Continuing || rows[j].status == Retry)
        && (rows[j].nextRunAt.None? || rows[j].nextRunAt.value <= Truncate(now));
    }

    method MarkQueued(jobId: string)
      modifies this
      ensures rows == QueuedTable(old(rows), jobId)
    {
      if jobId in rows {
        var status := rows[jobId].status;
        if status == Idle || status == Completed || status == Continuing || status == Retry {
          rows := rows[jobId := rows[jobId].(status := Queued)];
        }
      }
    }

    /** Queued to running in one step; only one caller can win a queueing. */
    method ClaimQueued(jobId: string, now: int) returns (claimed: bool)
      modifies this
      ensures claimed <==> Claimable(old(rows), jobId)
      ensures rows == ClaimedTable(old(rows), jobId, now)
      ensures !Claimable(rows, jobId)
    {
      claimed := jobId in rows && rows[jobId].status == Queued && rows[jobId].enabled;
      if claimed {
        rows := rows[jobId := rows[jobId].(status := Running, lastStartedAt := Some(Truncate(now)))];
      }
    }

    method Finish(jobId: string, status: JobStatus, nextRun: Option<int>, now: int)
      modifies this
      ensures rows == FinishedTable(old(rows), jobId, status, nextRun, now)
    {
      if jobId !in rows {
        return;
      }
      var next: Option<int>;
      if status == Paused {
        next := None;
      } else if nextRun.Some? {
        next := nextRun;
      } else {
        next := Some(Truncate(now + rows[jobId].config.interval));
      }
      rows := rows[jobId := rows[jobId].(status := status, lastFinishedAt := Some(Truncate(now)), nextRunAt := next)];
    }

    method SetPhase(jobId: string, phase: Phase)
      modifies this
      ensures rows == PhaseTable(old(rows), jobId, phase)
    {
      if jobId in rows {
        rows := rows[jobId := rows[jobId].(phase := phase)];
      }
    }

    method Pause(jobId: string)
      modifies this
      ensures rows == PausedTable(old(rows), jobId)
    {
      if jobId in rows {
        rows := rows[jobId := rows[jobId].(status := Paused)];
      }
    }

    method Resume(jobId: string, now: int)
      modifies this
      ensures rows == ResumedTable(old(rows), jobId, now)
    {
      if jobId in rows {
        rows := rows[jobId := rows[jobId].(status := Idle, nextRunAt := Some(Truncate(now)))];
      }
    }

    method SetEnabled(jobId: string, enabled: bool)
      modifies this
      ensures rows == EnabledTable(old(rows), jobId, enabled)
    {
      if jobId in rows {
        rows := rows[jobId := rows[jobId].(enabled := enabled)];
      }
    }

    method ResetStaleRunning(jobId: string)
      modifies this
      ensures rows == ResetTable(old(rows), jobId)
    {
      if jobId in rows && rows[jobId].status == Running {
        rows := rows[jobId := rows[jobId].(status := Retry)];
      }
    }
  }
}
