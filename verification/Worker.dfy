/** Running one claimed job and recording the outcome; the worker's and the scheduler's loops. */
module Worker {
  import opened Common
  import opened Phases
  import opened CrawlState
  import opened UrlNormalization
  import opened Surroundings
  import QueueLog
  import FetchQueue
  import Candidates
  import JobRegistry
  import RunHistory
  import Checkpoints
  import Pipeline
  import PhaseHistory

  // ---------------------------------------------------------------------
  // What a recorded run means
  // ---------------------------------------------------------------------

  /** Exactly the row `run` was finalized: a running row of the job, or one inserted by this call. */
  ghost predicate FinalizedOne(before: seq<RunHistory.RunRow>, after: seq<RunHistory.RunRow>, jobId: string, run: nat,
                               status: RunHistory.RunStatus)
  {
    && run < |after|
    && (if run < |before| then
          |after| == |before| && RunHistory.IsRunning(before, run) && before[run].jobId == jobId
          && EndedFrom(before[run], after[run], status)
        else
          run == |before| == |after| - 1 && exists begun :: EndedFrom(RunHistory.NewRun(jobId, begun), after[run], status))
    && forall i :: 0 <= i < |before| && i != run ==> after[i] == before[i]
  }

  /** A running row was finalized at some time. */
  ghost predicate EndedFrom(row: RunHistory.RunRow, ended: RunHistory.RunRow, status: RunHistory.RunStatus) {
    exists now :: ended == RunHistory.Finalized(row, status, ended.counts, now).(counts := ended.counts)
  }

  lemma FinishFinalizesOne(runs: seq<RunHistory.RunRow>, run: nat, status: RunHistory.RunStatus,
                           counts: map<RunHistory.Counter, int>, now: int)
    requires RunHistory.IsRunning(runs, run)
    ensures var after := RunHistory.GuardedFinish(runs, run, status, counts, now);
            FinalizedOne(runs, after, runs[run].jobId, run, status)
  {
    var ended := RunHistory.Finalized(runs[run], status, counts, now);
    assert ended == RunHistory.Finalized(runs[run], status, ended.counts, now).(counts := ended.counts);
  }

  /** Opening a run and finalizing it finalizes exactly one row, whether it was resumed or new. */
  lemma OpenedThenFinalized(checkpoints: map<string, Checkpoints.Checkpoint>, before: seq<RunHistory.RunRow>,
                            during: seq<RunHistory.RunRow>, after: seq<RunHistory.RunRow>, jobId: string, run: nat,
                            status: RunHistory.RunStatus)
    requires Opened(checkpoints, before, during, jobId, run)
    requires FinalizedOne(during, after, jobId, run, status) && |after| == |during|
    ensures FinalizedOne(before, after, jobId, run, status)
    ensures Resumable(checkpoints, before, jobId) == if run < |before| then Some(run) else None
  {
  }

  lemma NamedIsResumable(checkpoints: map<string, Checkpoints.Checkpoint>, runs: seq<RunHistory.RunRow>, jobId: string, run: nat)
    requires Names(checkpoints, runs, jobId, run)
    ensures Resumable(checkpoints, runs, jobId) == Some(run) && run < |runs|
  {
  }

  lemma FinalizedOneSize(before: seq<RunHistory.RunRow>, after: seq<RunHistory.RunRow>, jobId: string, run: nat,
                         status: RunHistory.RunStatus)
    requires FinalizedOne(before, after, jobId, run, status)
    ensures |after| == if run < |before| then |before| else |before| + 1
  {
  }

  /** The tables that a call shares with every other process. */
  datatype SharedTables = SharedTables(jobs: JobRegistry.JobTable, queue: seq<QueueLog.Row>,
                                       checkpoints: map<string, Checkpoints.Checkpoint>, runs: seq<RunHistory.RunRow>,
                                       discovery: seq<RunHistory.DiscoveryRow>)

  function RunStatusOf(status: JobRegistry.JobStatus): RunHistory.RunStatus {
    if status == JobRegistry.Failed then RunHistory.Failed else RunHistory.Completed
  }

  /** What a call that returned has written: one run row, the one its checkpoint named if that was
      still running; no run is named any more; and the job has its final status. */
  ghost predicate Recorded(before: SharedTables, after: SharedTables, jobId: string, run: nat, status: JobRegistry.JobStatus) {
    && FinalizedOne(before.runs, after.runs, jobId, run, RunStatusOf(status))
    && Resumable(before.checkpoints, before.runs, jobId) == (if run < |before.runs| then Some(run) else None)
    && OwnCheckpoint(before.checkpoints, after.checkpoints, jobId)
    && Checkpoints.Loaded(after.checkpoints, jobId).state.currentRunId.None?
    && jobId in before.jobs && jobId in after.jobs && after.jobs == before.jobs[jobId := after.jobs[jobId]]
    && after.jobs[jobId].status == status
  }

  lemma RecordedKeepsHistory(before: SharedTables, after: SharedTables, jobId: string, run: nat, status: JobRegistry.JobStatus)
    requires Recorded(before, after, jobId, run, status)
    ensures RunHistory.HistoryKept(before.runs, after.runs)
    ensures |after.runs| == if run < |before.runs| then |before.runs| else |before.runs| + 1
  {
  }

  /** The counters of a run as they are stored. */
  function CountsOf(outcome: RunOutcome): map<RunHistory.Counter, int>
    reads outcome
  {
    map[RunHistory.FetchedCount := outcome.fetched, RunHistory.InsertedCount := outcome.inserted,
        RunHistory.UpdatedCount := outcome.updated, RunHistory.DuplicateCount := outcome.duplicates,
        RunHistory.ReviewCount := outcome.reviewed, RunHistory.ErrorCount := outcome.errors,
        RunHistory.DiscoveredCount := outcome.discovered]
  }

  /** What the counters of a finished run tell, seen in the tables before and after it: entities added, merges,
      review rows filed, rows given up or failed, claims that ended, and candidates added but for those of the
      bootstrap. */
  ghost predicate Told(counts: map<RunHistory.Counter, int>, opening: Books, closing: Books, boot: nat) {
    && (forall c: RunHistory.Counter :: c in counts)
    && counts[RunHistory.InsertedCount] == closing.entities - opening.entities
    && counts[RunHistory.UpdatedCount] == counts[RunHistory.DuplicateCount] == closing.merges - opening.merges
    && counts[RunHistory.ReviewCount] == closing.reviews - opening.reviews
    && counts[RunHistory.DiscoveredCount] + boot == closing.candidates - opening.candidates
    && counts[RunHistory.ErrorCount]
         == closing.queue.skips - opening.queue.skips + (closing.queue.failures - opening.queue.failures)
    && counts[RunHistory.FetchedCount]
         == closing.queue.finishes - opening.queue.finishes + (closing.queue.skips - opening.queue.skips)
            + (closing.queue.failures - opening.queue.failures)
  }

  lemma ConservedTells(opening: Books, trace: Trace, b: Books)
    requires Conserved(opening.Seeded(trace.boot).Requeued(trace.requeued), b, 0)
    ensures b.fetched - opening.fetched
      == b.queue.finishes - opening.queue.finishes + (b.queue.skips - opening.queue.skips)
         + (b.queue.failures - opening.queue.failures)
    ensures b.discovered - opening.discovered + trace.boot == b.candidates - opening.candidates
  {
  }

  /** The row counts one error; its other counters are what they were, zero in a new row. */
  ghost predicate OneError(before: seq<RunHistory.RunRow>, after: seq<RunHistory.RunRow>, run: nat) {
    && run < |after| && RunHistory.ErrorCount in after[run].counts && after[run].counts[RunHistory.ErrorCount] == 1
    && forall c :: c != RunHistory.ErrorCount ==>
         RunHistory.CounterOf(after[run], c) == if run < |before| then RunHistory.CounterOf(before[run], c) else 0
  }

  lemma OneErrorSince(checkpoints: map<string, Checkpoints.Checkpoint>, before: seq<RunHistory.RunRow>,
                      during: seq<RunHistory.RunRow>, after: seq<RunHistory.RunRow>, jobId: string, run: nat)
    requires Opened(checkpoints, before, during, jobId, run) && OneError(during, after, run)
    ensures OneError(before, after, run)
  {
    hide Resumable;
  }

  lemma CountsOneError(before: seq<RunHistory.RunRow>, after: seq<RunHistory.RunRow>, run: nat)
    requires run < |before| && run < |after|
    requires after[run].counts == before[run].counts + map[RunHistory.ErrorCount := 1]
    ensures OneError(before, after, run)
  {
  }

  /** The row that a call leaves: as it was claimed, but for the phase, and finished just now, due again after
      this wait. */
  ghost predicate Rescheduled(before: JobRegistry.JobRow, after: JobRegistry.JobRow, status: JobRegistry.JobStatus, wait: int,
                              now: int)
  {
    after == before.(phase := after.phase, status := status, lastFinishedAt := Some(Truncate(now)),
                     nextRunAt := Some(Truncate(now + wait)))
  }

  lemma FinishedIsRescheduled(before: JobRegistry.JobTable, jobId: string, status: JobRegistry.JobStatus, delay: Option<int>,
                              now: int)
    requires jobId in before && status != JobRegistry.Paused
    ensures var next := if delay.Some? then Some(Truncate(now + delay.value)) else None;
            Rescheduled(before[jobId], JobRegistry.FinishedTable(before, jobId, status, next, now)[jobId], status,
                        if delay.Some? then delay.value else before[jobId].config.interval, now)
  {
  }

  lemma RescheduledSince(claimed: JobRegistry.JobRow, before: JobRegistry.JobRow, after: JobRegistry.JobRow,
                         status: JobRegistry.JobStatus, wait: int, now: int)
    requires before == claimed.(phase := before.phase) && Rescheduled(before, after, status, wait, now)
    ensures Rescheduled(claimed, after, status, wait, now)
  {
  }

  /** The run ended between the two times and knows how long it took; if it is new, it began there too. */
  ghost predicate Timed(before: seq<RunHistory.RunRow>, after: seq<RunHistory.RunRow>, run: nat, early: int, late: int) {
    && run < |after| && Lasted(after[run], early, late)
    && (if run < |before| then after[run].startedAt == before[run].startedAt
        else early - MICROS < after[run].startedAt * MICROS <= late)
  }

  ghost predicate Lasted(row: RunHistory.RunRow, early: int, late: int) {
    exists t :: early <= t <= late && row.finishedAt == Some(Truncate(t)) && row.duration == Some(t - row.startedAt * MICROS)
  }

  lemma TimedSince(before: seq<RunHistory.RunRow>, during: seq<RunHistory.RunRow>, after: seq<RunHistory.RunRow>, run: nat,
                   early: int, middle: int, late: int)
    requires RunsBegun(before, during, early, middle) && Timed(during, after, run, middle, late) && early <= middle <= late
    ensures Timed(before, after, run, early, late)
  {
    var t :| middle <= t <= late && after[run].finishedAt == Some(Truncate(t))
             && after[run].duration == Some(t - after[run].startedAt * MICROS);
    assert Lasted(after[run], early, late);
  }

  lemma JustFinished(before: seq<RunHistory.RunRow>, after: seq<RunHistory.RunRow>, run: nat, status: RunHistory.RunStatus,
                     counts: map<RunHistory.Counter, int>, early: int, now: int, late: int)
    requires RunHistory.IsRunning(before, run) && after == RunHistory.GuardedFinish(before, run, status, counts, now)
    requires early <= now <= late
    ensures Timed(before, after, run, early, late)
  {
    assert after[run].finishedAt == Some(Truncate(now)) && after[run].duration == Some(now - after[run].startedAt * MICROS);
  }

  lemma TimedLater(before: seq<RunHistory.RunRow>, after: seq<RunHistory.RunRow>, run: nat, early: int, late: int, until: int)
    requires Timed(before, after, run, early, late) && late <= until
    ensures Timed(before, after, run, early, until)
  {
    var t :| early <= t <= late && after[run].finishedAt == Some(Truncate(t))
             && after[run].duration == Some(t - after[run].startedAt * MICROS);
    assert Lasted(after[run], early, until);
  }

  /** Every counter is stored, so nothing of what the row counted before shows through. */
  lemma CountsCover(before: map<RunHistory.Counter, int>, outcome: RunOutcome)
    ensures before + CountsOf(outcome) == CountsOf(outcome)
  {
    forall c: RunHistory.Counter ensures c in CountsOf(outcome) {
      RunHistory.EveryCounter(c);
    }
  }

  /** Some row of the job tracks the URL, and its fetching is over. */
  ghost predicate UrlSettled(rows: seq<QueueLog.Row>, jobId: string, url: string) {
    exists i :: 0 <= i < |rows| && rows[i].jobId == jobId && rows[i].url == url
      && (rows[i].status == QueueLog.Done || rows[i].status == QueueLog.Failed || rows[i].status == QueueLog.Skipped)
  }

  ghost predicate NothingPending(rows: seq<QueueLog.Row>, jobId: string) {
    forall i :: 0 <= i < |rows| ==> !FetchQueue.Pending(rows[i], jobId)
  }

  /** Neither a queued nor an in-flight row is left. */
  ghost predicate Drained(rows: seq<QueueLog.Row>, jobId: string) {
    NothingPending(rows, jobId) && NoneInFlight(rows, jobId)
  }

  ghost predicate SeedsSettled(rows: seq<QueueLog.Row>, jobId: string, seeds: seq<string>, urls: UrlRules) {
    forall i :: 0 <= i < |seeds| && urls.normalize(seeds[i]) != "" ==> UrlSettled(rows, jobId, urls.normalize(seeds[i]))
  }

  /** Every candidate of the job is settled, under its URL as stored or as the queue normalizes it. */
  ghost predicate CandidatesSettled(rows: seq<QueueLog.Row>, candidates: seq<Candidates.Candidate>, jobId: string,
                                    urls: UrlRules)
  {
    forall i :: 0 <= i < |candidates| && candidates[i].jobId == jobId ==>
      UrlSettled(rows, jobId, candidates[i].url) || UrlSettled(rows, jobId, urls.normalize(candidates[i].url))
  }

  /** Nothing the job knows is left to fetch, but for candidates that a promotion had to leave behind. */
  ghost predicate Resolved(rows: seq<QueueLog.Row>, candidates: seq<Candidates.Candidate>, jobId: string, seeds: seq<string>,
                           urls: UrlRules, backlog: set<string>)
  {
    && SeedsSettled(rows, jobId, seeds, urls)
    && (jobId !in backlog ==> CandidatesSettled(rows, candidates, jobId, urls))
  }

  lemma DrainedIsResolved(rows: seq<QueueLog.Row>, candidates: seq<Candidates.Candidate>, jobId: string, seeds: seq<string>,
                          urls: UrlRules, backlog: set<string>)
    requires Drained(rows, jobId) && AllTracked(seeds, rows, jobId, urls) && Covered(candidates, rows, urls, backlog)
    ensures Resolved(rows, candidates, jobId, seeds, urls, backlog)
  {
    forall i | 0 <= i < |candidates| && candidates[i].jobId == jobId && jobId !in backlog
      ensures UrlSettled(rows, jobId, candidates[i].url) || UrlSettled(rows, jobId, urls.normalize(candidates[i].url))
    {
      assert HasRow(rows, candidates[i], urls);
    }
  }

  /** Completed, and not in the phase that is never over. */
  predicate IsDone(row: JobRegistry.JobRow) {
    row.status == JobRegistry.Completed && row.phase != Incremental
  }

  ghost predicate DoneDrained(jobs: JobRegistry.JobTable, rows: seq<QueueLog.Row>, urls: UrlRules) {
    forall j :: j in jobs && IsDone(jobs[j]) ==> Drained(rows, j) && AllTracked(jobs[j].config.seedUrls, rows, j, urls)
  }

  /** Every job that is completed outside the incremental phase has settled everything it knows. */
  ghost predicate DoneResolved(jobs: JobRegistry.JobTable, rows: seq<QueueLog.Row>, candidates: seq<Candidates.Candidate>,
                               urls: UrlRules, backlog: set<string>)
  {
    forall j :: j in jobs && IsDone(jobs[j]) ==> Resolved(rows, candidates, j, jobs[j].config.seedUrls, urls, backlog)
  }

  lemma CompletedMeansResolved(jobs: JobRegistry.JobTable, rows: seq<QueueLog.Row>, candidates: seq<Candidates.Candidate>,
                               urls: UrlRules, backlog: set<string>)
    requires DoneDrained(jobs, rows, urls) && Covered(candidates, rows, urls, backlog)
    ensures DoneResolved(jobs, rows, candidates, urls, backlog)
  {
    forall j | j in jobs && IsDone(jobs[j]) ensures Resolved(rows, candidates, j, jobs[j].config.seedUrls, urls, backlog) {
      DrainedIsResolved(rows, candidates, j, jobs[j].config.seedUrls, urls, backlog);
    }
  }

  /** Running one job leaves the other ones done. */
  lemma DoneKept(before: JobRegistry.JobTable, after: JobRegistry.JobTable, rows: seq<QueueLog.Row>, rows': seq<QueueLog.Row>,
                 jobId: string, urls: UrlRules)
    requires DoneDrained(before, rows, urls) && OwnRows(rows, rows', jobId) && jobId in after
    requires after == before[jobId := after[jobId]]
    requires IsDone(after[jobId]) ==> Drained(rows', jobId) && AllTracked(after[jobId].config.seedUrls, rows', jobId, urls)
    ensures DoneDrained(after, rows', urls)
  {
    forall j | j in after && IsDone(after[j])
      ensures Drained(rows', j) && AllTracked(after[j].config.seedUrls, rows', j, urls)
    {
      if j != jobId {
        StillDrained(rows, rows', jobId, j, after[j].config.seedUrls, urls);
      }
    }
  }

  lemma StillDrained(rows: seq<QueueLog.Row>, rows': seq<QueueLog.Row>, jobId: string, other: string, seeds: seq<string>,
                     urls: UrlRules)
    requires Drained(rows, other) && AllTracked(seeds, rows, other, urls) && OwnRows(rows, rows', jobId) && other != jobId
    ensures Drained(rows', other) && AllTracked(seeds, rows', other, urls)
  {
    forall i | 0 <= i < |seeds| && urls.normalize(seeds[i]) != ""
      ensures QueueLog.Tracked(rows', other, urls.normalize(seeds[i]))
    {
      QueueLog.TrackedKept(rows, rows', other, urls.normalize(seeds[i]));
    }
  }

  /** Queueing, claiming and recovering make no job done. */
  lemma StatusesKeepDone(before: JobRegistry.JobTable, after: JobRegistry.JobTable, rows: seq<QueueLog.Row>, urls: UrlRules)
    requires DoneDrained(before, rows, urls) && after.Keys == before.Keys
    requires forall j :: j in after && after[j] != before[j] ==> after[j].status != JobRegistry.Completed
    ensures DoneDrained(after, rows, urls)
  {
  }

  ghost predicate AllIn(rows: seq<QueueLog.Row>, universe: set<(string, string)>) {
    forall i :: 0 <= i < |rows| ==> (rows[i].jobId, rows[i].url) in universe
  }

  /** The whole crawl of a collector: five claims per URL of the universe, and at most five more for
      each row that was requeued after a crash or for revalidation, are all there will ever be. */
  lemma CrawlBounded(collector: Pipeline.BaseCollector, universe: set<(string, string)>)
    requires collector.Valid() && AllIn(collector.queue.rows, universe)
    ensures var tally := TallyOf(collector.queue.log);
            tally.claims <= 5 * |universe| + 5 * tally.requeues
  {
    QueueLog.CrawlTerminates(collector.queue.log, universe, FetchQueue.DEFAULT_MAX_ATTEMPTS);
  }

  /** The run's error counter never exceeds its fetches, which without an exception all ended in
      exactly one way. */
  lemma ErrorsWithinFetches(opening: Books, b: Books, open: nat)
    requires Conserved(opening, b, open) && opening.fetched == opening.errors == 0
    ensures 0 <= b.errors <= b.fetched
    ensures open == 0 ==> b.fetched == b.queue.claims - opening.queue.claims == b.queue.Resolved() - opening.queue.Resolved()
  {
  }

  /** The books without the counters. */
  lemma ConservedFlows(opening: Books, trace: Trace, b: Books, after: Books, open: nat)
    requires Conserved(opening.Seeded(trace.boot).Requeued(trace.requeued), b, open)
    requires after.requests == b.requests && after.queue == b.queue
    requires after.entities == b.entities && after.reviews == b.reviews && after.candidates == b.candidates
    ensures after.queue.requeues == opening.queue.requeues + trace.requeued
    ensures Flowed(opening, after, open)
  {
  }

  /** No row is in flight, whatever its job. */
  ghost predicate NothingInFlight(rows: seq<QueueLog.Row>) {
    forall i :: 0 <= i < |rows| ==> rows[i].status != QueueLog.Fetching
  }

  /** A run touches its own job's rows only. */
  lemma QuietKept(before: seq<QueueLog.Row>, after: seq<QueueLog.Row>, jobId: string)
    requires NothingInFlight(before) && OwnRows(before, after, jobId) && NoneInFlight(after, jobId)
    ensures NothingInFlight(after)
  {
  }

  lemma NothingMeansNone(rows: seq<QueueLog.Row>, jobId: string)
    requires NothingInFlight(rows)
    ensures NoneInFlight(rows, jobId)
  {
  }

  /** No run failed in between: every failed row was failed before. */
  ghost predicate NoNewFailure(before: seq<RunHistory.RunRow>, after: seq<RunHistory.RunRow>) {
    forall r :: 0 <= r < |after| && after[r].status == RunHistory.Failed ==>
      r < |before| && before[r].status == RunHistory.Failed
  }

  lemma NoNewFailureSplit(a: seq<RunHistory.RunRow>, b: seq<RunHistory.RunRow>, c: seq<RunHistory.RunRow>)
    requires RunHistory.HistoryKept(a, b) && RunHistory.HistoryKept(b, c) && NoNewFailure(a, c)
    ensures NoNewFailure(a, b) && NoNewFailure(b, c)
  {
    forall r | 0 <= r < |b| && b[r].status == RunHistory.Failed ensures r < |a| && a[r].status == RunHistory.Failed {
      assert c[r] == b[r];
    }
  }

  /** A call that failed leaves a newly failed row. */
  lemma FailureShows(before: SharedTables, after: SharedTables, jobId: string, run: nat)
    requires Recorded(before, after, jobId, run, JobRegistry.Failed)
    ensures !NoNewFailure(before.runs, after.runs)
  {
    assert after.runs[run].status == RunHistory.Failed;
  }

  /** Jobs stay, and none falls back to an earlier phase. */
  ghost predicate PhasesRise(before: JobRegistry.JobTable, after: JobRegistry.JobTable) {
    forall j :: j in before ==> j in after && Rank(before[j].phase) <= Rank(after[j].phase)
  }

  ghost predicate NoneIncremental(jobs: JobRegistry.JobTable) {
    forall j :: j in jobs ==> jobs[j].phase != Incremental
  }

  /** Between the two, no run failed and no job was incremental, which is the last phase. */
  ghost predicate Undisturbed(before: SharedTables, after: SharedTables) {
    NoNewFailure(before.runs, after.runs) && NoneIncremental(after.jobs)
  }

  lemma UndisturbedSplit(a: SharedTables, b: SharedTables, c: SharedTables)
    requires RunHistory.HistoryKept(a.runs, b.runs) && RunHistory.HistoryKept(b.runs, c.runs) && PhasesRise(b.jobs, c.jobs)
    requires Undisturbed(a, c)
    ensures Undisturbed(a, b) && Undisturbed(b, c)
  {
    NoNewFailureSplit(a.runs, b.runs, c.runs);
  }

  lemma NotIncremental(before: JobRegistry.JobTable, after: JobRegistry.JobTable, jobId: string)
    requires PhasesRise(before, after) && jobId in before
    ensures NoneIncremental(after) ==> before[jobId].phase != Incremental
  {
  }

  lemma PhasesRiseSelf(jobs: JobRegistry.JobTable)
    ensures PhasesRise(jobs, jobs)
  {
  }

  lemma PhasesRiseOn(a: JobRegistry.JobTable, b: JobRegistry.JobTable, c: JobRegistry.JobTable)
    requires PhasesRise(a, b) && PhasesRise(b, c)
    ensures PhasesRise(a, c)
  {
  }

  lemma RecordedPhasesRise(before: SharedTables, after: SharedTables, jobId: string, run: nat, status: JobRegistry.JobStatus,
                           step: PhaseHistory.Run)
    requires Recorded(before, after, jobId, run, status)
    requires StateIn(after, jobId) == PhaseHistory.After(StateIn(before, jobId), step).(saved := [])
    ensures PhasesRise(before.jobs, after.jobs)
  {
    hide PhaseHistory.After;
    PhaseHistory.OneRunPhase(StateIn(before, jobId), step);
  }

  // ---------------------------------------------------------------------
  // Phase histories
  // ---------------------------------------------------------------------

  ghost function StateIn(tables: SharedTables, jobId: string): PhaseHistory.JobState
    requires jobId in tables.jobs
  {
    StateOf(tables.jobs, tables.checkpoints, tables.discovery, jobId)
  }

  type Histories = map<string, seq<PhaseHistory.Run>>

  /** Each job with a history is where that history, started afresh, has led. */
  ghost predicate Chronicled(histories: Histories, tables: SharedTables) {
    forall j :: j in histories ==>
      && j in tables.jobs && StateIn(tables, j) == PhaseHistory.Final(histories[j]).(saved := [])
      && PhaseHistory.Orderly(histories[j])
  }

  /** What the tables then show of each such job, whatever runs it has had: its phase certifies recorded
      runs, its streak is the trailing low block of them, and saturation implies the streak. */
  lemma HistoriesTell(histories: Histories, tables: SharedTables, jobId: string)
    requires Chronicled(histories, tables) && jobId in histories
    ensures var s := StateIn(tables, jobId);
            && |s.recorded| >= PhaseHistory.RunsBehind(s.phase)
            && (s.phase != Incremental ==> s.streak == PhaseHistory.TrailingLow(s.recorded))
            && (s.phase != Incremental && Saturated(s.recorded) ==> s.streak >= MIN_RUNS)
  {
    hide PhaseHistory.Final, PhaseHistory.TrailingLow, Saturated;
    var past := histories[jobId];
    PhaseHistory.PhaseCertifiesRuns(past);
    PhaseHistory.OrderlySavesAll(past);
    if PhaseHistory.Final(past).phase != Incremental {
      PhaseHistory.StreakCountsHistory(past);
      if Saturated(PhaseHistory.Final(past).recorded) {
        PhaseHistory.SaturationImpliesStreak(past);
      }
    }
  }

  /** The run as the phase history sees it. */
  ghost function Taken(job: Job, raised: bool, trace: Trace): PhaseHistory.Run {
    if raised then PhaseHistory.DiedEarly(job.config.adapterKnown)
    else PhaseHistory.Completed(trace.yielded, trace.around)
  }

  function Extended(histories: Histories, jobId: string, step: PhaseHistory.Run): Histories {
    if jobId in histories then histories[jobId := histories[jobId] + [step]] else histories
  }

  /** Histories only grow. */
  ghost predicate HistoriesGrow(before: Histories, after: Histories) {
    after.Keys == before.Keys && forall j :: j in before ==> before[j] <= after[j]
  }

  lemma HistoriesGrowSelf(histories: Histories)
    ensures HistoriesGrow(histories, histories)
  {
  }

  lemma HistoriesGrowOn(a: Histories, b: Histories, c: Histories)
    requires HistoriesGrow(a, b) && HistoriesGrow(b, c)
    ensures HistoriesGrow(a, c)
  {
    assert forall j :: j in a ==> a[j] <= b[j] <= c[j];
  }

  lemma ExtendedGrows(histories: Histories, jobId: string, step: PhaseHistory.Run)
    ensures HistoriesGrow(histories, Extended(histories, jobId, step))
  {
  }

  /** The phase decision does not look at what was saved. */
  lemma SavedUnseen(s: PhaseHistory.JobState, step: PhaseHistory.Run)
    ensures PhaseHistory.After(s.(saved := []), step).(saved := []) == PhaseHistory.After(s, step).(saved := [])
  {
  }

  lemma ChronicleExtended(histories: Histories, before: SharedTables, after: SharedTables, jobId: string, run: nat,
                          status: JobRegistry.JobStatus, step: PhaseHistory.Run)
    requires Chronicled(histories, before) && Recorded(before, after, jobId, run, status)
    requires jobId in before.jobs && jobId in after.jobs
    requires OwnYields(before.discovery, after.discovery, jobId)
    requires StateIn(after, jobId) == PhaseHistory.After(StateIn(before, jobId), step).(saved := [])
    requires step.Completed? || step.DiedEarly?
    ensures Chronicled(Extended(histories, jobId, step), after)
  {
    hide PhaseHistory.After, PhaseHistory.Final, PhaseHistory.Orderly, StateIn, Recorded;
    var next := Extended(histories, jobId, step);
    forall j | j in next
      ensures j in after.jobs && StateIn(after, j) == PhaseHistory.Final(next[j]).(saved := []) && PhaseHistory.Orderly(next[j])
    {
      if j == jobId {
        HistoryExtended(histories[jobId], step, StateIn(before, jobId));
      } else {
        StateElsewhere(before, after, jobId, run, status, j);
      }
    }
  }

  lemma HistoryExtended(past: seq<PhaseHistory.Run>, step: PhaseHistory.Run, state: PhaseHistory.JobState)
    requires state == PhaseHistory.Final(past).(saved := []) && PhaseHistory.Orderly(past)
    requires step.Completed? || step.DiedEarly?
    ensures PhaseHistory.After(state, step).(saved := []) == PhaseHistory.Final(past + [step]).(saved := [])
    ensures PhaseHistory.Orderly(past + [step])
  {
    hide PhaseHistory.After;
    assert (past + [step])[..|past + [step]| - 1] == past;
    SavedUnseen(PhaseHistory.Final(past), step);
  }

  lemma StateElsewhere(before: SharedTables, after: SharedTables, jobId: string, run: nat, status: JobRegistry.JobStatus,
                       other: string)
    requires Recorded(before, after, jobId, run, status) && OwnYields(before.discovery, after.discovery, jobId)
    requires other != jobId && other in before.jobs
    ensures other in after.jobs && StateIn(after, other) == StateIn(before, other)
  {
    hide FinalizedOne, Resumable;
  }

  /** Writing statuses and times moves no phase. */
  lemma ChronicleKept(histories: Histories, before: SharedTables, after: SharedTables)
    requires Chronicled(histories, before)
    requires after == before.(jobs := after.jobs) && after.jobs.Keys == before.jobs.Keys
    requires forall j :: j in before.jobs ==> after.jobs[j].phase == before.jobs[j].phase
    ensures Chronicled(histories, after)
  {
  }

  lemma HistoryKeptSelf(runs: seq<RunHistory.RunRow>)
    ensures RunHistory.HistoryKept(runs, runs)
  {
  }

  lemma HistoryKeptOn(a: seq<RunHistory.RunRow>, b: seq<RunHistory.RunRow>, c: seq<RunHistory.RunRow>)
    requires RunHistory.HistoryKept(a, b) && RunHistory.HistoryKept(b, c)
    ensures RunHistory.HistoryKept(a, c)
  {
  }

  /** More work to do: rows still queued, or a streak the job itself asks for not reached yet. */
  predicate StillWorking(phase: Phase, config: JobRegistry.JobConfig, streak: int, queueEmpty: bool) {
    || (phase != Incremental && !queueEmpty)
    || ((phase == Discovery || phase == Collect || phase == Validation)
        && config.requiredStreak != 0 && streak < config.requiredStreak)
  }

  function ResetIfStale(row: JobRegistry.JobRow, cutoff: int): JobRegistry.JobRow {
    if JobRegistry.LooksStale(row, cutoff) then row.(status := JobRegistry.Retry) else row
  }

  function QueuedIfDue(row: JobRegistry.JobRow, now: int): JobRegistry.JobRow {
    if JobRegistry.IsDue(row, now) then row.(status := JobRegistry.Queued) else row
  }

  /** A round that worked: every due job was queued at some time, one queued and enabled job was run
      and has its final status, and one run row of it was finalized. */
  ghost predicate Ran(before: SharedTables, after: SharedTables, jobId: string, at: int, run: nat,
                      status: JobRegistry.JobStatus)
  {
    && after.jobs.Keys == before.jobs.Keys && jobId in before.jobs && after.jobs[jobId].status == status
    && (status == JobRegistry.Failed || status == JobRegistry.Completed || status == JobRegistry.Continuing)
    && (forall j :: j in before.jobs && j != jobId ==> after.jobs[j] == QueuedIfDue(before.jobs[j], at))
    && QueuedIfDue(before.jobs[jobId], at).status == JobRegistry.Queued && before.jobs[jobId].enabled
    && Restarted(before.jobs[jobId], after.jobs[jobId], at)
    && FinalizedOne(before.runs, after.runs, jobId, run, RunStatusOf(status))
  }

  /** The job started and finished at or after this time; its definition is as it was. */
  ghost predicate Restarted(before: JobRegistry.JobRow, after: JobRegistry.JobRow, at: int) {
    && after.config == before.config && after.enabled == before.enabled
    && after.lastStartedAt.Some? && at - MICROS < after.lastStartedAt.value * MICROS
    && after.lastFinishedAt.Some? && after.lastStartedAt.value <= after.lastFinishedAt.value
  }

  /** What a recovery with this cutoff does. */
  ghost predicate RecoveredTo(before: SharedTables, after: SharedTables, cutoff: int) {
    && after == before.(jobs := after.jobs) && after.jobs.Keys == before.jobs.Keys
    && forall j :: j in before.jobs ==> after.jobs[j] == ResetIfStale(before.jobs[j], cutoff)
  }

  /** A recovery if the last one is more than half of `staleAfter` ago or there was none. */
  ghost predicate MaybeRecovered(before: SharedTables, after: SharedTables, last: Option<int>, next: Option<int>, now: int,
                                 at: int, done: int, staleAfter: int)
  {
    if last.None? || 2 * (now - last.value) > staleAfter
    then next == Some(done) && RecoveredTo(before, after, Truncate(at - staleAfter))
    else next == last && after == before
  }

  ghost predicate RanSome(before: SharedTables, after: SharedTables, early: int, late: int) {
    exists jobId, at, run, status :: early <= at <= late && Ran(before, after, jobId, at, run, status)
  }

  /** Nothing was queued or due, and nothing changed. */
  ghost predicate Idle(before: SharedTables, after: SharedTables, early: int) {
    && after == before
    && forall j :: j in before.jobs ==> !JobRegistry.Claimable(before.jobs, j) && !JobRegistry.IsDue(before.jobs[j], early)
  }

  /** One pass of the worker's loop between two times, after a recovery at `last`: a recovery when one is
      called for, then a run or nothing to do. */
  ghost predicate Passed(before: SharedTables, after: SharedTables, last: Option<int>, next: Option<int>, early: int, late: int,
                         staleAfter: int)
  {
    exists between, now, at, done ::
      && early <= now <= at <= done <= late && MaybeRecovered(before, between, last, next, now, at, done, staleAfter)
      && (RanSome(between, after, early, late) || Idle(between, after, early))
  }

  /** A whole run of the loop, pass by pass, with the time of the last recovery before each. */
  ghost predicate Passes(states: seq<SharedTables>, times: seq<int>, recoveries: seq<Option<int>>, staleAfter: int) {
    && |states| == |times| == |recoveries| > 0 && recoveries[0] == None
    && forall k :: 0 <= k < |states| - 1 ==>
         Passed(states[k], states[k + 1], recoveries[k], recoveries[k + 1], times[k], times[k + 1], staleAfter)
  }

  /** No job that has run for `staleAfter` at this time is running any more. */
  ghost predicate StaleReset(before: SharedTables, after: SharedTables, now: int, staleAfter: int) {
    forall j :: j in before.jobs && before.jobs[j].status == JobRegistry.Running && before.jobs[j].lastStartedAt.Some?
                && before.jobs[j].lastStartedAt.value < Truncate(now - staleAfter) ==>
      j in after.jobs && after.jobs[j].status != JobRegistry.Running
  }

  /** Every running job that had a start time less than `staleAfter` ago is as it was. */
  ghost predicate FreshKept(before: SharedTables, after: SharedTables, now: int, staleAfter: int) {
    forall j :: j in before.jobs && before.jobs[j].status == JobRegistry.Running
                && (before.jobs[j].lastStartedAt.None? || before.jobs[j].lastStartedAt.value >= Truncate(now - staleAfter)) ==>
      j in after.jobs && after.jobs[j] == before.jobs[j]
  }

  /** A round starts no job that it leaves running, and touches none that was. */
  lemma RunningKept(before: SharedTables, after: SharedTables, early: int, late: int)
    requires RanSome(before, after, early, late) || Idle(before, after, early)
    ensures forall j :: j in before.jobs ==>
      && j in after.jobs
      && if before.jobs[j].status == JobRegistry.Running then after.jobs[j] == before.jobs[j]
         else after.jobs[j].status != JobRegistry.Running
  {
    hide FinalizedOne;
  }

  lemma RecoveryResets(before: SharedTables, after: SharedTables, last: Option<int>, next: Option<int>, now: int, at: int,
                       done: int, staleAfter: int)
    requires MaybeRecovered(before, after, last, next, now, at, done, staleAfter)
    ensures last.None? || 2 * (now - last.value) > staleAfter ==> StaleReset(before, after, at, staleAfter)
    ensures FreshKept(before, after, at, staleAfter)
    ensures after.jobs.Keys == before.jobs.Keys
  {
  }

  lemma ResetEarlier(before: SharedTables, between: SharedTables, after: SharedTables, early: int, at: int, late: int,
                     staleAfter: int)
    requires early <= at <= late && between.jobs.Keys == before.jobs.Keys
    requires forall j :: j in between.jobs ==>
      && j in after.jobs
      && if between.jobs[j].status == JobRegistry.Running then after.jobs[j] == between.jobs[j]
         else after.jobs[j].status != JobRegistry.Running
    ensures StaleReset(before, between, at, staleAfter) ==> StaleReset(before, after, early, staleAfter)
    ensures FreshKept(before, between, at, staleAfter) ==> FreshKept(before, after, late, staleAfter)
  {
    assert Truncate(early - staleAfter) <= Truncate(at - staleAfter) <= Truncate(late - staleAfter);
  }

  /** A pass that begins more than half of `staleAfter` after the last recovery, or is the first, resets
      what was stale; no pass touches another running job. */
  lemma PassResets(before: SharedTables, after: SharedTables, last: Option<int>, next: Option<int>, early: int, late: int,
                   staleAfter: int)
    requires Passed(before, after, last, next, early, late, staleAfter)
    ensures last.None? || 2 * (early - last.value) > staleAfter ==>
      StaleReset(before, after, early, staleAfter) && next.Some? && early <= next.value <= late
    ensures FreshKept(before, after, late, staleAfter)
  {
    hide RanSome, Idle, RecoveredTo, StaleReset, FreshKept;
    var between, now, at, done :|
      && early <= now <= at <= done <= late && MaybeRecovered(before, between, last, next, now, at, done, staleAfter)
      && (RanSome(between, after, early, late) || Idle(between, after, early));
    RecoveryResets(before, between, last, next, now, at, done, staleAfter);
    RunningKept(between, after, early, late);
    ResetEarlier(before, between, after, early, at, late, staleAfter);
  }

  lemma NoPasses(state: SharedTables, time: int, staleAfter: int)
    ensures Passes([state], [time], [None], staleAfter)
  {
  }

  lemma PassesOn(states: seq<SharedTables>, times: seq<int>, recoveries: seq<Option<int>>, after: SharedTables, late: int,
                 next: Option<int>, staleAfter: int)
    requires Passes(states, times, recoveries, staleAfter)
    requires Passed(states[|states| - 1], after, recoveries[|states| - 1], next, times[|times| - 1], late, staleAfter)
    ensures Passes(states + [after], times + [late], recoveries + [next], staleAfter)
  {
    hide Passed;
  }

  lemma PassesReset(states: seq<SharedTables>, times: seq<int>, recoveries: seq<Option<int>>, staleAfter: int)
    requires Passes(states, times, recoveries, staleAfter)
    ensures forall k :: 0 <= k < |states| - 1 ==>
      && (recoveries[k].None? || 2 * (times[k] - recoveries[k].value) > staleAfter ==>
            && StaleReset(states[k], states[k + 1], times[k], staleAfter)
            && recoveries[k + 1].Some? && times[k] <= recoveries[k + 1].value <= times[k + 1])
      && FreshKept(states[k], states[k + 1], times[k + 1], staleAfter)
  {
    hide Passed, StaleReset, FreshKept;
    forall k | 0 <= k < |states| - 1 {
      PassResets(states[k], states[k + 1], recoveries[k], recoveries[k + 1], times[k], times[k + 1], staleAfter);
    }
  }

  lemma IsPassed(before: SharedTables, between: SharedTables, after: SharedTables, last: Option<int>, next: Option<int>,
                 early: int, now: int, at: int, done: int, late: int, staleAfter: int)
    requires early <= now <= at <= done <= late && MaybeRecovered(before, between, last, next, now, at, done, staleAfter)
    requires RanSome(between, after, done, late) || Idle(between, after, done)
    ensures Passed(before, after, last, next, early, late, staleAfter)
  {
    hide RecoveredTo, Ran, MaybeRecovered, JobRegistry.Claimable;
    assert RanSome(between, after, early, late) || Idle(between, after, early);
  }

  lemma RecordedIsRan(before: SharedTables, queued: JobRegistry.JobTable, claimed: SharedTables, after: SharedTables,
                      jobId: string, at: int, started: int, run: nat, status: JobRegistry.JobStatus, wait: int, finished: int)
    requires Recorded(claimed, after, jobId, run, status) && claimed.runs == before.runs
    requires queued.Keys == before.jobs.Keys && forall j :: j in before.jobs ==> queued[j] == QueuedIfDue(before.jobs[j], at)
    requires JobRegistry.Claimable(queued, jobId) && claimed.jobs == JobRegistry.ClaimedTable(queued, jobId, started)
    requires status == JobRegistry.Failed || status == JobRegistry.Completed || status == JobRegistry.Continuing
    requires at <= started <= finished && Rescheduled(claimed.jobs[jobId], after.jobs[jobId], status, wait, finished)
    ensures Ran(before, after, jobId, at, run, status)
  {
    hide FinalizedOne;
    assert Truncate(started) <= Truncate(finished);
  }

  lemma NoneQueuedNoneDue(before: JobRegistry.JobTable, after: JobRegistry.JobTable, earlier: int, now: int)
    requires after.Keys == before.Keys && earlier <= now
    requires forall j :: j in before ==> after[j] == QueuedIfDue(before[j], now) && !JobRegistry.Claimable(after, j)
    ensures after == before && forall j :: j in before ==> !JobRegistry.IsDue(before[j], earlier)
  {
  }

  lemma DoneIsDrained(row: JobRegistry.JobRow, streak: int, rows: seq<QueueLog.Row>, jobId: string)
    requires IsDone(row) && !StillWorking(row.phase, row.config, streak, NothingPending(rows, jobId)) && NoneInFlight(rows, jobId)
    ensures Drained(rows, jobId)
  {
  }

  class Worker {
    const collector: Pipeline.BaseCollector

    /** The runs of each job that was fresh when this worker began. */
    ghost var histories: Histories

    constructor (collector: Pipeline.BaseCollector)
      ensures this.collector == collector && Chronicled(histories, Shared())
      ensures forall j :: j in histories <==> j in collector.jobs.rows && collector.PhaseState(j) == PhaseHistory.FRESH_JOB
    {
      this.collector := collector;
      histories := map j | j in collector.jobs.rows && collector.PhaseState(j) == PhaseHistory.FRESH_JOB :: [];
    }

    /** What holds even while a run is being recorded. */
    ghost predicate Sound()
      reads collector.queue, collector.limiter, collector.clock, collector.candidates, collector.entities, collector.evidence,
            collector`calls, collector`backlog, collector.checkpoints, collector.runHistory
    {
      collector.Valid() && NamesOwnRuns(collector.checkpoints.rows, collector.runHistory.runs)
    }

    /** Once a run is recorded: every done job is drained. */
    ghost predicate Steady()
      reads collector.queue, collector.limiter, collector.clock, collector.candidates, collector.entities, collector.evidence,
            collector`calls, collector`backlog, collector.checkpoints, collector.runHistory, collector.jobs
    {
      Sound() && DoneDrained(collector.jobs.rows, collector.queue.rows, collector.lib.urls)
    }

    /** Between runs, every job is also where its history has led. */
    ghost predicate Valid()
      reads this`histories, collector.queue, collector.limiter, collector.clock, collector.candidates, collector.entities,
            collector.evidence, collector`calls, collector`backlog, collector.checkpoints, collector.runHistory, collector.jobs
    {
      Steady() && Chronicled(histories, Shared())
    }

    /** The shared tables as they are. */
    ghost function Shared(): SharedTables
      reads collector.jobs, collector.queue, collector.checkpoints, collector.runHistory
    {
      SharedTables(collector.jobs.rows, collector.queue.rows, collector.checkpoints.rows, collector.runHistory.runs,
                   collector.runHistory.discovery)
    }

    /** The job as its table row has it, claimed into running. */
    ghost predicate Claimed(job: Job)
      reads collector.jobs
    {
      && job.jobId in collector.jobs.rows && collector.jobs.rows[job.jobId].phase == job.phase
      && collector.jobs.rows[job.jobId].config == job.config && collector.jobs.rows[job.jobId].status == JobRegistry.Running
    }

    /** The run a failure is recorded in: the running one the checkpoint names, or a new one. */
    method RunToFail(job: Job) returns (run: nat)
      requires Sound()
      modifies collector.runHistory`runs, collector.clock
      ensures Sound() && collector.clock.now >= old(collector.clock.now)
      ensures Opened(collector.checkpoints.rows, old(collector.runHistory.runs), collector.runHistory.runs, job.jobId, run)
      ensures RunsBegun(old(collector.runHistory.runs), collector.runHistory.runs, old(collector.clock.now), collector.clock.now)
      ensures RunHistory.IsRunning(collector.runHistory.runs, run) && collector.runHistory.runs[run].jobId == job.jobId
    {
      hide Pipeline.BaseCollector.Core, Covered;
      var checkpoint := collector.checkpoints.Load(job.jobId);
      var named := checkpoint.state.currentRunId;
      if named.Some? && RunHistory.IsRunning(collector.runHistory.runs, named.value) {
        run := named.value;
      } else {
        var now := collector.Now();
        run := collector.runHistory.Start(job.jobId, now);
      }
    }

    /** Finalizes a running row and clears the checkpoint's marker. */
    method FinalizeRun(job: Job, run: nat, status: RunHistory.RunStatus, counts: map<RunHistory.Counter, int>,
                       phase: Option<Phase>, state: Checkpoints.Progress)
      requires Sound() && RunHistory.IsRunning(collector.runHistory.runs, run)
      requires collector.runHistory.runs[run].jobId == job.jobId
      requires status != RunHistory.Running
      modifies collector.runHistory`runs, collector.checkpoints, collector.clock
      ensures Sound() && collector.clock.now >= old(collector.clock.now)
      ensures FinalizedOne(old(collector.runHistory.runs), collector.runHistory.runs, job.jobId, run, status)
      ensures |collector.runHistory.runs| == |old(collector.runHistory.runs)|
      ensures Timed(old(collector.runHistory.runs), collector.runHistory.runs, run, old(collector.clock.now), collector.clock.now)
      ensures collector.runHistory.runs[run].counts == old(collector.runHistory.runs)[run].counts + counts
      ensures collector.checkpoints.rows
        == old(collector.checkpoints.rows)[job.jobId := Checkpoints.Checkpoint(None, phase, state.(currentRunId := None))]
    {
      hide Pipeline.BaseCollector.Core, Covered, FinalizedOne, Timed;
      ghost var before := collector.runHistory.runs;
      var now := collector.Now();
      FinishFinalizesOne(before, run, status, counts, now);
      var finalized := collector.runHistory.Finish(run, status, counts, now);
      JustFinished(before, collector.runHistory.runs, run, status, counts, old(collector.clock.now), now, collector.clock.now);
      collector.checkpoints.Save(job.jobId, None, phase, state.(currentRunId := None));
    }

    /** After an exception: finalizes the run as failed, one of its own if none was opened. */
    method RecordFailure(job: Job) returns (run: nat)
      requires Sound() && job.jobId in collector.jobs.rows
      modifies collector.runHistory`runs, collector.checkpoints, collector.jobs, collector.clock
      ensures Sound() && collector.clock.now >= old(collector.clock.now)
      ensures FinalizedOne(old(collector.runHistory.runs), collector.runHistory.runs, job.jobId, run, RunHistory.Failed)
      ensures Resumable(old(collector.checkpoints.rows), old(collector.runHistory.runs), job.jobId)
        == if run < |old(collector.runHistory.runs)| then Some(run) else None
      ensures OwnCheckpoint(old(collector.checkpoints.rows), collector.checkpoints.rows, job.jobId)
      ensures var before := Checkpoints.Loaded(old(collector.checkpoints.rows), job.jobId);
              Checkpoints.Loaded(collector.checkpoints.rows, job.jobId) == Checkpoints.Checkpoint(
                None, if before.phase.Some? then before.phase else Some(job.phase), before.state.(currentRunId := None))
      ensures job.jobId in collector.jobs.rows && collector.PhaseState(job.jobId) == old(collector.PhaseState(job.jobId))
      ensures OneError(old(collector.runHistory.runs), collector.runHistory.runs, run)
      ensures Timed(old(collector.runHistory.runs), collector.runHistory.runs, run, old(collector.clock.now), collector.clock.now)
      ensures Rescheduled(old(collector.jobs.rows)[job.jobId], collector.jobs.rows[job.jobId], JobRegistry.Failed,
                          old(collector.jobs.rows)[job.jobId].config.interval, collector.clock.now)
      ensures collector.jobs.rows
        == JobRegistry.FinishedTable(old(collector.jobs.rows), job.jobId, JobRegistry.Failed, None, collector.clock.now)
    {
      hide Pipeline.BaseCollector.Core, Covered, Rescheduled, OneError, OwnCheckpoint, NamesOwnRuns, FinalizedOne, Opened;
      hide Timed, RunsBegun;
      var checkpoint := collector.checkpoints.Load(job.jobId);
      run := RunToFail(job);
      var phase := if checkpoint.phase.Some? then checkpoint.phase else Some(job.phase);
      ghost var during, begun := collector.runHistory.runs, collector.clock.now;
      FinalizeRun(job, run, RunHistory.Failed, map[RunHistory.ErrorCount := 1], phase, checkpoint.state);
      CountsOneError(during, collector.runHistory.runs, run);
      OneErrorSince(old(collector.checkpoints.rows), old(collector.runHistory.runs), during, collector.runHistory.runs,
                    job.jobId, run);
      OpenedThenFinalized(old(collector.checkpoints.rows), old(collector.runHistory.runs), during, collector.runHistory.runs,
                          job.jobId, run, RunHistory.Failed);
      OwnCheckpointSaved(old(collector.checkpoints.rows), collector.checkpoints.rows, job.jobId);
      ghost var ended := collector.clock.now;
      TimedSince(old(collector.runHistory.runs), during, collector.runHistory.runs, run, old(collector.clock.now), begun, ended);
      Release(job, JobRegistry.Failed, None);
      TimedLater(old(collector.runHistory.runs), collector.runHistory.runs, run, old(collector.clock.now), ended,
                 collector.clock.now);
    }

    /** Whether there is more to do, read before anything is recorded. */
    method HasMoreWork(job: Job, state: Checkpoints.Progress) returns (more: bool)
      requires job.jobId in collector.jobs.rows
      ensures more <==> StillWorking(
        collector.jobs.rows[job.jobId].phase, collector.jobs.rows[job.jobId].config, state.lowDiscoveryStreak,
        NothingPending(collector.queue.rows, job.jobId))
    {
      var jobAfter := collector.jobs.rows[job.jobId];
      var needsMoreRuns :=
        (jobAfter.phase == Discovery || jobAfter.phase == Collect || jobAfter.phase == Validation)
        && jobAfter.config.requiredStreak != 0 && state.lowDiscoveryStreak < jobAfter.config.requiredStreak;
      var queueEmpty := collector.queue.IsEmpty(job.jobId);
      var queueHasWork := jobAfter.phase != Incremental && !queueEmpty;
      return queueHasWork || needsMoreRuns;
    }

    /** Finalizes a row as completed, with the run's counters. */
    method StoreCounts(job: Job, run: nat, outcome: RunOutcome, phase: Phase, state: Checkpoints.Progress)
      requires Sound() && RunHistory.IsRunning(collector.runHistory.runs, run)
      requires collector.runHistory.runs[run].jobId == job.jobId
      modifies collector.runHistory`runs, collector.checkpoints, collector.clock
      ensures Sound() && collector.clock.now >= old(collector.clock.now)
      ensures FinalizedOne(old(collector.runHistory.runs), collector.runHistory.runs, job.jobId, run, RunHistory.Completed)
      ensures |collector.runHistory.runs| == |old(collector.runHistory.runs)|
      ensures Timed(old(collector.runHistory.runs), collector.runHistory.runs, run, old(collector.clock.now), collector.clock.now)
      ensures collector.runHistory.runs[run].counts == CountsOf(outcome)
      ensures collector.checkpoints.rows
        == old(collector.checkpoints.rows)[job.jobId := Checkpoints.Checkpoint(None, Some(phase), state.(currentRunId := None))]
    {
      hide Pipeline.BaseCollector.Core, Covered, FinalizedOne, Timed, NamesOwnRuns;
      var counts := map[
        RunHistory.FetchedCount := outcome.fetched, RunHistory.InsertedCount := outcome.inserted,
        RunHistory.UpdatedCount := outcome.updated, RunHistory.DuplicateCount := outcome.duplicates,
        RunHistory.ReviewCount := outcome.reviewed, RunHistory.ErrorCount := outcome.errors,
        RunHistory.DiscoveredCount := outcome.discovered];
      FinalizeRun(job, run, RunHistory.Completed, counts, Some(phase), state);
      CountsCover(old(collector.runHistory.runs)[run].counts, outcome);
    }

    /** After a run: finalizes its row with the counters, and decides whether there is more to do. */
    method RecordSuccess(job: Job, outcome: RunOutcome, pollInterval: int, ghost run: nat) returns (status: JobRegistry.JobStatus)
      requires Sound() && job.jobId in collector.jobs.rows
      requires Names(collector.checkpoints.rows, collector.runHistory.runs, job.jobId, run)
      modifies collector.runHistory`runs, collector.checkpoints, collector.jobs, collector.clock
      ensures Sound() && collector.clock.now >= old(collector.clock.now)
      ensures FinalizedOne(old(collector.runHistory.runs), collector.runHistory.runs, job.jobId, run, RunHistory.Completed)
      ensures |collector.runHistory.runs| == |old(collector.runHistory.runs)|
      ensures collector.runHistory.runs[run].counts == CountsOf(outcome)
      ensures OwnCheckpoint(old(collector.checkpoints.rows), collector.checkpoints.rows, job.jobId)
      ensures Checkpoints.Loaded(collector.checkpoints.rows, job.jobId) == Checkpoints.Checkpoint(
        None, Some(old(collector.jobs.rows)[job.jobId].phase),
        Checkpoints.Loaded(old(collector.checkpoints.rows), job.jobId).state.(currentRunId := None))
      ensures job.jobId in collector.jobs.rows && collector.PhaseState(job.jobId) == old(collector.PhaseState(job.jobId))
      ensures Timed(old(collector.runHistory.runs), collector.runHistory.runs, run, old(collector.clock.now), collector.clock.now)
      ensures var row := old(collector.jobs.rows)[job.jobId];
              Rescheduled(row, collector.jobs.rows[job.jobId], status,
                          if status == JobRegistry.Continuing then pollInterval else row.config.interval, collector.clock.now)
      ensures var row := old(collector.jobs.rows)[job.jobId];
              var streak := Checkpoints.Loaded(old(collector.checkpoints.rows), job.jobId).state.lowDiscoveryStreak;
              status == if StillWorking(row.phase, row.config, streak, NothingPending(collector.queue.rows, job.jobId))
                        then JobRegistry.Continuing else JobRegistry.Completed
      ensures collector.jobs.rows == JobRegistry.FinishedTable(
        old(collector.jobs.rows), job.jobId, status,
        if status == JobRegistry.Completed then None else Some(Truncate(collector.clock.now + pollInterval)), collector.clock.now)
    {
      hide Pipeline.BaseCollector.Core, Covered, FinalizedOne, RunHistory.YieldsOf, NamesOwnRuns, StillWorking, Rescheduled;
      hide OwnCheckpoint, Timed, CountsOf;
      var phase := collector.jobs.rows[job.jobId].phase;
      var checkpoint := collector.checkpoints.Load(job.jobId);
      var state := checkpoint.state;
      var more := HasMoreWork(job, state);
      StoreCounts(job, state.currentRunId.value, outcome, phase, state);
      status := if more then JobRegistry.Continuing else JobRegistry.Completed;
      ghost var ended := collector.clock.now;
      Release(job, status, if more then Some(pollInterval) else None);
      TimedLater(old(collector.runHistory.runs), collector.runHistory.runs, run, old(collector.clock.now), ended,
                 collector.clock.now);
      OwnCheckpointSaved(old(collector.checkpoints.rows), collector.checkpoints.rows, job.jobId);
    }

    /** Writes the job's final status; it runs again after the delay, or as its schedule says. */
    method Release(job: Job, status: JobRegistry.JobStatus, delay: Option<int>)
      requires Sound()
      modifies collector.jobs, collector.clock
      ensures Sound() && collector.clock.now >= old(collector.clock.now)
      ensures collector.jobs.rows == JobRegistry.FinishedTable(
        old(collector.jobs.rows), job.jobId, status,
        if delay.Some? then Some(Truncate(collector.clock.now + delay.value)) else None, collector.clock.now)
      ensures job.jobId in old(collector.jobs.rows) && status != JobRegistry.Paused ==>
        Rescheduled(old(collector.jobs.rows)[job.jobId], collector.jobs.rows[job.jobId], status,
                    if delay.Some? then delay.value else old(collector.jobs.rows)[job.jobId].config.interval,
                    collector.clock.now)
    {
      hide Pipeline.BaseCollector.Core, Covered, Rescheduled;
      var now := collector.Now();
      if job.jobId in collector.jobs.rows && status != JobRegistry.Paused {
        FinishedIsRescheduled(collector.jobs.rows, job.jobId, status, delay, now);
      }
      collector.jobs.Finish(job.jobId, status, if delay.Some? then Some(Truncate(now + delay.value)) else None, now);
    }

    /** What holds between a run and the recording of its outcome: the other jobs are as they were. */
    ghost predicate Underway(start: SharedTables, job: Job)
      reads collector.queue, collector.jobs, collector.checkpoints
    {
      && DoneDrained(start.jobs, start.queue, collector.lib.urls) && OwnRows(start.queue, collector.queue.rows, job.jobId)
      && OwnCheckpoint(start.checkpoints, collector.checkpoints.rows, job.jobId)
      && job.jobId in start.jobs && job.jobId in collector.jobs.rows
      && collector.jobs.rows == start.jobs[job.jobId := collector.jobs.rows[job.jobId]]
    }

    /** A run that ends completed outside the incremental phase leaves nothing queued. */
    method Conclude(job: Job, outcome: RunOutcome, pollInterval: int, ghost run: nat, ghost start: SharedTables)
      returns (status: JobRegistry.JobStatus)
      requires Sound() && Underway(start, job) && collector.jobs.rows[job.jobId].config == job.config
      requires Names(collector.checkpoints.rows, collector.runHistory.runs, job.jobId, run)
      requires Opened(start.checkpoints, start.runs, collector.runHistory.runs, job.jobId, run)
      requires NoneInFlight(collector.queue.rows, job.jobId) && SeedsTracked(collector.queue.rows, job, collector.lib.urls)
      modifies collector.runHistory`runs, collector.checkpoints, collector.jobs, collector.clock
      ensures Steady() && collector.clock.now >= old(collector.clock.now)
      ensures Recorded(start, Shared(), job.jobId, run, status)
      ensures status == JobRegistry.Completed || status == JobRegistry.Continuing
      ensures run < |collector.runHistory.runs| && collector.runHistory.runs[run].counts == CountsOf(outcome)
      ensures Timed(old(collector.runHistory.runs), collector.runHistory.runs, run, old(collector.clock.now), collector.clock.now)
      ensures job.jobId in collector.jobs.rows
        && Rescheduled(old(collector.jobs.rows)[job.jobId], collector.jobs.rows[job.jobId], status,
                       if status == JobRegistry.Continuing then pollInterval else job.config.interval, collector.clock.now)
      ensures job.jobId in collector.jobs.rows && StateIn(Shared(), job.jobId) == old(StateIn(Shared(), job.jobId))
      ensures status == JobRegistry.Completed <==> !StillWorking(
        StateIn(Shared(), job.jobId).phase, job.config, StateIn(Shared(), job.jobId).streak,
        NothingPending(collector.queue.rows, job.jobId))
      ensures status == JobRegistry.Completed && StateIn(Shared(), job.jobId).phase != Incremental ==>
        Resolved(collector.queue.rows, collector.candidates.rows, job.jobId, job.config.seedUrls, collector.lib.urls,
                 collector.backlog)
    {
      hide Pipeline.BaseCollector.Core, Covered, FinalizedOne, AllTracked, RunHistory.YieldsOf, NoneInFlight, NothingPending;
      hide Opened, DoneDrained, OwnRows, OwnCheckpoint, Resolved, CountsOf, StillWorking, NamesOwnRuns, Resumable, Timed;
      ghost var during, named := collector.runHistory.runs, collector.checkpoints.rows;
      status := RecordSuccess(job, outcome, pollInterval, run);
      OwnCheckpointOn(start.checkpoints, named, collector.checkpoints.rows, job.jobId);
      OpenedThenFinalized(start.checkpoints, start.runs, during, collector.runHistory.runs, job.jobId, run, RunHistory.Completed);
      if IsDone(collector.jobs.rows[job.jobId]) {
        DoneIsDrained(collector.jobs.rows[job.jobId], StateIn(Shared(), job.jobId).streak, collector.queue.rows, job.jobId);
        DrainedIsResolved(collector.queue.rows, collector.candidates.rows, job.jobId, job.config.seedUrls, collector.lib.urls,
                          collector.backlog);
      }
      DoneKept(start.jobs, collector.jobs.rows, start.queue, collector.queue.rows, job.jobId, collector.lib.urls);
    }

    /** A raised run is recorded as failed, in its own row or, if it opened none, in a new or resumed one. */
    method ConcludeFailed(job: Job, ghost ownRun: Option<nat>, ghost start: SharedTables) returns (ghost run: nat)
      requires Sound() && Underway(start, job) && collector.jobs.rows[job.jobId].config == job.config
      requires match ownRun
               case Some(id) => Names(collector.checkpoints.rows, collector.runHistory.runs, job.jobId, id)
                 && Opened(start.checkpoints, start.runs, collector.runHistory.runs, job.jobId, id)
               case None => collector.runHistory.runs == start.runs && collector.checkpoints.rows == start.checkpoints
      modifies collector.runHistory`runs, collector.checkpoints, collector.jobs, collector.clock
      ensures Steady() && collector.clock.now >= old(collector.clock.now)
      ensures Recorded(start, Shared(), job.jobId, run, JobRegistry.Failed)
      ensures OneError(start.runs, collector.runHistory.runs, run)
      ensures Timed(old(collector.runHistory.runs), collector.runHistory.runs, run, old(collector.clock.now), collector.clock.now)
      ensures job.jobId in collector.jobs.rows
        && Rescheduled(old(collector.jobs.rows)[job.jobId], collector.jobs.rows[job.jobId], JobRegistry.Failed,
                       job.config.interval, collector.clock.now)
      ensures job.jobId in collector.jobs.rows && StateIn(Shared(), job.jobId) == old(StateIn(Shared(), job.jobId))
    {
      hide Pipeline.BaseCollector.Core, Covered, FinalizedOne, AllTracked, Opened, DoneDrained, OwnRows, Drained, Names;
      hide Resumable, NamesOwnRuns, OwnCheckpoint, OneError, Timed, Rescheduled;
      ghost var during, naming := collector.runHistory.runs, collector.checkpoints.rows;
      run := RecordFailure(job);
      OwnCheckpointOn(start.checkpoints, naming, collector.checkpoints.rows, job.jobId);
      if ownRun.Some? {
        NamedIsResumable(naming, during, job.jobId, ownRun.value);
        FinalizedOneSize(during, collector.runHistory.runs, job.jobId, run, RunHistory.Failed);
        OpenedThenFinalized(start.checkpoints, start.runs, during, collector.runHistory.runs, job.jobId, run, RunHistory.Failed);
        OneErrorSince(start.checkpoints, start.runs, during, collector.runHistory.runs, job.jobId, run);
      }
      DoneKept(start.jobs, collector.jobs.rows, start.queue, collector.queue.rows, job.jobId, collector.lib.urls);
    }

    /** The books of a run that did not raise: every request is accounted for, within the budgets, and
        the drain stopped for a reason. */
    ghost predicate Accounted(job: Job, opening: Books, early: int, before: seq<QueueLog.Row>, trace: Trace, outcome: RunOutcome)
      reads outcome, collector.entities, collector.review, collector.candidates, collector.queue, collector.limiter,
            collector`calls
    {
      && Conserved(opening.Seeded(trace.boot).Requeued(trace.requeued), collector.Snapshot(outcome, job.jobId), 0)
      && NoneInFlight(collector.queue.rows, job.jobId)
      && collector.WithinBudget(job, trace.drain, |collector.limiter.requests| - opening.requests, early, before, outcome)
      && collector.DrainedOut(job, trace.drain, early, outcome)
    }

    /** So the counters tell what the tables show. */
    lemma AccountedTells(job: Job, opening: Books, early: int, before: seq<QueueLog.Row>, trace: Trace, outcome: RunOutcome)
      requires Accounted(job, opening, early, before, trace, outcome) && opening.fetched == opening.errors == 0
      requires opening.inserted == opening.updated == opening.duplicates == opening.reviewed == opening.discovered == 0
      ensures Told(CountsOf(outcome), opening, collector.Opening(job.jobId), trace.boot)
    {
      hide Pipeline.BaseCollector.WithinBudget, Pipeline.BaseCollector.DrainedOut, Candidates.CountOf, TallyOf, Merges;
      forall c: RunHistory.Counter ensures c in CountsOf(outcome) {
        RunHistory.EveryCounter(c);
      }
      ConservedTells(opening, trace, collector.Snapshot(outcome, job.jobId));
    }

    /** The phase step is about the numbers that the tables show, with the run rows as they were. */
    ghost predicate Decided(job: Job, runs: seq<RunHistory.RunRow>, trace: Trace, outcome: RunOutcome)
      reads outcome, collector.entities, collector.review, collector.candidates, collector.queue
    {
      && trace.yielded.total == Candidates.CountOf(collector.candidates.rows, job.jobId)
      && trace.yielded.created == outcome.discovered
      && trace.around == CircumstancesOf(job, collector.queue.rows, collector.entities.rows, collector.review.rows, runs)
    }

    /** How a run that got as far as its drain began: its sweeps' URLs are candidates, and its queue was prepared
        at some time within the call. */
    ghost predicate Begun(job: Job, trace: Trace, checkpoints: map<string, Checkpoints.Checkpoint>, seen: seq<Observation>,
                          candidates: seq<Candidates.Candidate>, rows: seq<QueueLog.Row>, log: seq<QueueLog.Op>, early: int)
      reads collector.world, collector.candidates, collector.queue, collector.clock
    {
      && SweptAll(job, Checkpoints.Loaded(checkpoints, job.jobId).state.seeded, trace.boot, seen, collector.world.seen,
                  candidates, collector.candidates.rows, collector.lib.urls)
      && PreparedAt(job, trace, rows, log, collector.queue.log)
      && early <= trace.asOf <= collector.clock.now
    }

    /** One run of the collector, as the recording needs to know it. */
    method RunCollector(job: Job) returns (raised: bool, outcome: RunOutcome, ghost trace: Trace)
      requires Valid() && Claimed(job)
      modifies collector`backlog, collector`calls, collector.jobs, collector.limiter, collector.queue, collector.candidates,
        collector.entities, collector.evidence, collector.review, collector.world, collector.runHistory, collector.checkpoints,
        collector.clock
      ensures Sound() && collector.clock.now >= old(collector.clock.now)
      ensures Underway(old(Shared()), job)
      ensures job.jobId in collector.jobs.rows && collector.jobs.rows[job.jobId].config == job.config
      ensures collector.jobs.rows[job.jobId]
        == old(collector.jobs.rows)[job.jobId].(phase := collector.jobs.rows[job.jobId].phase)
      ensures RunsBegun(old(collector.runHistory.runs), collector.runHistory.runs, old(collector.clock.now), collector.clock.now)
      ensures match trace.runId
              case Some(id) => Names(collector.checkpoints.rows, collector.runHistory.runs, job.jobId, id)
                && Opened(old(Shared()).checkpoints, old(Shared()).runs, collector.runHistory.runs, job.jobId, id)
              case None => raised && Shared().runs == old(Shared()).runs && Shared().checkpoints == old(Shared()).checkpoints
      ensures StateIn(Shared(), job.jobId)
        == PhaseHistory.After(old(StateIn(Shared(), job.jobId)), Taken(job, raised, trace)).(saved := [])
      ensures !raised ==>
        && Accounted(job, old(collector.Opening(job.jobId)), old(collector.clock.now), old(collector.queue.rows), trace, outcome)
        && Decided(job, collector.runHistory.runs, trace, outcome)
        && Told(CountsOf(outcome), old(collector.Opening(job.jobId)), collector.Opening(job.jobId), trace.boot)
        && trace.drain.stopped <= collector.clock.now
        && NoneInFlight(collector.queue.rows, job.jobId) && SeedsTracked(collector.queue.rows, job, collector.lib.urls)
      ensures OwnRows(old(collector.queue.rows), collector.queue.rows, job.jobId)
      ensures OwnYields(old(collector.runHistory.discovery), collector.runHistory.discovery, job.jobId)
      ensures !job.config.adapterKnown ==> raised
      ensures job.config.adapterKnown ==> (raised <==> !NoneInFlight(collector.queue.rows, job.jobId))
      ensures Flowed(old(collector.Opening(job.jobId)), collector.Opening(job.jobId),
                     if raised && job.config.adapterKnown then 1 else 0)
      ensures TallyOf(collector.queue.log).requeues == TallyOf(old(collector.queue.log)).requeues + trace.requeued
      ensures trace.requeued > 0 ==> job.phase == Incremental || !old(NoneInFlight(collector.queue.rows, job.jobId))
      ensures collector.backlog - {job.jobId} == old(collector.backlog) - {job.jobId}
      ensures trace.lagging <==> job.jobId in collector.backlog
      ensures trace.lagging ==> Candidates.CountOf(collector.candidates.rows, job.jobId) > PROMOTION_LIMIT
      ensures job.config.adapterKnown ==> Begun(job, trace, old(collector.checkpoints.rows), old(collector.world.seen),
        old(collector.candidates.rows), old(collector.queue.rows), old(collector.queue.log), old(collector.clock.now))
    {
      hide Pipeline.BaseCollector.Core, Covered, Opened, Names, Resumable, Conserved, OwnRows, NamesOwnRuns;
      hide SweptAll, PreparedAt, RunsBegun, Told, CountsOf, Merges;
      hide Flowed, OwnYields, AllTracked, DoneDrained, NoneInFlight, PhaseHistory.After, TallyOf, Candidates.CountOf;
      hide SeedsTracked, Pipeline.BaseCollector.DrainedOut, CircumstancesOf, StateOf;
      hide Pipeline.BaseCollector.WithinBudget, OwnCheckpoint;
      raised, outcome, trace := collector.RunOnce(job);
      ConservedFlows(old(collector.Opening(job.jobId)), trace, collector.Snapshot(outcome, job.jobId),
                     collector.Opening(job.jobId), if raised && job.config.adapterKnown then 1 else 0);
      if !raised {
        AccountedTells(job, old(collector.Opening(job.jobId)), old(collector.clock.now), old(collector.queue.rows), trace,
                       outcome);
      }
      if trace.lagging {
        collector.LaggingIsLarge(job.jobId);
      }
    }

    /** Records the run in its row, as completed or as failed, and in its job's history. */
    method Record(job: Job, raised: bool, outcome: RunOutcome, pollInterval: int, ghost trace: Trace, ghost start: SharedTables,
                  ghost early: int)
      returns (status: JobRegistry.JobStatus, ghost run: nat)
      requires Sound() && Underway(start, job) && collector.jobs.rows[job.jobId].config == job.config
      requires job.jobId in start.jobs && job.jobId in collector.jobs.rows
      requires collector.jobs.rows[job.jobId] == start.jobs[job.jobId].(phase := collector.jobs.rows[job.jobId].phase)
      requires early <= collector.clock.now && RunsBegun(start.runs, collector.runHistory.runs, early, collector.clock.now)
      requires Chronicled(histories, start) && OwnYields(start.discovery, Shared().discovery, job.jobId)
      requires StateIn(Shared(), job.jobId)
        == PhaseHistory.After(StateIn(start, job.jobId), Taken(job, raised, trace)).(saved := [])
      requires match trace.runId
               case Some(id) => Names(collector.checkpoints.rows, collector.runHistory.runs, job.jobId, id)
                 && Opened(start.checkpoints, start.runs, collector.runHistory.runs, job.jobId, id)
               case None => raised && collector.runHistory.runs == start.runs && collector.checkpoints.rows == start.checkpoints
      requires !raised ==>
        NoneInFlight(collector.queue.rows, job.jobId) && SeedsTracked(collector.queue.rows, job, collector.lib.urls)
      modifies this`histories, collector.runHistory`runs, collector.checkpoints, collector.jobs, collector.clock
      ensures Valid() && collector.clock.now >= old(collector.clock.now)
      ensures raised <==> status == JobRegistry.Failed
      ensures status == JobRegistry.Failed || status == JobRegistry.Completed || status == JobRegistry.Continuing
      ensures Recorded(start, Shared(), job.jobId, run, status)
      ensures !raised ==>
        && trace.runId == Some(run) && run < |collector.runHistory.runs|
        && collector.runHistory.runs[run].counts == CountsOf(outcome)
      ensures raised ==> OneError(start.runs, collector.runHistory.runs, run)
      ensures Timed(start.runs, collector.runHistory.runs, run, early, collector.clock.now)
      ensures job.jobId in collector.jobs.rows
        && Rescheduled(start.jobs[job.jobId], collector.jobs.rows[job.jobId], status,
                       if status == JobRegistry.Continuing then pollInterval else job.config.interval, collector.clock.now)
      ensures job.jobId in collector.jobs.rows && StateIn(Shared(), job.jobId) == old(StateIn(Shared(), job.jobId))
      ensures histories == Extended(old(histories), job.jobId, Taken(job, raised, trace))
      ensures !raised ==> (status == JobRegistry.Completed <==> !StillWorking(
        StateIn(Shared(), job.jobId).phase, job.config, StateIn(Shared(), job.jobId).streak,
        NothingPending(collector.queue.rows, job.jobId)))
      ensures status == JobRegistry.Completed && StateIn(Shared(), job.jobId).phase != Incremental ==>
        Resolved(collector.queue.rows, collector.candidates.rows, job.jobId, job.config.seedUrls, collector.lib.urls,
                 collector.backlog)
    {
      hide Pipeline.BaseCollector.Core, Covered, Opened, Recorded, Names, OwnRows, NamesOwnRuns, Underway, OwnYields;
      hide AllTracked, Resolved, DoneDrained, NoneInFlight, NothingPending, StillWorking, CountsOf, SeedsTracked;
      hide PhaseHistory.After, Chronicled, StateOf, Extended, OneError, Rescheduled, Timed, RunsBegun;
      ghost var during, middle, row := collector.runHistory.runs, collector.clock.now, collector.jobs.rows[job.jobId];
      if raised {
        run := ConcludeFailed(job, trace.runId, start);
        status := JobRegistry.Failed;
      } else {
        run := trace.runId.value;
        status := Conclude(job, outcome, pollInterval, run, start);
      }
      TimedSince(start.runs, during, collector.runHistory.runs, run, early, middle, collector.clock.now);
      RescheduledSince(start.jobs[job.jobId], row, collector.jobs.rows[job.jobId], status,
                       if status == JobRegistry.Continuing then pollInterval else job.config.interval, collector.clock.now);
      ChronicleExtended(histories, start, Shared(), job.jobId, run, status, Taken(job, raised, trace));
      histories := Extended(histories, job.jobId, Taken(job, raised, trace));
    }

    /** Runs a claimed job once and records the outcome, whatever happens: one run row is finalized,
        the checkpoint no longer names a run, the lock is released, and a job that ends completed
        outside the incremental phase has settled every seed and every candidate. */
    method RunJobAndRecord(job: Job, pollInterval: int)
      returns (outcome: Option<RunOutcome>, status: JobRegistry.JobStatus, ghost run: nat, ghost trace: Trace)
      requires Valid() && Claimed(job)
      modifies this`histories, collector`backlog, collector`calls, collector.jobs, collector.limiter, collector.queue,
        collector.candidates, collector.entities, collector.evidence, collector.review, collector.world, collector.runHistory,
        collector.checkpoints, collector.clock
      ensures Valid() && collector.clock.now >= old(collector.clock.now)
      ensures outcome.None? <==> status == JobRegistry.Failed
      ensures Recorded(old(Shared()), Shared(), job.jobId, run, status) && job.jobId in collector.jobs.rows
      ensures status == JobRegistry.Failed || (status == JobRegistry.Continuing <==> StillWorking(
        StateIn(Shared(), job.jobId).phase, job.config, StateIn(Shared(), job.jobId).streak,
        NothingPending(collector.queue.rows, job.jobId)))
      ensures status == JobRegistry.Failed || status == JobRegistry.Completed || status == JobRegistry.Continuing
      ensures StateIn(Shared(), job.jobId)
        == PhaseHistory.After(old(StateIn(Shared(), job.jobId)), Taken(job, status == JobRegistry.Failed, trace)).(saved := [])
      ensures outcome.Some? ==>
        run < |collector.runHistory.runs| && collector.runHistory.runs[run].counts == CountsOf(outcome.value)
      ensures outcome.Some? ==>
        Told(collector.runHistory.runs[run].counts, old(collector.Opening(job.jobId)), collector.Opening(job.jobId), trace.boot)
      ensures outcome.None? ==> OneError(old(collector.runHistory.runs), collector.runHistory.runs, run)
      ensures Timed(old(collector.runHistory.runs), collector.runHistory.runs, run, old(collector.clock.now), collector.clock.now)
      ensures Rescheduled(old(collector.jobs.rows)[job.jobId], collector.jobs.rows[job.jobId], status,
                          if status == JobRegistry.Continuing then pollInterval else job.config.interval, collector.clock.now)
      ensures job.config.adapterKnown ==> Begun(job, trace, old(collector.checkpoints.rows), old(collector.world.seen),
        old(collector.candidates.rows), old(collector.queue.rows), old(collector.queue.log), old(collector.clock.now))
      ensures outcome.Some? ==>
        Accounted(job, old(collector.Opening(job.jobId)), old(collector.clock.now), old(collector.queue.rows), trace,
                  outcome.value)
      ensures outcome.Some? ==> exists during ::
        && Opened(old(collector.checkpoints.rows), old(collector.runHistory.runs), during, job.jobId, run)
        && Decided(job, during, trace, outcome.value)
      ensures outcome.Some? ==> trace.drain.stopped <= collector.clock.now
      ensures !job.config.adapterKnown ==> status == JobRegistry.Failed
      ensures job.config.adapterKnown ==>
        (status == JobRegistry.Failed <==> !NoneInFlight(collector.queue.rows, job.jobId))
      ensures Flowed(old(collector.Opening(job.jobId)), collector.Opening(job.jobId),
                     if status == JobRegistry.Failed && job.config.adapterKnown then 1 else 0)
      ensures histories == Extended(old(histories), job.jobId, Taken(job, status == JobRegistry.Failed, trace))
      ensures OwnRows(old(collector.queue.rows), collector.queue.rows, job.jobId)
      ensures TallyOf(collector.queue.log).requeues == TallyOf(old(collector.queue.log)).requeues + trace.requeued
      ensures trace.requeued > 0 ==> job.phase == Incremental || !old(NoneInFlight(collector.queue.rows, job.jobId))
      ensures collector.backlog - {job.jobId} == old(collector.backlog) - {job.jobId}
      ensures trace.lagging <==> job.jobId in collector.backlog
      ensures trace.lagging ==> Candidates.CountOf(collector.candidates.rows, job.jobId) > PROMOTION_LIMIT
      ensures status == JobRegistry.Completed && StateIn(Shared(), job.jobId).phase != Incremental ==>
        Resolved(collector.queue.rows, collector.candidates.rows, job.jobId, job.config.seedUrls, collector.lib.urls,
                 collector.backlog)
    {
      hide Pipeline.BaseCollector.Core, Covered, Opened, Recorded, Names, Resumable, OwnRows, NamesOwnRuns, Underway;
      hide AllTracked, Resolved, DoneDrained, Drained, NoneInFlight, NothingPending, StillWorking, SeedsTracked;
      hide PhaseHistory.After, CountsOf, TallyOf, Candidates.CountOf, StateOf, Accounted, Decided, Flowed, OwnYields;
      hide Chronicled, SweptAll, PreparedAt, OneError, Told, Rescheduled, Merges, Timed, RunsBegun;
      var raised, ran;
      ghost var start := Shared();
      raised, ran, trace := RunCollector(job);
      ghost var during := collector.runHistory.runs;
      status, run := Record(job, raised, ran, pollInterval, trace, start, old(collector.clock.now));
      outcome := if raised then None else Some(ran);
      assert raised || Decided(job, during, trace, ran);
    }

    // -----------------------------------------------------------------
    // The worker's loop
    // -----------------------------------------------------------------

    /** Puts jobs whose worker looks dead back to retry. */
    method RecoverStaleJobs(staleAfter: int) returns (count: nat)
      requires Valid()
      modifies collector.jobs, collector.clock
      ensures Valid() && collector.clock.now >= old(collector.clock.now)
      ensures collector.jobs.rows.Keys == old(collector.jobs.rows.Keys)
      ensures PhasesRise(old(collector.jobs.rows), collector.jobs.rows)
      ensures var cutoff := Truncate(collector.clock.now - staleAfter);
              forall j :: j in collector.jobs.rows ==>
                collector.jobs.rows[j] == ResetIfStale(old(collector.jobs.rows)[j], cutoff)
    {
      hide Pipeline.BaseCollector.Core, Covered, NamesOwnRuns, DoneDrained, Chronicled;
      var now := collector.Now();
      ghost var start := Shared();
      count := ResetStale(Truncate(now - staleAfter));
      StatusesKeepDone(start.jobs, collector.jobs.rows, collector.queue.rows, collector.lib.urls);
      ChronicleKept(histories, start, Shared());
    }

    method ResetStale(cutoff: int) returns (count: nat)
      modifies collector.jobs
      ensures collector.jobs.rows.Keys == old(collector.jobs.rows.Keys)
      ensures forall j :: j in collector.jobs.rows ==>
        collector.jobs.rows[j] == ResetIfStale(old(collector.jobs.rows)[j], cutoff)
    {
      ghost var start := collector.jobs.rows;
      var stale := set j | j in collector.jobs.rows && collector.jobs.rows[j].status == JobRegistry.Running
        && collector.jobs.rows[j].lastStartedAt.Some? && collector.jobs.rows[j].lastStartedAt.value < cutoff;
      count := |stale|;
      while stale != {}
        invariant collector.jobs.rows.Keys == start.Keys
        invariant forall j :: j in stale ==> j in start && JobRegistry.LooksStale(start[j], cutoff)
        invariant forall j :: j in start ==>
          collector.jobs.rows[j] == if j in stale then start[j] else ResetIfStale(start[j], cutoff)
        decreases stale
      {
        var j :| j in stale;
        collector.jobs.ResetStaleRunning(j);
        stale := stale - {j};
      }
    }

    /** Queues every due job. */
    method QueueDueJobs()
      requires Valid()
      modifies collector.jobs, collector.clock
      ensures Valid() && collector.clock.now >= old(collector.clock.now)
      ensures collector.jobs.rows.Keys == old(collector.jobs.rows.Keys)
      ensures forall j :: j in collector.jobs.rows ==>
        collector.jobs.rows[j] == QueuedIfDue(old(collector.jobs.rows)[j], collector.clock.now)
    {
      hide Pipeline.BaseCollector.Core, Covered, NamesOwnRuns, DoneDrained, Chronicled;
      var now := collector.Now();
      ghost var start := Shared();
      QueueDue(now);
      StatusesKeepDone(start.jobs, collector.jobs.rows, collector.queue.rows, collector.lib.urls);
      ChronicleKept(histories, start, Shared());
    }

    method QueueDue(now: int)
      modifies collector.jobs
      ensures collector.jobs.rows.Keys == old(collector.jobs.rows.Keys)
      ensures forall j :: j in collector.jobs.rows ==>
        collector.jobs.rows[j] == QueuedIfDue(old(collector.jobs.rows)[j], now)
    {
      ghost var start := collector.jobs.rows;
      var due := collector.jobs.DueJobs(now);
      while due != {}
        invariant collector.jobs.rows.Keys == start.Keys
        invariant forall j :: j in due ==> j in start && JobRegistry.IsDue(start[j], now)
        invariant forall j :: j in start ==>
          collector.jobs.rows[j] == if j in due then start[j] else QueuedIfDue(start[j], now)
        decreases due
      {
        var j :| j in due;
        collector.jobs.MarkQueued(j);
        due := due - {j};
      }
    }

    /** Claims the job if it is still queued and enabled. */
    method TryClaim(jobId: string) returns (claimed: Option<Job>)
      requires Valid()
      modifies collector.jobs, collector.clock
      ensures Valid() && collector.clock.now >= old(collector.clock.now)
      ensures claimed.Some? <==> JobRegistry.Claimable(old(collector.jobs.rows), jobId)
      ensures claimed.Some? ==> claimed.value.jobId == jobId && Claimed(claimed.value)
      ensures collector.jobs.rows == JobRegistry.ClaimedTable(old(collector.jobs.rows), jobId, collector.clock.now)
    {
      hide Pipeline.BaseCollector.Core, Covered, NamesOwnRuns, DoneDrained, Chronicled;
      ghost var start := Shared();
      var now := collector.Now();
      var won := collector.jobs.ClaimQueued(jobId, now);
      StatusesKeepDone(start.jobs, collector.jobs.rows, collector.queue.rows, collector.lib.urls);
      ChronicleKept(histories, start, Shared());
      claimed := if won then Some(Job(jobId, collector.jobs.rows[jobId].config, collector.jobs.rows[jobId].phase)) else None;
    }

    /** Claims some queued job; none exactly when no enabled job is queued. */
    method ClaimAnyQueued() returns (claimed: Option<Job>)
      requires Valid()
      modifies collector.jobs, collector.clock
      ensures Valid() && collector.clock.now >= old(collector.clock.now)
      ensures claimed.None? <==> forall j :: j in old(collector.jobs.rows) ==> !JobRegistry.Claimable(old(collector.jobs.rows), j)
      ensures claimed.None? ==> collector.jobs.rows == old(collector.jobs.rows)
      ensures claimed.Some? ==>
        && Claimed(claimed.value) && JobRegistry.Claimable(old(collector.jobs.rows), claimed.value.jobId)
        && collector.jobs.rows == JobRegistry.ClaimedTable(old(collector.jobs.rows), claimed.value.jobId, collector.clock.now)
    {
      hide Pipeline.BaseCollector.Core, Pipeline.BaseCollector.Valid, Covered, NamesOwnRuns, DoneDrained, Chronicled, IsDone;
      ghost var start := collector.jobs.rows;
      var queued := set j | j in collector.jobs.rows && collector.jobs.rows[j].status == JobRegistry.Queued;
      while queued != {}
        invariant Valid() && collector.clock.now >= old(collector.clock.now)
        invariant collector.jobs.rows == start
        invariant forall j :: j in start && j !in queued ==> !JobRegistry.Claimable(start, j)
        decreases queued
      {
        var j :| j in queued;
        claimed := TryClaim(j);
        if claimed.Some? {
          return;
        }
        queued := queued - {j};
      }
      return None;
    }

    /** No fetch is in flight and none was ever repeated. */
    ghost predicate Quiet()
      reads collector.queue
    {
      NothingInFlight(collector.queue.rows) && TallyOf(collector.queue.log).requeues == 0
    }

    /** Runs a claimed job. The crawl stays quiet unless the run failed, which its row shows, or was
        incremental. */
    method RunClaimed(job: Job, pollInterval: int) returns (ghost run: nat, ghost status: JobRegistry.JobStatus)
      requires Valid() && Claimed(job)
      modifies this`histories, collector`backlog, collector`calls, collector.jobs, collector.limiter, collector.queue,
        collector.candidates, collector.entities, collector.evidence, collector.review, collector.world, collector.runHistory,
        collector.checkpoints, collector.clock
      ensures Valid() && collector.clock.now >= old(collector.clock.now)
      ensures RunHistory.HistoryKept(old(collector.runHistory.runs), collector.runHistory.runs)
      ensures Recorded(old(Shared()), Shared(), job.jobId, run, status)
      ensures status == JobRegistry.Failed || status == JobRegistry.Completed || status == JobRegistry.Continuing
      ensures job.jobId in collector.jobs.rows
        && Rescheduled(old(collector.jobs.rows)[job.jobId], collector.jobs.rows[job.jobId], status,
                       if status == JobRegistry.Continuing then pollInterval else job.config.interval, collector.clock.now)
      ensures |collector.runHistory.runs| <= |old(collector.runHistory.runs)| + 1
      ensures PhasesRise(old(collector.jobs.rows), collector.jobs.rows)
      ensures HistoriesGrow(old(histories), histories)
      ensures old(Quiet()) && NoNewFailure(old(collector.runHistory.runs), collector.runHistory.runs) ==>
        job.phase == Incremental || Quiet()
    {
      hide Pipeline.BaseCollector.Core, Covered, Recorded, StillWorking, Accounted, Flowed, Chronicled, Extended, PhasesRise;
      hide PhaseHistory.After, StateOf, NothingPending, NoneInFlight, CountsOf, DoneDrained;
      hide Rescheduled, Timed, Told, OneError;
      hide TallyOf, OwnRows, NothingInFlight, Resolved, NamesOwnRuns, RunHistory.HistoryKept, NoNewFailure, HistoriesGrow;
      ghost var before, quiet, past := Shared(), Quiet(), histories;
      if quiet {
        NothingMeansNone(collector.queue.rows, job.jobId);
      }
      var outcome, final;
      ghost var trace;
      outcome, final, run, trace := RunJobAndRecord(job, pollInterval);
      status := final;
      RecordedKeepsHistory(before, Shared(), job.jobId, run, status);
      RecordedPhasesRise(before, Shared(), job.jobId, run, status, Taken(job, status == JobRegistry.Failed, trace));
      ExtendedGrows(past, job.jobId, Taken(job, status == JobRegistry.Failed, trace));
      if status == JobRegistry.Failed {
        FailureShows(before, Shared(), job.jobId, run);
      } else if quiet && job.phase != Incremental {
        QuietKept(before.queue, collector.queue.rows, job.jobId);
      }
    }

    /** Queues what is due and claims a job; none only if no enabled job was queued or due. */
    method Dispatch() returns (job: Option<Job>, ghost queued: JobRegistry.JobTable, ghost at: int, ghost started: int)
      requires Valid()
      modifies collector.jobs, collector.clock
      ensures Valid() && collector.clock.now >= old(collector.clock.now)
      ensures PhasesRise(old(collector.jobs.rows), collector.jobs.rows)
      ensures queued.Keys == old(collector.jobs.rows.Keys) && old(collector.clock.now) <= at <= started <= collector.clock.now
      ensures forall j :: j in queued ==> queued[j] == QueuedIfDue(old(collector.jobs.rows)[j], at)
      ensures job.Some? ==>
        && Claimed(job.value) && JobRegistry.Claimable(queued, job.value.jobId)
        && collector.jobs.rows == JobRegistry.ClaimedTable(queued, job.value.jobId, started)
      ensures job.None? ==> collector.jobs.rows == old(collector.jobs.rows)
      ensures job.None? ==> forall j :: j in collector.jobs.rows ==>
        !JobRegistry.Claimable(collector.jobs.rows, j) && !JobRegistry.IsDue(collector.jobs.rows[j], old(collector.clock.now))
    {
      hide Pipeline.BaseCollector.Core, Covered, NamesOwnRuns, DoneDrained, Chronicled;
      ghost var start := collector.jobs.rows;
      QueueDueJobs();
      queued, at := collector.jobs.rows, collector.clock.now;
      job := ClaimAnyQueued();
      started := collector.clock.now;
      if job.None? {
        NoneQueuedNoneDue(start, collector.jobs.rows, old(collector.clock.now), at);
      }
    }

    /** One round: queue what is due, run one job. The worker is idle only if no enabled job was
        queued or due, and whatever it does the run history stays immutable. */
    method RunOneJob(pollInterval: int) returns (worked: bool)
      requires Valid()
      modifies this`histories, collector`backlog, collector`calls, collector.jobs, collector.limiter, collector.queue,
        collector.candidates, collector.entities, collector.evidence, collector.review, collector.world, collector.runHistory,
        collector.checkpoints, collector.clock
      ensures Valid() && collector.clock.now >= old(collector.clock.now)
      ensures RunHistory.HistoryKept(old(collector.runHistory.runs), collector.runHistory.runs)
      ensures |collector.runHistory.runs| <= |old(collector.runHistory.runs)| + if worked then 1 else 0
      ensures PhasesRise(old(collector.jobs.rows), collector.jobs.rows) && HistoriesGrow(old(histories), histories)
      ensures if worked then RanSome(old(Shared()), Shared(), old(collector.clock.now), collector.clock.now)
              else Idle(old(Shared()), Shared(), old(collector.clock.now))
      ensures old(Quiet()) && Undisturbed(old(Shared()), Shared()) ==> Quiet()
    {
      hide Pipeline.BaseCollector.Core, Covered, NamesOwnRuns, DoneDrained, TallyOf, NothingInFlight, RunHistory.HistoryKept;
      hide Chronicled, NoNewFailure, HistoriesGrow, Ran, Recorded, PhasesRise, NoneIncremental, QueuedIfDue;
      hide JobRegistry.Claimable, JobRegistry.ClaimedTable, Rescheduled;
      ghost var before := Shared();
      ghost var queued, at, started;
      HistoryKeptSelf(collector.runHistory.runs);
      HistoriesGrowSelf(histories);
      var job;
      job, queued, at, started := Dispatch();
      if job.Some? {
        ghost var claimed := Shared();
        ghost var run, status := RunClaimed(job.value, pollInterval);
        RecordedIsRan(before, queued, claimed, Shared(), job.value.jobId, at, started, run, status,
                      if status == JobRegistry.Continuing then pollInterval else job.value.config.interval, collector.clock.now);
        PhasesRiseOn(before.jobs, claimed.jobs, collector.jobs.rows);
        NotIncremental(claimed.jobs, collector.jobs.rows, job.value.jobId);
      }
      worked := job.Some?;
    }

    /** One pass of the worker's loop, whose last recovery was at the given time. */
    method Round(lastRecovery: Option<int>, pollInterval: int, staleAfter: int) returns (recovery: Option<int>)
      requires Valid() && pollInterval >= 0
      modifies this`histories, collector`backlog, collector`calls, collector.jobs, collector.limiter, collector.queue,
        collector.candidates, collector.entities, collector.evidence, collector.review, collector.world, collector.runHistory,
        collector.checkpoints, collector.clock
      ensures Valid() && collector.clock.now >= old(collector.clock.now)
      ensures Passed(old(Shared()), Shared(), lastRecovery, recovery, old(collector.clock.now), collector.clock.now, staleAfter)
      ensures lastRecovery.None? || 2 * (old(collector.clock.now) - lastRecovery.value) > staleAfter ==>
        StaleReset(old(Shared()), Shared(), old(collector.clock.now), staleAfter)
      ensures FreshKept(old(Shared()), Shared(), collector.clock.now, staleAfter)
      ensures RunHistory.HistoryKept(old(collector.runHistory.runs), collector.runHistory.runs)
      ensures |collector.runHistory.runs| <= |old(collector.runHistory.runs)| + 1
      ensures PhasesRise(old(collector.jobs.rows), collector.jobs.rows) && HistoriesGrow(old(histories), histories)
      ensures old(Quiet()) && Undisturbed(old(Shared()), Shared()) ==> Quiet()
    {
      hide Pipeline.BaseCollector.Core, Covered, NamesOwnRuns, DoneDrained, TallyOf, NothingInFlight, RunHistory.HistoryKept;
      hide Chronicled, NoNewFailure, HistoriesGrow, PhasesRise, NoneIncremental, RanSome, Idle, Passed, StaleReset, FreshKept;
      recovery := lastRecovery;
      ghost var before, early := Shared(), collector.clock.now;
      PhasesRiseSelf(before.jobs);
      var now := collector.Now();
      ghost var at := now;
      if lastRecovery.None? || 2 * (now - lastRecovery.value) > staleAfter {
        var recovered := RecoverStaleJobs(staleAfter);
        at := collector.clock.now;
        var done := collector.Now();
        recovery := Some(done);
      }
      ghost var between, done := Shared(), collector.clock.now;
      var worked := RunOneJob(pollInterval);
      PhasesRiseOn(before.jobs, between.jobs, collector.jobs.rows);
      if !worked {
        collector.Pause(pollInterval);
      }
      IsPassed(before, between, Shared(), lastRecovery, recovery, early, now, at, done, collector.clock.now, staleAfter);
      PassResets(before, Shared(), lastRecovery, recovery, early, collector.clock.now, staleAfter);
    }

    /** Any number of rounds, with stale jobs recovered now and then. The run history stays immutable,
        no job falls back a phase, and every job that is then completed outside the incremental phase
        has settled all it knows, but for candidates that a promotion had to leave behind. The fetches
        ever started stay within five per URL of any universe that holds the tracked URLs, and five
        more per requeued row; if no run failed and no job is incremental, nothing was requeued. */
    method RunForever(rounds: nat, pollInterval: int, staleAfter: int)
      returns (ghost states: seq<SharedTables>, ghost times: seq<int>, ghost recoveries: seq<Option<int>>)
      requires Valid() && pollInterval >= 0
      modifies this`histories, collector`backlog, collector`calls, collector.jobs, collector.limiter, collector.queue,
        collector.candidates, collector.entities, collector.evidence, collector.review, collector.world, collector.runHistory,
        collector.checkpoints, collector.clock
      ensures Valid()
      ensures Passes(states, times, recoveries, staleAfter) && |states| == |times| == |recoveries| == rounds + 1
      ensures states[0] == old(Shared()) && states[rounds] == Shared()
      ensures times[0] == old(collector.clock.now) && times[rounds] == collector.clock.now
      ensures recoveries[0] == None && forall k :: 0 <= k < rounds ==>
        && (recoveries[k].None? || 2 * (times[k] - recoveries[k].value) > staleAfter ==>
              && StaleReset(states[k], states[k + 1], times[k], staleAfter)
              && recoveries[k + 1].Some? && times[k] <= recoveries[k + 1].value <= times[k + 1])
        && FreshKept(states[k], states[k + 1], times[k + 1], staleAfter)
      ensures RunHistory.HistoryKept(old(collector.runHistory.runs), collector.runHistory.runs)
      ensures |collector.runHistory.runs| <= |old(collector.runHistory.runs)| + rounds
      ensures PhasesRise(old(collector.jobs.rows), collector.jobs.rows)
      ensures HistoriesGrow(old(histories), histories)
      ensures DoneResolved(collector.jobs.rows, collector.queue.rows, collector.candidates.rows, collector.lib.urls,
                           collector.backlog)
      ensures old(Quiet()) && Undisturbed(old(Shared()), Shared()) ==> Quiet()
      ensures forall universe :: AllIn(collector.queue.rows, universe) ==>
        var tally := TallyOf(collector.queue.log);
        tally.claims <= 5 * |universe| + 5 * tally.requeues
    {
      hide Pipeline.BaseCollector.Core, Covered, TallyOf, NothingInFlight, RunHistory.HistoryKept, DoneDrained, DoneResolved;
      hide Chronicled, HistoriesGrow, PhasesRise, Undisturbed, NamesOwnRuns, Passed, StaleReset, FreshKept;
      ghost var start, past := Shared(), histories;
      states, times, recoveries := [start], [collector.clock.now], [None];
      NoPasses(start, collector.clock.now, staleAfter);
      HistoryKeptSelf(start.runs);
      HistoriesGrowSelf(past);
      PhasesRiseSelf(start.jobs);
      var recovery: Option<int> := None;
      for round := 0 to rounds
        invariant Valid() && RunHistory.HistoryKept(start.runs, collector.runHistory.runs)
        invariant PhasesRise(start.jobs, collector.jobs.rows) && HistoriesGrow(past, histories)
        invariant |collector.runHistory.runs| <= |start.runs| + round
        invariant old(Quiet()) && Undisturbed(start, Shared()) ==> Quiet()
        invariant Passes(states, times, recoveries, staleAfter)
        invariant |states| == |times| == |recoveries| == round + 1 && recoveries[round] == recovery
        invariant states[0] == start && states[round] == Shared()
        invariant times[0] == old(collector.clock.now) && times[round] == collector.clock.now
      {
        ghost var before, told := Shared(), histories;
        recovery := Round(recovery, pollInterval, staleAfter);
        PassesOn(states, times, recoveries, Shared(), collector.clock.now, recovery, staleAfter);
        states, times, recoveries := states + [Shared()], times + [collector.clock.now], recoveries + [recovery];
        HistoryKeptOn(start.runs, before.runs, collector.runHistory.runs);
        PhasesRiseOn(start.jobs, before.jobs, collector.jobs.rows);
        HistoriesGrowOn(past, told, histories);
        if Undisturbed(start, Shared()) {
          UndisturbedSplit(start, before, Shared());
        }
      }
      PassesReset(states, times, recoveries, staleAfter);
      CompletedMeansResolved(collector.jobs.rows, collector.queue.rows, collector.candidates.rows, collector.lib.urls,
                             collector.backlog);
      forall universe | AllIn(collector.queue.rows, universe)
        ensures var tally := TallyOf(collector.queue.log);
                tally.claims <= 5 * |universe| + 5 * tally.requeues
      {
        CrawlBounded(collector, universe);
      }
    }
  }
}
