/** One row per execution of a job, and one per discovery run. */
module RunHistory {
  import opened Common
  import opened Phases

  datatype RunStatus = Running | Completed | Failed | Aborted

  datatype Counter =
    | DiscoveredCount | FetchedCount | InsertedCount | UpdatedCount | DuplicateCount | ReviewCount | ErrorCount

  const COUNTERS: seq<Counter> := [
    DiscoveredCount, FetchedCount, InsertedCount, UpdatedCount, DuplicateCount, ReviewCount, ErrorCount
  ]

  /** Counters default to zero and are only written when the row is finalized. */
  datatype RunRow = RunRow(jobId: string, startedAt: int, status: RunStatus, finishedAt: Option<int>,
                           duration: Option<int>, counts: map<Counter, int>)

  datatype DiscoveryRow = DiscoveryRow(jobId: string, runId: nat, yielded: Yield, duplicates: nat, accepted: nat, rejected: nat)

  function NewRun(jobId: string, now: int): RunRow {
    RunRow(jobId, Truncate(now), Running, None, None, map[])
  }

  predicate IsRunning(runs: seq<RunRow>, id: nat) {
    id < |runs| && runs[id].status == Running
  }

  function Finalized(row: RunRow, status: RunStatus, counts: map<Counter, int>, now: int): RunRow {
    row.(status := status, finishedAt := Some(Truncate(now)), duration := Some(now - row.startedAt * MICROS),
         counts := row.counts + counts)
  }

  /** `UPDATE ... WHERE run_id=? AND status='running'` */
  function GuardedFinish(runs: seq<RunRow>, id: nat, status: RunStatus, counts: map<Counter, int>, now: int): seq<RunRow> {
    if IsRunning(runs, id) then runs[id := Finalized(runs[id], status, counts, now)] else runs
  }

  /** Execution history is immutable: rows are only added, keep their job and start, and never
      change once they have left `Running`. */
  ghost predicate HistoryKept(before: seq<RunRow>, after: seq<RunRow>) {
    && |before| <= |after|
    && forall i :: 0 <= i < |before| ==>
         && after[i].jobId == before[i].jobId && after[i].startedAt == before[i].startedAt
         && (before[i].status != Running ==> after[i] == before[i])
  }

  /** The rows of one job's discovery runs, oldest first. */
  function YieldsOf(rows: seq<DiscoveryRow>, jobId: string): seq<Yield> {
    if rows == [] then []
    else
      var before := YieldsOf(rows[..|rows| - 1], jobId);
      if rows[|rows| - 1].jobId == jobId then before + [rows[|rows| - 1].yielded] else before
  }

  /** The job's most recent run. */
  function LatestRun(runs: seq<RunRow>, jobId: string): (r: Option<nat>)
    ensures r.Some? ==> r.value < |runs| && runs[r.value].jobId == jobId
    ensures r.Some? ==> forall i :: r.value < i < |runs| ==> runs[i].jobId != jobId
    ensures r.None? ==> forall i :: 0 <= i < |runs| ==> runs[i].jobId != jobId
  {
    if runs == [] then None
    else if runs[|runs| - 1].jobId == jobId then Some(|runs| - 1)
    else LatestRun(runs[..|runs| - 1], jobId)
  }

  function CounterOf(row: RunRow, c: Counter): int {
    if c in row.counts then row.counts[c] else 0
  }

  class RunHistoryStore {
    var runs: seq<RunRow>
    var discovery: seq<DiscoveryRow>

    constructor ()
      ensures runs == [] && discovery == []
    {
      runs, discovery := [], [];
    }

    method Start(jobId: string, now: int) returns (runId: nat)
      modifies this`runs
      ensures runId == |old(runs)| && runs == old(runs) + [NewRun(jobId, now)]
    {
      runId := |runs|;
      runs := runs + [RunRow(jobId, Truncate(now), Running, None, None, map[])];
    }

    /** Finalizes a running row with the supplied counters; any other row is left untouched. */
    method Finish(runId: nat, status: RunStatus, counts: map<Counter, int>, now: int) returns (finalized: bool)
      modifies this`runs
      ensures finalized <==> IsRunning(old(runs), runId)
      ensures runs == GuardedFinish(old(runs), runId, status, counts, now)
    {
      if runId >= |runs| || runs[runId].status != Running {
        return false;
      }
      var fields: map<Counter, int> := map[];
      for i := 0 to |COUNTERS|
        invariant forall c :: c in fields <==> c in counts && c in COUNTERS[..i]
        invariant forall c :: c in fields ==> fields[c] == counts[c]
      {
        assert COUNTERS[..i + 1] == COUNTERS[..i] + [COUNTERS[i]];
        if COUNTERS[i] in counts {
          fields := fields[COUNTERS[i] := counts[COUNTERS[i]]];
        }
      }
      assert COUNTERS[..|COUNTERS|] == COUNTERS;
      forall c ensures c in COUNTERS { EveryCounter(c); }
      assert fields == counts;
      var duration := now - runs[runId].startedAt * MICROS;
      runs := runs[runId := runs[runId].(status := status, finishedAt := Some(Truncate(now)), duration := Some(duration),
                                         counts := runs[runId].counts + fields)];
      return true;
    }

    method RecordDiscoveryStats(jobId: string, runId: nat, yielded: Yield, duplicates: nat, accepted: nat, rejected: nat)
      modifies this`discovery
      ensures discovery == old(discovery) + [DiscoveryRow(jobId, runId, yielded, duplicates, accepted, rejected)]
    {
      discovery := discovery + [DiscoveryRow(jobId, runId, yielded, duplicates, accepted, rejected)];
    }
  }

  lemma EveryCounter(c: Counter)
    ensures c in COUNTERS
  {
  }

  lemma FinishKeepsHistory(runs: seq<RunRow>, id: nat, status: RunStatus, counts: map<Counter, int>, now: int)
    ensures HistoryKept(runs, GuardedFinish(runs, id, status, counts, now))
  {
  }
}
