/** Per-job progress that survives a crash. */
module Checkpoints {
  import opened Common
  import opened Phases

  /** The state dictionary: the crash-resume marker, the bootstrap flag and the low-yield streak. */
  datatype Progress = Progress(currentRunId: Option<nat>, seeded: bool, lowDiscoveryStreak: int)

  const NO_PROGRESS := Progress(None, false, 0)

  datatype Checkpoint = Checkpoint(runId: Option<nat>, phase: Option<Phase>, state: Progress)

  const NO_CHECKPOINT := Checkpoint(None, None, NO_PROGRESS)

  function Loaded(rows: map<string, Checkpoint>, jobId: string): Checkpoint {
    if jobId in rows then rows[jobId] else NO_CHECKPOINT
  }

  class CheckpointStore {
    var rows: map<string, Checkpoint>

    constructor ()
      ensures rows == map[]
    {
      rows := map[];
    }

    /** Upserts the job's only row. */
    method Save(jobId: string, runId: Option<nat>, phase: Option<Phase>, state: Progress)
      modifies this
      ensures rows == old(rows)[jobId := Checkpoint(runId, phase, state)]
    {
      rows := rows[jobId := Checkpoint(runId, phase, state)];
    }

    method Load(jobId: string) returns (checkpoint: Checkpoint)
      ensures checkpoint == Loaded(rows, jobId)
    {
      checkpoint := if jobId in rows then rows[jobId] else NO_CHECKPOINT;
    }
  }
}
