/** The scheduler: queues due jobs as long as there is room for another. */
module Scheduler {
  import opened Common
  import JobRegistry

  ghost predicate AllDue(jobs: JobRegistry.JobTable, ids: set<string>, now: int) {
    forall j :: j in ids ==> j in jobs && JobRegistry.IsDue(jobs[j], now)
  }

  /** The answers of one tick: a yes for every admitted job, and at most one no, the last. */
  ghost predicate Asked(before: seq<bool>, after: seq<bool>, admitted: nat, refused: bool) {
    && |after| == |before| + admitted + (if refused then 1 else 0) && before <= after
    && (forall k :: |before| <= k < |before| + admitted ==> after[k])
    && (refused ==> !after[|after| - 1])
  }

  lemma AskedNothing(answers: seq<bool>)
    ensures Asked(answers, answers, 0, false)
  {
  }

  lemma AskedOnce(before: seq<bool>, after: seq<bool>, admitted: nat, ok: bool)
    requires Asked(before, after, admitted, false)
    ensures if ok then Asked(before, after + [ok], admitted + 1, false) else Asked(before, after + [ok], admitted, true)
  {
  }

  class Scheduler {
    const jobs: JobRegistry.JobRegistry
    const clock: Clock

    /** What `can_admit_new_job` has answered so far. */
    ghost var answers: seq<bool>

    constructor (jobs: JobRegistry.JobRegistry, clock: Clock)
      ensures this.jobs == jobs && this.clock == clock && answers == []
    {
      this.jobs, this.clock, answers := jobs, clock, [];
    }

    /** `can_admit_new_job` */
    method CanAdmit() returns (ok: bool)
      modifies this`answers
      ensures answers == old(answers) + [ok]
    {
      ok := *;
      answers := answers + [ok];
    }

    /** Moves due jobs, and nothing else, to queued, one for each yes; the first no leaves the rest
        waiting, and without one every due job is queued. The result counts them. */
    method Tick() returns (admitted: nat, ghost queued: set<string>, refused: bool)
      modifies jobs, clock, this`answers
      ensures clock.now >= old(clock.now)
      ensures AllDue(old(jobs.rows), queued, clock.now) && admitted == |queued|
      ensures jobs.rows.Keys == old(jobs.rows.Keys)
      ensures forall j :: j in jobs.rows ==>
        jobs.rows[j] == if j in queued then old(jobs.rows)[j].(status := JobRegistry.Queued) else old(jobs.rows)[j]
      ensures Asked(old(answers), answers, admitted, refused)
      ensures refused ==> exists j :: j in jobs.rows && JobRegistry.IsDue(old(jobs.rows)[j], clock.now) && j !in queued
      ensures !refused ==> forall j :: j in jobs.rows && JobRegistry.IsDue(old(jobs.rows)[j], clock.now) ==> j in queued
    {
      hide Truncate, Asked, JobRegistry.IsDue;
      AskedNothing(answers);
      var now := clock.Read();
      ghost var start := jobs.rows;
      var due := jobs.DueJobs(now);
      admitted, queued, refused := 0, {}, false;
      while due != {}
        invariant Asked(old(answers), answers, admitted, false)
        invariant AllDue(start, due, now) && AllDue(start, queued, now) && due !! queued
        invariant admitted == |queued| && jobs.rows.Keys == start.Keys
        invariant forall j :: j in start ==>
          jobs.rows[j] == if j in queued then start[j].(status := JobRegistry.Queued) else start[j]
        invariant forall j :: j in start && JobRegistry.IsDue(start[j], now) ==> j in due || j in queued
        modifies jobs, this`answers
        decreases due
      {
        var j :| j in due;
        AskedOnce(old(answers), answers, admitted, true);
        AskedOnce(old(answers), answers, admitted, false);
        var ok := CanAdmit();
        if !ok {
          refused := true;
          break;
        }
        JobRegistry.DueIsSchedulable(start[j], now);
        jobs.MarkQueued(j);
        admitted, queued := admitted + 1, queued + {j};
        due := due - {j};
      }
    }
  }
}
