/** What the pipeline keeps track of, and what it conserves, as values. */
module CrawlState {
  import opened Common
  import opened UrlNormalization
  import opened QueueLog
  import opened Candidates
  import opened Phases
  import opened RateLimiter
  import JobRegistry
  import Persistence
  import PersistenceHistory
  import opened Surroundings
  import Entities
  import FetchQueue
  import Fingerprint
  import PhaseHistory
  import opened RunHistory
  import opened Checkpoints

  const PROMOTION_LIMIT: nat := 500
  const EMPTY_TABLES := Persistence.Tables([], [])

  /** The job as claimed: its row at that time. */
  datatype Job = Job(jobId: string, config: JobRegistry.JobConfig, phase: Phase)

  /** The entity type given to candidates. */
  function CandidateType(job: Job): string {
    if job.config.category != "" then job.config.category else job.config.collectorType
  }

  /** The counters of one run. */
  class RunOutcome {
    var fetched: int
    var inserted: int
    var updated: int
    var duplicates: int
    var reviewed: int
    var errors: int
    var discovered: int

    constructor ()
      ensures fetched == inserted == updated == duplicates == reviewed == errors == discovered == 0
    {
      fetched, inserted, updated, duplicates, reviewed, errors, discovered := 0, 0, 0, 0, 0, 0, 0;
    }
  }

  // ---------------------------------------------------------------------
  // Conservation: the counters against the tables
  // ---------------------------------------------------------------------

  /** How many claims the queue's log holds, how they ended, and how many rows were requeued
      because their fetch was interrupted or is to be repeated. */
  datatype Tally = Tally(claims: int, finishes: int, skips: int, failures: int, requeues: int)
  {
    /** Claims that ended: done, skipped, failed for good or queued again. */
    function Resolved(): int { finishes + skips + failures }

    function Plus(kind: Kind): Tally {
      match kind
      case Claims => this.(claims := claims + 1)
      case Finishes => this.(finishes := finishes + 1)
      case Skips => this.(skips := skips + 1)
      case Failures => this.(failures := failures + 1)
      case Additions => this
      case _ => this.(requeues := requeues + 1)
    }
  }

  function TallyOf(log: seq<Op>): Tally {
    Tally(Total(log, Claims), Total(log, Finishes), Total(log, Skips), Total(log, Failures),
          Total(log, Recoveries) + Total(log, Revalidations))
  }

  lemma TallyNext(log: seq<Op>, op: Op)
    ensures TallyOf(log + [op]) == TallyOf(log).Plus(KindOf(op))
  {
    hide Total;
    TotalExtend(log, op);
  }

  /** How many of the calls ended in a merge. */
  function Merges(lib: Entities.Library, calls: seq<Persistence.Call>): nat {
    if calls == [] then 0
    else
      var front := calls[..|calls| - 1];
      var outcome := Persistence.Persisted(lib, PersistenceHistory.After(lib, EMPTY_TABLES, front), calls[|calls| - 1]).1;
      Merges(lib, front) + if outcome.Updated? then 1 else 0
  }

  lemma MergesNext(lib: Entities.Library, calls: seq<Persistence.Call>, call: Persistence.Call)
    ensures Merges(lib, calls + [call])
      == Merges(lib, calls)
         + if Persistence.Persisted(lib, PersistenceHistory.After(lib, EMPTY_TABLES, calls), call).1.Updated? then 1 else 0
  {
    assert (calls + [call])[..|calls|] == calls;
  }

  /** The counters, the sizes of the tables, the merges and the queue's operations so far. */
  datatype Books = Books(
    fetched: int, inserted: int, updated: int, duplicates: int, reviewed: int, errors: int, discovered: int,
    entities: int, merges: int, reviews: int, candidates: int, requests: int, queue: Tally)
  {
    /** The books before their last claim. */
    function Unclaimed(): Books {
      this.(queue := queue.(claims := queue.claims - 1))
    }

    /** The bootstrap landed this many candidates without counting them. */
    function Seeded(boot: nat): Books {
      this.(candidates := candidates + boot)
    }

    function Requeued(count: nat): Books {
      this.(queue := queue.(requeues := queue.requeues + count))
    }

    /** A claim ended this way, with this many new review rows. */
    function Ended(kind: Kind, flagged: nat): Books {
      this.(errors := errors + if kind == Finishes then 0 else 1, reviewed := reviewed + flagged, reviews := reviews + flagged,
            queue := queue.Plus(kind))
    }
  }

  /** From `a` to `b` every counter moved exactly as its table did and every claim sent one request;
      `open` claims were left unresolved by an exception, at most that many after their fetch. */
  ghost predicate Conserved(a: Books, b: Books, open: int) {
    && b.inserted - a.inserted == b.entities - a.entities >= 0
    && b.updated - a.updated == b.duplicates - a.duplicates == b.merges - a.merges >= 0
    && b.reviewed - a.reviewed == b.reviews - a.reviews >= 0
    && b.discovered - a.discovered == b.candidates - a.candidates >= 0
    && b.errors - a.errors == b.queue.skips - a.queue.skips + b.queue.failures - a.queue.failures
    && b.requests - a.requests == b.queue.claims - a.queue.claims
    && b.queue.requeues == a.queue.requeues
    && b.queue.finishes >= a.queue.finishes && b.queue.skips >= a.queue.skips && b.queue.failures >= a.queue.failures
    && b.queue.claims - a.queue.claims == b.queue.Resolved() - a.queue.Resolved() + open
    && b.queue.Resolved() - a.queue.Resolved() <= b.fetched - a.fetched <= b.queue.Resolved() - a.queue.Resolved() + open
  }

  /** What the tables show of a run, whether or not it raised: every claim sent one request, and all
      but `open` of them ended in one way. */
  ghost predicate Flowed(a: Books, b: Books, open: int) {
    && b.requests - a.requests == b.queue.claims - a.queue.claims
    && b.queue.claims - a.queue.claims == b.queue.Resolved() - a.queue.Resolved() + open
    && b.entities >= a.entities && b.reviews >= a.reviews && b.candidates >= a.candidates
  }

  /** The log only gained additions. */
  ghost predicate OnlyAdds(before: seq<Op>, after: seq<Op>) {
    before <= after && forall k :: |before| <= k < |after| ==> after[k].Enqueue?
  }

  lemma {:induction false} AddsChangeNoTotals(before: seq<Op>, after: seq<Op>)
    requires OnlyAdds(before, after)
    ensures forall kind :: kind != Additions ==> Total(after, kind) == Total(before, kind)
    ensures TallyOf(after) == TallyOf(before)
  {
    if |before| < |after| {
      AddsChangeNoTotals(before, after[..|after| - 1]);
    } else {
      assert before == after;
    }
  }

  /** Only discoveries, records and `finished` finished rows. */
  ghost predicate Gathered(a: Books, b: Books, finished: int) {
    && b.inserted - a.inserted == b.entities - a.entities >= 0
    && b.updated - a.updated == b.duplicates - a.duplicates == b.merges - a.merges >= 0
    && b.reviewed - a.reviewed == b.reviews - a.reviews >= 0
    && b.discovered - a.discovered == b.candidates - a.candidates >= 0
    && b.errors == a.errors && b.fetched == a.fetched && b.requests == a.requests
    && b.queue == a.queue.(finishes := a.queue.finishes + finished)
  }

  /** The log only gained requeues, `count` of them. */
  ghost predicate OnlyRequeues(before: seq<Op>, after: seq<Op>, count: nat) {
    && before <= after && |after| == |before| + count
    && forall k :: |before| <= k < |after| ==> after[k].Recover? || after[k].Revalidate?
  }

  lemma {:induction false} RequeuesTally(before: seq<Op>, after: seq<Op>, count: nat)
    requires OnlyRequeues(before, after, count)
    ensures TallyOf(after) == TallyOf(before).(requeues := TallyOf(before).requeues + count)
  {
    if count > 0 {
      RequeuesTally(before, after[..|after| - 1], count - 1);
      TallyNext(after[..|after| - 1], after[|after| - 1]);
      assert after == after[..|after| - 1] + [after[|after| - 1]];
    } else {
      assert before == after;
    }
  }

  lemma NothingDone(a: Books)
    ensures Conserved(a.Seeded(0).Requeued(0), a, 0)
  {
  }

  lemma RequeuedTwice(a: Books, first: nat, boot: nat, second: nat)
    ensures a.Requeued(first).Seeded(boot).Requeued(second) == a.Seeded(boot).Requeued(second + first)
  {
  }

  /** New rows below old ones: every added row is queued and the job's own. */
  ghost predicate Appended(before: seq<Row>, after: seq<Row>, jobId: string) {
    && before <= after
    && forall i :: |before| <= i < |after| ==>
         after[i].jobId == jobId && after[i].status == Queued && after[i].maxAttempts == FetchQueue.DEFAULT_MAX_ATTEMPTS
  }

  /** Rows are kept, and those of other jobs are untouched. */
  ghost predicate OwnRows(before: seq<Row>, after: seq<Row>, jobId: string) {
    && KeepsRows(before, after)
    && forall i :: 0 <= i < |after| && after[i].jobId != jobId ==> i < |before| && after[i] == before[i]
  }

  lemma OwnRowsSelf(rows: seq<Row>, jobId: string)
    ensures OwnRows(rows, rows, jobId)
  {
  }

  lemma OwnRowsOn(a: seq<Row>, b: seq<Row>, c: seq<Row>, jobId: string)
    requires OwnRows(a, b, jobId) && OwnRows(b, c, jobId)
    ensures OwnRows(a, c, jobId)
  {
  }

  lemma OwnKeeps(before: seq<Row>, after: seq<Row>, jobId: string)
    requires OwnRows(before, after, jobId)
    ensures KeepsRows(before, after)
  {
  }

  lemma AppendedKeeps(before: seq<Row>, after: seq<Row>, jobId: string)
    requires Appended(before, after, jobId)
    ensures OwnRows(before, after, jobId)
    ensures NoneInFlight(before, jobId) ==> NoneInFlight(after, jobId)
  {
  }

  ghost predicate NoneInFlight(rows: seq<Row>, jobId: string) {
    forall i :: 0 <= i < |rows| ==> !FetchQueue.InFlight(rows[i], jobId)
  }

  /** Every row has the default number of attempts. */
  ghost predicate Capped(rows: seq<Row>) {
    forall i :: 0 <= i < |rows| ==> rows[i].maxAttempts == FetchQueue.DEFAULT_MAX_ATTEMPTS
  }

  /** Working on the claimed row `id` left every other row alone and added only queued rows of
      the job; the row itself is no longer in flight unless the work raised. */
  ghost predicate Processed(before: seq<Row>, after: seq<Row>, id: nat, jobId: string, raised: bool) {
    && id < |before| <= |after| && KeepsRows(before, after)
    && (forall i :: 0 <= i < |before| && i != id ==> after[i] == before[i])
    && (forall i :: |before| <= i < |after| ==> after[i].jobId == jobId && after[i].status == Queued)
    && (after[id].status == Fetching <==> raised)
  }

  lemma ProcessedKeeps(before: seq<Row>, after: seq<Row>, id: nat, jobId: string, raised: bool)
    requires Processed(before, after, id, jobId, raised)
    ensures KeepsRows(before, after)
  {
  }

  lemma StillInFlight(rows: seq<Row>, id: nat, jobId: string)
    requires id < |rows| && rows[id].status == Fetching
    ensures Processed(rows, rows, id, jobId, true)
  {
  }

  /** What raised is still in flight. */
  lemma LeftInFlight(claimed: seq<Row>, after: seq<Row>, id: nat, jobId: string)
    requires id < |claimed| && claimed[id].jobId == jobId && Processed(claimed, after, id, jobId, true)
    ensures !NoneInFlight(after, jobId)
  {
    assert FetchQueue.InFlight(after[id], jobId);
  }

  /** A drain never leaves a second row in flight. */
  lemma NoneInFlightAfter(queued: seq<Row>, claimed: seq<Row>, after: seq<Row>, id: nat, jobId: string)
    requires NoneInFlight(queued, jobId) && id < |queued| == |claimed| && claimed == queued[id := claimed[id]]
    requires Processed(claimed, after, id, jobId, false)
    ensures NoneInFlight(after, jobId)
  {
  }

  // ---------------------------------------------------------------------
  // What a fetch does to its row and its domain
  // ---------------------------------------------------------------------

  /** A refusal gives the row up; a failure queues it again after the server's wait, or else after 2, 4, 8 or
      16 seconds, until the fifth fails it for good; an unchanged page keeps its validators, a new one brings
      its own; what raises leaves the row in flight. */
  ghost predicate Followed(before: Row, after: Row, result: FetchResult, raised: bool, at: int) {
    match result
    case Blocked(error) =>
      after == before.(status := Skipped, errorMessage := Some(if Truthy(error) then error.value else "blocked"),
                       fetchedAt := Some(Truncate(at)))
    case NotOk(error, http, retryAfter) =>
      && 0 <= before.attemptCount <= 4
      && after == before.(
           status := if before.attemptCount == 4 then Status.Failed else Queued, attemptCount := before.attemptCount + 1,
           lastHttpStatus := http, errorMessage := Some(if Truthy(error) then error.value else "unknown error"),
           nextRetryAt :=
             if before.attemptCount == 4 then before.nextRetryAt
             else Some(Truncate(at + if retryAfter.Some? then retryAfter.value
                                     else [2, 4, 8, 16][before.attemptCount] * 1_000_000)))
    case NotModified =>
      after == before.(status := Done, lastHttpStatus := Some(304), fetchedAt := Some(Truncate(at)), errorMessage := None)
    case Page(status, contentHash, etag, lastModified) =>
      if raised then after == before
      else
        var http := if status.Some? && status.value != 0 then status.value else 200;
        after == before.(status := Done, lastHttpStatus := Some(http), fetchedAt := Some(Truncate(at)),
                         contentHash := contentHash, etag := etag, lastModified := lastModified, errorMessage := None)
    case FetchRaises => after == before
  }

  /** The domain's errors are counted, and a wait that the server asked for closes it; an answer forgets both. */
  ghost predicate Obeyed(before: map<string, Limit>, after: map<string, Limit>, domain: string, result: FetchResult, at: int) {
    match result
    case Blocked(_) => Penalized(before, after, domain, None, at)
    case NotOk(_, _, retryAfter) => Penalized(before, after, domain, retryAfter, at)
    case FetchRaises => after == before
    case _ => Forgiven(before, after, domain)
  }

  /** What raises changes neither. */
  lemma NothingFollowed(row: Row, limits: map<string, Limit>, domain: string, result: FetchResult, at: int)
    requires result.FetchRaises? || result.Page?
    ensures Followed(row, row, result, true, at) && (result.FetchRaises? ==> Obeyed(limits, limits, domain, result, at))
  {
  }

  lemma PageFollowed(before: Row, after: Row, page: FetchResult, http: int, at: int)
    requires page.Page? && http == if page.status.Some? && page.status.value != 0 then page.status.value else 200
    requires after == before.(
      status := Done, lastHttpStatus := Some(http), fetchedAt := Some(Truncate(at)), contentHash := page.contentHash,
      etag := page.etag, lastModified := page.lastModified, errorMessage := None)
    ensures Followed(before, after, page, false, at)
  {
  }

  lemma FailureFollowed(log: seq<Op>, rows: seq<Row>, op: Op, jobId: string, error: Option<string>, http: Option<int>,
                        retryAfter: Option<int>)
    requires Legal(log) && rows == Replay(log) && Capped(rows)
    requires op.Fail? && op.id < |rows| && rows[op.id].status == Fetching
    requires op.error == (if Truthy(error) then error.value else "unknown error")
    requires op.failedHttp == http && op.retryAfter == retryAfter
    ensures var after := Apply(rows, op);
            && Capped(after) && Processed(rows, after, op.id, jobId, false)
            && Followed(rows[op.id], after[op.id], NotOk(error, http, retryAfter), false, op.at)
            && after[op.id].status == if rows[op.id].attemptCount + 1 >= 5 then Status.Failed else Queued
  {
    hide Legal, Replay, Backoff;
    ReachableRows(log);
    assert GoodRow(rows[op.id]);
    if rows[op.id].attemptCount < 4 {
      ShortBackoffs(rows[op.id].attemptCount + 1);
      BackoffDoubles(rows[op.id].attemptCount + 1, if retryAfter.Some? then retryAfter.value else 0);
    }
  }

  // ---------------------------------------------------------------------
  // Coverage: which candidates have a queue row
  // ---------------------------------------------------------------------

  /** The candidate's URL is tracked, as it is stored or as the queue normalizes it. The two are
      one unless the URL is unstable. */
  ghost predicate HasRow(rows: seq<Row>, candidate: Candidate, urls: UrlRules) {
    || Tracked(rows, candidate.jobId, candidate.url)
    || Tracked(rows, candidate.jobId, urls.normalize(candidate.url))
  }

  /** Every candidate that is no longer fresh has a row; so does every fresh one, except in jobs
      that lag behind. */
  ghost predicate Covered(candidates: seq<Candidate>, rows: seq<Row>, urls: UrlRules, lagging: set<string>) {
    forall i :: 0 <= i < |candidates| && (candidates[i].status != Fresh || candidates[i].jobId !in lagging) ==>
      HasRow(rows, candidates[i], urls)
  }

  lemma CoveredKept(candidates: seq<Candidate>, before: seq<Row>, after: seq<Row>, urls: UrlRules, lagging: set<string>)
    requires Covered(candidates, before, urls, lagging) && KeepsRows(before, after)
    ensures Covered(candidates, after, urls, lagging)
  {
  }

  /** An empty database meets every invariant of the tables. */
  lemma EmptyTables(urls: UrlRules, now: int)
    ensures Covered([], [], urls, {}) && BacklogLarge([], {}) && UrlsNamed([], [], [], urls)
    ensures Paced(map[], [], now) && UniqueFingerprints([]) && Legal([]) && Capped([])
  {
  }

  lemma CoveredLoosely(candidates: seq<Candidate>, rows: seq<Row>, urls: UrlRules, lagging: set<string>, more: set<string>)
    requires Covered(candidates, rows, urls, lagging) && lagging <= more
    ensures Covered(candidates, rows, urls, more)
  {
  }

  /** A promotion that leaves fresh candidates behind met more of them than it may take. */
  ghost predicate BacklogLarge(candidates: seq<Candidate>, backlog: set<string>) {
    forall j :: j in backlog ==> CountOf(candidates, j) > PROMOTION_LIMIT
  }

  lemma BacklogGrows(before: seq<Candidate>, after: seq<Candidate>, backlog: set<string>)
    requires BacklogLarge(before, backlog) && before <= after
    ensures BacklogLarge(after, backlog)
  {
    assert after == before + after[|before|..];
    forall j | j in backlog ensures CountOf(after, j) > PROMOTION_LIMIT {
      CountAppend(before, after[|before|..], j);
    }
  }

  /** No empty URL gets into the tables, as long as normalizing never empties one. */
  ghost predicate UrlsNamed(candidates: seq<Candidate>, rows: seq<Row>, calls: seq<Persistence.Call>, urls: UrlRules) {
    && (forall i :: 0 <= i < |candidates| ==> candidates[i].url != "")
    && (NeverEmpties(urls) ==>
          && (forall i :: 0 <= i < |rows| ==> rows[i].url != "")
          && (forall k :: 0 <= k < |calls| ==> calls[k].sourceUrl != ""))
  }

  lemma UrlsNamedGrow(candidates: seq<Candidate>, before: seq<Row>, after: seq<Row>, calls: seq<Persistence.Call>, urls: UrlRules)
    requires UrlsNamed(candidates, before, calls, urls) && before <= after
    requires NeverEmpties(urls) ==> forall i :: |before| <= i < |after| ==> after[i].url != ""
    ensures UrlsNamed(candidates, after, calls, urls)
  {
  }

  lemma UrlsNamedKept(candidates: seq<Candidate>, before: seq<Row>, after: seq<Row>, calls: seq<Persistence.Call>, urls: UrlRules)
    requires UrlsNamed(candidates, before, calls, urls) && KeepsRows(before, after) && |after| == |before|
    ensures UrlsNamed(candidates, after, calls, urls)
  {
  }

  // ---------------------------------------------------------------------
  // What a run begins with
  // ---------------------------------------------------------------------

  /** Whether work in this phase starts with a sweep for new URLs. */
  predicate Sweeping(phase: Phase) {
    phase == Discovery || phase == Collect || phase == Incremental
  }

  /** How many sweeps a run begins with: the bootstrap's own, unless it has been made, and
      that of the phase the run works in. */
  function SweepsOf(phase: Phase, seeded: bool): nat {
    match phase
    case Bootstrap => if seeded then 1 else 2
    case Discovery => 1
    case Collect => 1
    case Incremental => 1
    case _ => 0
  }

  /** The run's first answers are that many sweeps, all of whose URLs are candidates, and there is none later. */
  ghost predicate SweptFirst(job: Job, sweeps: nat, before: seq<Observation>, after: seq<Observation>,
                             candidates: seq<Candidate>, urls: UrlRules)
  {
    && before <= after && |before| + sweeps <= |after|
    && (forall k :: |before| <= k < |after| ==> (after[k].Sweep? <==> k < |before| + sweeps))
    && (forall k :: |before| <= k < |before| + sweeps ==>
          AllRepresented(candidates, urls, job.jobId, CandidateType(job), after[k].found))
  }

  /** A URL of the sweep, as it is stored. */
  ghost predicate Observed(url: string, found: seq<Discovered>, urls: UrlRules) {
    exists d :: d in found && urls.normalize(d.url) == url
  }

  /** The first `boot` new candidates are URLs of this sweep, which had no others to add. */
  ghost predicate LandedFirst(job: Job, boot: nat, before: seq<Candidate>, after: seq<Candidate>, found: seq<Discovered>,
                              urls: UrlRules)
  {
    && |before| + boot <= |after|
    && AllRepresented(after[..|before| + boot], urls, job.jobId, CandidateType(job), found)
    && (forall i :: |before| <= i < |before| + boot ==>
          after[i].jobId == job.jobId && Observed(after[i].url, found, urls))
  }

  /** A run's sweeps; those candidates that the bootstrap's added are the ones it does not count. */
  ghost predicate SweptAll(job: Job, seeded: bool, boot: nat, seen: seq<Observation>, seen': seq<Observation>,
                           before: seq<Candidate>, after: seq<Candidate>, urls: UrlRules)
  {
    && SweptFirst(job, SweepsOf(job.phase, seeded), seen, seen', after, urls)
    && (if job.phase == Phase.Bootstrap && !seeded
        then LandedFirst(job, boot, before, after, seen'[|seen|].found, urls) else boot == 0)
  }

  /** Only fetches and pages were answered, and candidates were only added or settled. */
  ghost predicate OnlyRead(seen: seq<Observation>, seen': seq<Observation>, before: seq<Candidate>, after: seq<Candidate>) {
    && seen <= seen' && (forall k :: |seen| <= k < |seen'| ==> !seen'[k].Sweep?)
    && Grown(before, after)
  }

  lemma OnlyReadNothing(seen: seq<Observation>, candidates: seq<Candidate>)
    ensures OnlyRead(seen, seen, candidates, candidates)
  {
  }

  /** A page was read: its URLs landed, then its records were settled. */
  lemma OnlyReadPage(seen: seq<Observation>, answer: Observation, before: seq<Candidate>, landed: seq<Candidate>,
                     after: seq<Candidate>)
    requires !answer.Sweep? && before <= landed && Grown(landed, after)
    ensures OnlyRead(seen, seen + [answer], before, after)
  {
  }

  lemma OnlyReadOn(a: seq<Observation>, b: seq<Observation>, c: seq<Observation>,
                   first: seq<Candidate>, second: seq<Candidate>, third: seq<Candidate>)
    requires OnlyRead(a, b, first, second) && OnlyRead(b, c, second, third)
    ensures OnlyRead(a, c, first, third)
  {
  }

  lemma GrownRepresents(before: seq<Candidate>, after: seq<Candidate>, urls: UrlRules, jobId: string, entityType: string,
                        found: seq<Discovered>)
    requires Grown(before, after) && AllRepresented(before, urls, jobId, entityType, found)
    ensures AllRepresented(after, urls, jobId, entityType, found)
  {
    forall j | 0 <= j < |found| ensures Represented(after, urls, jobId, entityType, found[j]) {
      assert Represented(before, urls, jobId, entityType, found[j]);
    }
  }

  /** A sweep does not depend on the phase it is made in. */
  lemma SweptWorking(job: Job, phase: Phase, seen: seq<Observation>, seen': seq<Observation>, candidates: seq<Candidate>,
                     urls: UrlRules)
    ensures forall sweeps ::
      SweptFirst(job.(phase := phase), sweeps, seen, seen', candidates, urls)
      <==> SweptFirst(job, sweeps, seen, seen', candidates, urls)
  {
  }

  lemma LandedKept(job: Job, boot: nat, start: seq<Candidate>, before: seq<Candidate>, after: seq<Candidate>,
                   found: seq<Discovered>, urls: UrlRules)
    requires Grown(before, after) && LandedFirst(job, boot, start, before, found, urls)
    ensures LandedFirst(job, boot, start, after, found, urls)
  {
    hide AllRepresented, CandidateType, Observed;
    GrownRepresents(before[..|start| + boot], after[..|start| + boot], urls, job.jobId, CandidateType(job), found);
    assert forall i :: |start| <= i < |start| + boot ==> after[i].url == before[i].url && after[i].jobId == before[i].jobId;
  }

  /** The drain undoes none of it. */
  lemma SweptStays(job: Job, seeded: bool, boot: nat, seen: seq<Observation>, seen': seq<Observation>, seen'': seq<Observation>,
                   start: seq<Candidate>, before: seq<Candidate>, after: seq<Candidate>, urls: UrlRules)
    requires SweptAll(job, seeded, boot, seen, seen', start, before, urls) && OnlyRead(seen', seen'', before, after)
    ensures SweptAll(job, seeded, boot, seen, seen'', start, after, urls)
  {
    hide AllRepresented, CandidateType, LandedFirst, Grown;
    forall k | |seen| <= k < |seen| + SweepsOf(job.phase, seeded)
      ensures AllRepresented(after, urls, job.jobId, CandidateType(job), seen''[k].found)
    {
      assert seen''[k] == seen'[k];
      GrownRepresents(before, after, urls, job.jobId, CandidateType(job), seen''[k].found);
    }
    if job.phase == Phase.Bootstrap && !seeded {
      assert seen''[|seen|] == seen'[|seen|];
      LandedKept(job, boot, start, before, after, seen'[|seen|].found, urls);
    }
  }

  /** The bootstrap's sweep, if it makes one, then that of the working phase. */
  lemma SweptInTurn(job: Job, seeded: bool, boot: nat, seen: seq<Observation>, mid: seq<Observation>, after: seq<Observation>,
                    start: seq<Candidate>, landed: seq<Candidate>, more: seq<Candidate>, urls: UrlRules)
    requires start <= landed <= more && boot == |landed| - |start|
    requires if job.phase == Phase.Bootstrap && !seeded
             then |mid| == |seen| + 1 && seen <= mid && mid[|seen|].Sweep?
                  && LandedFirst(job, boot, start, landed, mid[|seen|].found, urls)
             else mid == seen && boot == 0
    requires var sweeps := if Sweeping(PhaseHistory.WorkingPhase(job.phase)) then 1 else 0;
             |after| == |mid| + sweeps && SweptFirst(job, sweeps, mid, after, more, urls)
    ensures SweptAll(job, seeded, boot, seen, after, start, more, urls)
  {
    hide AllRepresented, CandidateType;
    if job.phase == Phase.Bootstrap && !seeded {
      assert landed[..|start| + boot] == landed;
      LandedKept(job, boot, start, landed, more, mid[|seen|].found, urls);
      GrownRepresents(landed, more, urls, job.jobId, CandidateType(job), mid[|seen|].found);
      assert after[|seen|] == mid[|seen|];
    }
  }

  /** The rows as the drain finds them: those interrupted are queued again, in an incremental job the stale
      ones too, with fresh attempts; the other old ones are as they were, and new ones are queued. */
  ghost predicate Prepared(job: Job, asOf: int, before: seq<Row>, after: seq<Row>) {
    var cutoff := Truncate(asOf - job.config.revalidateAfter);
    var stale := FetchQueue.StaleIds(before, job.jobId, cutoff, 500);
    && |before| <= |after|
    && (forall i :: 0 <= i < |before| ==>
          after[i] == if before[i].jobId == job.jobId && before[i].status == Fetching then before[i].(status := Queued)
                      else if job.phase == Incremental && i in stale then before[i].(status := Queued, attemptCount := 0)
                      else before[i])
    && (forall i :: |before| <= i < |after| ==> after[i].jobId == job.jobId && after[i].status == Queued)
  }

  /** Exactly the job's rows in flight were queued again. */
  ghost predicate Recovered(jobId: string, before: seq<Row>, after: seq<Row>) {
    && |after| == |before|
    && forall i :: 0 <= i < |before| ==>
         after[i] == if before[i].jobId == jobId && before[i].status == Fetching then before[i].(status := Queued) else before[i]
  }

  /** Rows that a recovery put back are not stale. */
  lemma PreparedSince(job: Job, asOf: int, before: seq<Row>, recovered: seq<Row>, after: seq<Row>)
    requires Recovered(job.jobId, before, recovered)
    requires Prepared(job, asOf, recovered, after)
    ensures Prepared(job, asOf, before, after)
  {
    FetchQueue.SameStaleIds(before, recovered, job.jobId, Truncate(asOf - job.config.revalidateAfter),
                            FetchQueue.REVALIDATION_LIMIT);
  }

  /** Adding queued rows after the revalidation, or before it, changes nothing about it. */
  lemma PreparedBy(job: Job, asOf: int, before: seq<Row>, revalidated: seq<Row>, after: seq<Row>)
    requires Appended(revalidated, after, job.jobId) && NoneInFlight(before, job.jobId) && |revalidated| == |before|
    requires var stale := FetchQueue.StaleIds(before, job.jobId, Truncate(asOf - job.config.revalidateAfter),
                                              FetchQueue.REVALIDATION_LIMIT);
             forall i :: 0 <= i < |before| ==>
               revalidated[i] == if job.phase == Incremental && i in stale then before[i].(status := Queued, attemptCount := 0)
                                 else before[i]
    ensures Prepared(job, asOf, before, after)
  {
    hide FetchQueue.StaleIds;
    assert forall i :: 0 <= i < |before| ==> !FetchQueue.InFlight(before[i], job.jobId) && after[i] == revalidated[i];
  }

  lemma PreparedThrough(job: Job, phase: Phase, asOf: int, start: seq<Row>, before: seq<Row>, after: seq<Row>)
    requires Appended(start, before, job.jobId) && Prepared(job.(phase := phase), asOf, before, after)
    requires phase == Incremental <==> job.phase == Incremental
    ensures Prepared(job, asOf, start, after)
  {
    hide FetchQueue.StaleIds, FetchQueue.Stale;
    var cutoff := Truncate(asOf - job.config.revalidateAfter);
    assert forall i :: 0 <= i < |start| ==> before[i] == start[i];
    QueuedNotStale(before, job.jobId, cutoff);
    FetchQueue.SameStaleIds(start, before, job.jobId, cutoff, FetchQueue.REVALIDATION_LIMIT);
    assert forall i :: |start| <= i < |before| ==> after[i] == before[i] by {
      NoneStale(before, |start|, job.jobId, cutoff);
    }
  }

  lemma QueuedNotStale(rows: seq<Row>, jobId: string, cutoff: int)
    ensures forall i :: 0 <= i < |rows| && rows[i].status == Queued ==> !FetchQueue.Stale(rows[i], jobId, cutoff)
  {
  }

  lemma NoneStale(rows: seq<Row>, n: nat, jobId: string, cutoff: int)
    requires n <= |rows| && forall i :: n <= i < |rows| ==> rows[i].status == Queued
    ensures forall i :: n <= i < |rows| ==> i !in FetchQueue.StaleIds(rows, jobId, cutoff, FetchQueue.REVALIDATION_LIMIT)
  {
  }

  /** At this point of the queue's log the rows were prepared, and nothing had been claimed yet. */
  ghost predicate PreparedAt(job: Job, trace: Trace, rows: seq<Row>, before: seq<Op>, after: seq<Op>) {
    && before <= after && |before| <= trace.fedAt <= |after|
    && Prepared(job, trace.asOf, rows, Replay(after[..trace.fedAt]))
    && TallyOf(after[..trace.fedAt]) == TallyOf(before).(requeues := TallyOf(before).requeues + trace.requeued)
  }

  lemma IsPreparedAt(job: Job, trace: Trace, rows: seq<Row>, before: seq<Op>, fed: seq<Op>, after: seq<Op>)
    requires before <= fed <= after && trace.fedAt == |fed| && Prepared(job, trace.asOf, rows, Replay(fed))
    requires TallyOf(fed) == TallyOf(before).(requeues := TallyOf(before).requeues + trace.requeued)
    ensures PreparedAt(job, trace, rows, before, after)
  {
    assert after[..trace.fedAt] == fed;
  }

  /** What the run recorded afterwards makes no difference. */
  lemma PreparedUnder(job: Job, trace: Trace, yielded: Yield, around: Circumstances, rows: seq<Row>, before: seq<Op>,
                      after: seq<Op>)
    requires PreparedAt(job, trace, rows, before, after)
    ensures PreparedAt(job, trace.(yielded := yielded, around := around), rows, before, after)
  {
  }

  /** Seen from before the recovery. */
  lemma PreparedAtSince(job: Job, trace: Trace, runId: nat, count: nat, rows: seq<Row>, recovered: seq<Row>,
                        before: seq<Op>, middle: seq<Op>, after: seq<Op>)
    requires Recovered(job.jobId, rows, recovered) && PreparedAt(job, trace, recovered, middle, after) && before <= middle
    requires TallyOf(middle) == TallyOf(before).(requeues := TallyOf(before).requeues + count)
    ensures PreparedAt(job, trace.(runId := Some(runId), requeued := trace.requeued + count), rows, before, after)
  {
    hide TallyOf, Prepared, Replay, Recovered;
    PreparedSince(job, trace.asOf, rows, recovered, Replay(after[..trace.fedAt]));
  }

  /** A row came from a fresh candidate, whose confidence is its priority. */
  ghost predicate PromotedFrom(candidates: seq<Candidate>, row: Row, urls: UrlRules) {
    exists i :: 0 <= i < |candidates| && IsFresh(candidates[i], row.jobId)
      && row.url == urls.normalize(candidates[i].url) && row.priority == PromotionPriority(candidates[i].confidence)
  }

  /** Candidates are stored under stable URLs. */
  ghost predicate Canonical(candidates: seq<Candidate>, urls: UrlRules) {
    forall i :: 0 <= i < |candidates| ==> urls.normalize(candidates[i].url) == candidates[i].url
  }

  /** The way back from a row to a candidate: the lookup by the row's URL finds one exactly if some
      candidate of the job is stored under it, as the row's own is unless its URL is unstable. */
  lemma PromotedIsFound(candidates: seq<Candidate>, row: Row, urls: UrlRules)
    requires PromotedFrom(candidates, row, urls)
    ensures Canonical(candidates, urls) ==> LatestByUrl(candidates, row.jobId, row.url).Some?
    ensures LatestByUrl(candidates, row.jobId, row.url).Some?
      <==> exists i :: 0 <= i < |candidates| && candidates[i].jobId == row.jobId && candidates[i].url == row.url
  {
  }

  /** A page with records settles the candidate that its URL finds, if any. */
  ghost predicate PageSettled(candidates: seq<Candidate>, jobId: string, url: string) {
    var found := LatestByUrl(candidates, jobId, url);
    found.Some? ==> candidates[found.value].status != Fresh
  }

  lemma {:induction false} LatestIgnoresStatus(before: seq<Candidate>, after: seq<Candidate>, jobId: string, url: string)
    requires Grown(before, after) && |after| == |before|
    ensures LatestByUrl(after, jobId, url) == LatestByUrl(before, jobId, url)
  {
    if before != [] {
      LatestIgnoresStatus(before[..|before| - 1], after[..|after| - 1], jobId, url);
    }
  }

  /** Only statuses changed, and only of the job's candidates with this URL. */
  ghost predicate Restatused(before: seq<Candidate>, after: seq<Candidate>, jobId: string, url: string) {
    && |after| == |before| && Grown(before, after)
    && forall i :: 0 <= i < |before| && (before[i].jobId != jobId || before[i].url != url) ==> after[i] == before[i]
  }

  lemma RestatusedKeeps(before: seq<Candidate>, after: seq<Candidate>, jobId: string, url: string)
    requires Restatused(before, after, jobId, url)
    ensures UniqueFingerprints(before) ==> UniqueFingerprints(after)
    ensures forall j :: CountOf(after, j) == CountOf(before, j)
  {
    forall j ensures CountOf(after, j) == CountOf(before, j) {
      CountIgnoresStatus(before, after, j);
    }
  }

  /** Settling the candidates of a tracked URL uncovers nothing. */
  lemma RestatusedCovered(before: seq<Candidate>, after: seq<Candidate>, rows: seq<Row>, jobId: string, url: string,
                          urls: UrlRules, lagging: set<string>)
    requires Restatused(before, after, jobId, url) && Covered(before, rows, urls, lagging) && Tracked(rows, jobId, url)
    ensures Covered(after, rows, urls, lagging)
  {
    forall i | 0 <= i < |after| && (after[i].status != Fresh || after[i].jobId !in lagging)
      ensures HasRow(rows, after[i], urls)
    {
      if after[i] == before[i] {
        assert HasRow(rows, before[i], urls);
      }
    }
  }

  lemma RestatusedRepresents(before: seq<Candidate>, after: seq<Candidate>, jobId: string, url: string, urls: UrlRules,
                             entityType: string, found: seq<Discovered>)
    requires Restatused(before, after, jobId, url) && AllRepresented(before, urls, jobId, entityType, found)
    ensures AllRepresented(after, urls, jobId, entityType, found)
  {
  }

  /** The `persist` calls a page's records lead to. */
  function CallsOf(job: Job, records: seq<Entities.Record>, url: string, domain: string): seq<Persistence.Call> {
    seq(|records|, i requires 0 <= i < |records| =>
      Persistence.Call(job.jobId, records[i], url, Some(domain), job.config.collectorType))
  }

  /** The pipeline passes the page's URL, so all its records can be recognized again. */
  lemma CallsIdentified(lib: Entities.Library, job: Job, records: seq<Entities.Record>, url: string, domain: string)
    requires url != "" && NeverEmpties(lib.urls) && Fingerprint.IdealHash(lib.sha)
    ensures forall k :: 0 <= k < |records| ==> PersistenceHistory.Identified(lib, CallsOf(job, records, url, domain)[k])
  {
    forall k | 0 <= k < |records| ensures PersistenceHistory.Identified(lib, CallsOf(job, records, url, domain)[k]) {
      PersistenceHistory.SourceUrlIdentifies(lib, CallsOf(job, records, url, domain)[k]);
    }
  }

  /** The calls of a tracked page carry its URL. */
  lemma CallsNamed(before: seq<Candidate>, after: seq<Candidate>, rows: seq<Row>, calls: seq<Persistence.Call>, job: Job,
                   records: seq<Entities.Record>, url: string, domain: string, urls: UrlRules)
    requires UrlsNamed(before, rows, calls, urls) && Grown(before, after) && |after| == |before|
    requires Tracked(rows, job.jobId, url)
    ensures UrlsNamed(after, rows, calls + CallsOf(job, records, url, domain), urls)
  {
    forall i | 0 <= i < |after| ensures after[i].url != "" {
      assert after[i].url == before[i].url;
    }
  }

  lemma BacklogKept(before: seq<Candidate>, after: seq<Candidate>, backlog: set<string>)
    requires BacklogLarge(before, backlog) && forall j :: CountOf(after, j) == CountOf(before, j)
    ensures BacklogLarge(after, backlog)
  {
  }

  /** A job whose candidates have just been landed lags behind until its next promotion. */
  lemma LandedCovered(before: seq<Candidate>, after: seq<Candidate>, created: seq<Discovered>, rows: seq<Row>, jobId: string,
                      entityType: string, found: seq<Discovered>, urls: UrlRules, lagging: set<string>)
    requires before <= after && Landed(after[|before|..], created, urls, jobId, entityType, found)
    requires Covered(before, rows, urls, lagging) && jobId in lagging
    ensures Covered(after, rows, urls, lagging)
    ensures forall i :: |before| <= i < |after| ==> after[i].url != ""
  {
    assert forall i :: |before| <= i < |after| ==> after[i] == after[|before|..][i - |before|];
  }

  ghost predicate SeedsTracked(rows: seq<Row>, job: Job, urls: UrlRules) {
    AllTracked(job.config.seedUrls, rows, job.jobId, urls)
  }

  /** The URLs the job tracks. */
  function TrackedUrls(rows: seq<Row>, jobId: string): set<string> {
    set i | 0 <= i < |rows| && rows[i].jobId == jobId :: rows[i].url
  }

  /** What a job tracks once these seeds are queued. */
  function TrackedWith(tracked: set<string>, seeds: seq<string>, urls: UrlRules): set<string> {
    if seeds == [] then tracked
    else
      var before, url := TrackedWith(tracked, seeds[..|seeds| - 1], urls), urls.normalize(seeds[|seeds| - 1]);
      if url == "" then before else before + {url}
  }

  /** The seeds reported as newly queued: those whose normalized URL, normalized once more, is not
      tracked when their turn comes. */
  function Reported(seeds: seq<string>, tracked: set<string>, urls: UrlRules): seq<string> {
    if seeds == [] then []
    else
      var front, url := seeds[..|seeds| - 1], urls.normalize(seeds[|seeds| - 1]);
      var before := Reported(front, tracked, urls);
      if url != "" && urls.normalize(url) !in TrackedWith(tracked, front, urls) then before + [url] else before
  }

  lemma TrackedUrlsAre(rows: seq<Row>, jobId: string, url: string)
    ensures Tracked(rows, jobId, url) <==> url in TrackedUrls(rows, jobId)
  {
  }

  lemma TrackedUrlsAdd(before: seq<Row>, after: seq<Row>, jobId: string, url: string)
    requires before <= after && forall k :: |before| <= k < |after| ==> after[k].jobId == jobId && after[k].url == url
    requires Tracked(after, jobId, url)
    ensures TrackedUrls(after, jobId) == TrackedUrls(before, jobId) + {url}
  {
    TrackedUrlsAre(after, jobId, url);
    forall u ensures u in TrackedUrls(after, jobId) <==> u in TrackedUrls(before, jobId) + {url} {
      if u in TrackedUrls(before, jobId) {
        var i :| 0 <= i < |before| && before[i].jobId == jobId && before[i].url == u;
        assert after[i] == before[i];
      }
    }
  }

  ghost predicate SeedsStable(seeds: seq<string>, urls: UrlRules) {
    forall i :: 0 <= i < |seeds| ==> Stable(urls, seeds[i])
  }

  ghost predicate AllTracked(seeds: seq<string>, rows: seq<Row>, jobId: string, urls: UrlRules) {
    forall i :: 0 <= i < |seeds| && urls.normalize(seeds[i]) != "" ==> Tracked(rows, jobId, urls.normalize(seeds[i]))
  }

  /** What queueing these seeds did: exactly they are tracked besides what was before, new rows have the
      job's priority, nothing changed if all were tracked before, and the report is exact. */
  ghost predicate SeedsQueued(seeds: seq<string>, before: seq<Row>, after: seq<Row>, reported: seq<string>, job: Job,
                              urls: UrlRules)
  {
    && Appended(before, after, job.jobId)
    && AllTracked(seeds, after, job.jobId, urls)
    && TrackedUrls(after, job.jobId) == TrackedWith(TrackedUrls(before, job.jobId), seeds, urls)
    && (forall i :: |before| <= i < |after| ==> after[i].priority == job.config.priority)
    && (AllTracked(seeds, before, job.jobId, urls) ==> after == before)
    && reported == Reported(seeds, TrackedUrls(before, job.jobId), urls)
    && (SeedsStable(seeds, urls) ==>
          && |reported| == |after| - |before|
          && forall k :: 0 <= k < |reported| ==> reported[k] == after[|before| + k].url)
  }

  lemma NoSeedsQueued(rows: seq<Row>, job: Job, urls: UrlRules)
    ensures SeedsQueued([], rows, rows, [], job, urls)
  {
  }

  lemma SeedsQueuedKeeps(seeds: seq<string>, before: seq<Row>, after: seq<Row>, reported: seq<string>, job: Job, urls: UrlRules)
    requires SeedsQueued(seeds, before, after, reported, job, urls)
    ensures OwnRows(before, after, job.jobId) && AllTracked(seeds, after, job.jobId, urls)
    ensures NoneInFlight(before, job.jobId) ==> NoneInFlight(after, job.jobId)
  {
  }

  lemma SeedsQueuedNext(seeds: seq<string>, i: nat, start: seq<Row>, before: seq<Row>, after: seq<Row>, reported: seq<string>,
                        reported': seq<string>, job: Job, urls: UrlRules)
    requires i < |seeds| && SeedsQueued(seeds[..i], start, before, reported, job, urls) && Appended(before, after, job.jobId)
    requires forall k :: |before| <= k < |after| ==>
      after[k].priority == job.config.priority && after[k].url == urls.normalize(seeds[i])
    requires urls.normalize(seeds[i]) == "" ==> after == before && reported' == reported
    requires urls.normalize(seeds[i]) != "" ==>
      && Tracked(after, job.jobId, urls.normalize(seeds[i]))
      && |after| == |before| + (if Tracked(before, job.jobId, urls.normalize(seeds[i])) then 0 else 1)
      && reported' == reported + if Tracked(before, job.jobId, urls.normalize(urls.normalize(seeds[i]))) then []
                                 else [urls.normalize(seeds[i])]
    ensures SeedsQueued(seeds[..i + 1], start, after, reported', job, urls)
  {
    var url, upTo := urls.normalize(seeds[i]), seeds[..i + 1];
    assert upTo[..i] == seeds[..i] && upTo[i] == seeds[i];
    if url != "" {
      TrackedUrlsAdd(before, after, job.jobId, url);
      TrackedUrlsAre(before, job.jobId, urls.normalize(url));
    }
    forall k | 0 <= k < |upTo| && urls.normalize(upTo[k]) != "" ensures Tracked(after, job.jobId, urls.normalize(upTo[k])) {
      if k < i {
        assert seeds[..i][k] == upTo[k];
        TrackedKept(before, after, job.jobId, urls.normalize(upTo[k]));
      }
    }
    if AllTracked(upTo, start, job.jobId, urls) {
      assert forall k :: 0 <= k < i ==> seeds[..i][k] == upTo[k];
    }
    if SeedsStable(upTo, urls) {
      assert forall k :: 0 <= k < i ==> seeds[..i][k] == upTo[k];
      assert Stable(urls, upTo[i]);
    }
  }

  lemma {:induction false} TrackedWithMore(tracked: set<string>, seeds: seq<string>, urls: UrlRules)
    ensures tracked <= TrackedWith(tracked, seeds, urls)
  {
    if seeds != [] { TrackedWithMore(tracked, seeds[..|seeds| - 1], urls); }
  }

  lemma {:induction false} StableSeedsUnreported(seeds: seq<string>, tracked: set<string>, urls: UrlRules)
    requires forall i :: 0 <= i < |seeds| && urls.normalize(seeds[i]) != "" ==>
      Stable(urls, seeds[i]) && urls.normalize(seeds[i]) in tracked
    ensures Reported(seeds, tracked, urls) == []
  {
    if seeds != [] {
      StableSeedsUnreported(seeds[..|seeds| - 1], tracked, urls);
      TrackedWithMore(tracked, seeds[..|seeds| - 1], urls);
    }
  }

  /** A seed with a space before its fragment is tracked, and yet reported on every call. */
  lemma UnstableSeedReported(codec: Codec, tracked: set<string>)
    requires NormalizeText(codec, "http://x/a #f") == "http://x/a " && NormalizeText(codec, "http://x/a ") == "http://x/a"
    requires "http://x/a " in tracked && "http://x/a" !in tracked
    ensures Reported(["http://x/a #f"], tracked, UrlText(codec)) == ["http://x/a "]
  {
    assert ["http://x/a #f"][..0] == [];
  }

  lemma SeedsKept(before: seq<Row>, after: seq<Row>, job: Job, urls: UrlRules)
    requires SeedsTracked(before, job, urls) && OwnRows(before, after, job.jobId)
    ensures SeedsTracked(after, job, urls)
  {
  }

  // ---------------------------------------------------------------------
  // Domains waiting in the queue
  // ---------------------------------------------------------------------

  /** `SELECT DISTINCT domain ... WHERE status='queued'` */
  function QueuedDomains(rows: seq<Row>, jobId: string): (r: seq<string>)
    ensures forall d :: d in r <==> exists i :: 0 <= i < |rows| && FetchQueue.Pending(rows[i], jobId) && rows[i].domain == d
    ensures forall i, j :: 0 <= i < j < |r| ==> r[i] != r[j]
  {
    if rows == [] then []
    else
      var last := rows[|rows| - 1];
      var before := QueuedDomains(rows[..|rows| - 1], jobId);
      assert forall i :: 0 <= i < |rows| - 1 ==> rows[i] == rows[..|rows| - 1][i];
      if FetchQueue.Pending(last, jobId) && last.domain !in before then before + [last.domain] else before
  }

  /** Nothing can be claimed: every due row of the job waits for a domain that stays closed from
      the survey until the shortest wait is over. */
  ghost predicate Stuck(rows: seq<Row>, limits: map<string, Limit>, jobId: string, delay: int, wait: Option<int>, surveyed: int,
                        now: int)
  {
    forall i :: 0 <= i < |rows| && FetchQueue.Pending(rows[i], jobId) && Due(rows[i], now) ==>
      wait.Some? && rows[i].domain in limits && ClosedUntil(limits[rows[i].domain], delay, surveyed + wait.value)
  }

  /** One sleep: the tables at the survey before it, which took from `surveyed` to `at`, and the
      shortest wait that the survey found. */
  datatype Nap = Nap(rows: seq<Row>, limits: map<string, Limit>, wait: int, surveyed: int, at: int)

  /** There was nothing to claim before the wait was over. */
  ghost predicate Justified(nap: Nap, job: Job) {
    && nap.wait > 0 && nap.surveyed <= nap.at
    && Stuck(nap.rows, nap.limits, job.jobId, job.config.rateLimit, Some(nap.wait), nap.surveyed, nap.at)
  }

  function NapTotal(naps: seq<Nap>): int {
    if naps == [] then 0 else NapTotal(naps[..|naps| - 1]) + naps[|naps| - 1].wait
  }

  /** Justified sleeps one after the other between two times, over states of the queue in between. */
  ghost predicate Napped(naps: seq<Nap>, job: Job, early: int, late: int, before: seq<Row>, after: seq<Row>) {
    && (forall k :: 0 <= k < |naps| ==>
          && Justified(naps[k], job) && KeepsRows(before, naps[k].rows) && KeepsRows(naps[k].rows, after)
          && early <= naps[k].surveyed && naps[k].at + naps[k].wait <= late)
    && (forall k :: 0 < k < |naps| ==> naps[k - 1].at + naps[k - 1].wait <= naps[k].surveyed)
  }

  lemma NoNaps(job: Job, now: int, rows: seq<Row>)
    ensures Napped([], job, now, now, rows, rows) && NapTotal([]) == 0
  {
  }

  lemma NappedOn(naps: seq<Nap>, job: Job, early: int, late: int, start: seq<Row>, before: seq<Row>, after: seq<Row>, until: int)
    requires Napped(naps, job, early, late, start, before) && KeepsRows(before, after) && late <= until
    ensures Napped(naps, job, early, late, start, after) && Napped(naps, job, early, until, start, after)
  {
  }

  /** Seen from an earlier state, and whatever the job's phase, it is the same. */
  lemma NappedSince(naps: seq<Nap>, job: Job, phase: Phase, since: int, early: int, late: int, earlier: seq<Row>,
                    before: seq<Row>, after: seq<Row>)
    requires Napped(naps, job, early, late, before, after) && since <= early && KeepsRows(earlier, before)
    ensures Napped(naps, job.(phase := phase), since, late, earlier, after)
  {
  }

  lemma NapTaken(naps: seq<Nap>, nap: Nap, job: Job, early: int, late: int, before: seq<Row>)
    requires Napped(naps, job, early, nap.surveyed, before, nap.rows) && early <= nap.surveyed && KeepsRows(before, nap.rows)
    requires Justified(nap, job) && nap.at + nap.wait <= late
    ensures Napped(naps + [nap], job, early, late, before, nap.rows)
    ensures NapTotal(naps + [nap]) == NapTotal(naps) + nap.wait
  {
    assert (naps + [nap])[..|naps|] == naps;
  }

  /** How a drain went: its attempts and sleeps, the shortest wait and the begin of its last survey, and
      when it stopped. */
  datatype Drain = Drain(attempts: nat, naps: seq<Nap>, wait: Option<int>, surveyed: int, stopped: int)

  lemma StuckUnclaimed(rows: seq<Row>, limits: map<string, Limit>, jobId: string, delay: int, ready: set<string>,
                       wait: Option<int>, surveyed: int, now: int)
    requires exists t :: Surveyed(limits, QueuedDomains(rows, jobId), ready, wait, delay, surveyed, t)
    requires ready == {} || FetchQueue.Best(rows, jobId, Some(ready), now).None?
    ensures Stuck(rows, limits, jobId, delay, wait, surveyed, now)
  {
  }

  // ---------------------------------------------------------------------
  // Around a run
  // ---------------------------------------------------------------------

  /** The latest run's errors per fetch; zero when it counts none. */
  function ErrorRate(runs: seq<RunRow>, jobId: string): real {
    match LatestRun(runs, jobId)
    case None => 0.0
    case Some(id) =>
      var fetched, errors := CounterOf(runs[id], FetchedCount), CounterOf(runs[id], ErrorCount);
      if fetched == 0 then 0.0 else errors as real / fetched as real
  }

  /** The rate is that of the job's last run row, and zero as long as that counts no fetch. */
  lemma ErrorRateIs(runs: seq<RunRow>, jobId: string, last: nat)
    requires last < |runs| && runs[last].jobId == jobId && forall i :: last < i < |runs| ==> runs[i].jobId != jobId
    ensures var counts := runs[last].counts;
            if FetchedCount in counts && counts[FetchedCount] != 0 then
              ErrorRate(runs, jobId) * counts[FetchedCount] as real
              == if ErrorCount in counts then counts[ErrorCount] as real else 0.0
            else ErrorRate(runs, jobId) == 0.0
  {
  }

  /** What the phase decision reads besides the recorded runs. */
  ghost function CircumstancesOf(job: Job, rows: seq<Row>, entities: seq<Entities.Entity>, review: seq<ReviewRow>,
                                 runs: seq<RunRow>): Circumstances
  {
    Circumstances(forall i :: 0 <= i < |rows| ==> !FetchQueue.Pending(rows[i], job.jobId), Entities.CountFor(entities, job.jobId),
                  ErrorRate(runs, job.jobId), OpenCount(review, job.jobId), job.config.conditions)
  }

  /** A run that has just started shows no errors, whatever it met. */
  lemma FreshRunHasNoErrors(runs: seq<RunRow>, jobId: string, now: int)
    ensures ErrorRate(runs + [NewRun(jobId, now)], jobId) == 0.0
  {
  }

  /** The checkpoint only ever names runs of its own job. */
  ghost predicate NamesOwnRuns(checkpoints: map<string, Checkpoint>, runs: seq<RunRow>) {
    forall j :: j in checkpoints && checkpoints[j].state.currentRunId.Some? ==>
      checkpoints[j].state.currentRunId.value < |runs| && runs[checkpoints[j].state.currentRunId.value].jobId == j
  }

  /** The checkpoint names this running run. */
  ghost predicate Names(checkpoints: map<string, Checkpoint>, runs: seq<RunRow>, jobId: string, runId: nat) {
    && jobId in checkpoints && checkpoints[jobId].state.currentRunId == Some(runId)
    && IsRunning(runs, runId) && runs[runId].jobId == jobId
  }

  /** No other job's checkpoint changed. */
  ghost predicate OwnCheckpoint(before: map<string, Checkpoint>, after: map<string, Checkpoint>, jobId: string) {
    forall j :: j != jobId ==> Loaded(after, j) == Loaded(before, j)
  }

  lemma OwnCheckpointSelf(rows: map<string, Checkpoint>, jobId: string)
    ensures OwnCheckpoint(rows, rows, jobId)
  {
  }

  lemma OwnCheckpointSaved(before: map<string, Checkpoint>, after: map<string, Checkpoint>, jobId: string)
    requires jobId in after && after == before[jobId := after[jobId]]
    ensures OwnCheckpoint(before, after, jobId)
  {
  }

  lemma OwnCheckpointOn(a: map<string, Checkpoint>, b: map<string, Checkpoint>, c: map<string, Checkpoint>, jobId: string)
    requires OwnCheckpoint(a, b, jobId) && OwnCheckpoint(b, c, jobId)
    ensures OwnCheckpoint(a, c, jobId)
  {
  }

  /** No other job's recorded runs changed. */
  ghost predicate OwnYields(before: seq<DiscoveryRow>, after: seq<DiscoveryRow>, jobId: string) {
    forall j :: j != jobId ==> YieldsOf(after, j) == YieldsOf(before, j)
  }

  lemma OwnYieldsSelf(rows: seq<DiscoveryRow>, jobId: string)
    ensures OwnYields(rows, rows, jobId)
  {
  }

  /** The job's phase, streak and recorded runs as the tables have them; which of the runs were saved
      is not stored. */
  function StateOf(jobs: JobRegistry.JobTable, checkpoints: map<string, Checkpoint>, discovery: seq<DiscoveryRow>,
                   jobId: string): PhaseHistory.JobState
    requires jobId in jobs
  {
    PhaseHistory.JobState(jobs[jobId].phase, Loaded(checkpoints, jobId).state.lowDiscoveryStreak, YieldsOf(discovery, jobId), [])
  }

  /** The run that a new execution continues: the one its checkpoint names, if still running. */
  function Resumable(checkpoints: map<string, Checkpoint>, runs: seq<RunRow>, jobId: string): Option<nat> {
    var named := Loaded(checkpoints, jobId).state.currentRunId;
    if named.Some? && IsRunning(runs, named.value) then named else None
  }

  /** The execution continued a running row or inserted one; it changed nothing else. */
  ghost predicate Opened(checkpoints: map<string, Checkpoint>, before: seq<RunRow>, after: seq<RunRow>, jobId: string,
                         runId: nat)
  {
    match Resumable(checkpoints, before, jobId)
    case Some(id) => runId == id && after == before
    case None => runId == |before| && exists now :: after == before + [NewRun(jobId, now)]
  }

  /** Rows keep their start, and new ones began between the two times. */
  ghost predicate RunsBegun(before: seq<RunRow>, after: seq<RunRow>, early: int, late: int) {
    && |before| <= |after| && (forall i :: 0 <= i < |before| ==> after[i].startedAt == before[i].startedAt)
    && (forall i :: |before| <= i < |after| ==> early - MICROS < after[i].startedAt * MICROS <= late)
  }

  lemma RunsBegunWithin(before: seq<RunRow>, after: seq<RunRow>, early: int, late: int, since: int, until: int)
    requires RunsBegun(before, after, early, late) && since <= early && late <= until
    ensures RunsBegun(before, after, since, until)
  {
  }

  /** What one run did, beyond its outcome. */
  datatype Trace = Trace(runId: Option<nat>, boot: nat, requeued: nat, asOf: int, fedAt: nat, drain: Drain, lagging: bool,
                         yielded: Yield, around: Circumstances)

  /** `int(50 + confidence * 50)` */
  function PromotionPriority(confidence: real): int {
    var p := 50.0 + confidence * 50.0;
    if p >= 0.0 then p.Floor else -((-p).Floor)
  }

  /** The more confident, the sooner: from 50 without any confidence to 100 with all of it, cut to whole numbers. */
  lemma PriorityFollowsConfidence(low: real, high: real)
    requires low <= high
    ensures PromotionPriority(low) <= PromotionPriority(high)
    ensures PromotionPriority(0.0) == 50 && PromotionPriority(1.0) == 100
    ensures low >= -1.0 ==> PromotionPriority(low) as real <= 50.0 + 50.0 * low < PromotionPriority(low) as real + 1.0
  {
  }

  /** A run never counts more new candidates than the job has. */
  lemma NewWithinTotal(opening: Books, trace: Trace, b: Books)
    requires Conserved(opening.Seeded(trace.boot).Requeued(trace.requeued), b, 0)
    requires opening.discovered == 0 <= opening.candidates
    ensures 0 <= b.discovered <= b.candidates
  {
  }

  /** The candidate status that a persistence outcome settles. */
  function SettledStatus(result: Persistence.Outcome): CandidateStatus {
    match result
    case Skipped => Rejected
    case Invalid(_) => UnderReview
    case Inserted(_) => Accepted
    case Updated(_) => Duplicate
    case Ambiguous(_, _) => UnderReview
  }

  /** The review row that a persistence outcome files, if any. */
  function Filed(jobId: string, result: Persistence.Outcome, candidate: Option<nat>): seq<ReviewRow> {
    match result
    case Invalid(missing) =>
      [ReviewRow(jobId, if missing then MissingRequiredField else ParseFailure, None, candidate, true)]
    case Ambiguous(id, _) => [ReviewRow(jobId, DuplicateAmbiguity, Some(id), candidate, true)]
    case _ => []
  }

  lemma PersistedSize(lib: Entities.Library, db: Persistence.Tables, call: Persistence.Call)
    ensures var (after, result) := Persistence.Persisted(lib, db, call);
            && |after.entities| == |db.entities| + (if result.Inserted? then 1 else 0)
            && (result.Skipped? <==> call.record.skip)
  {
  }

  /** The candidate's status is the one that the last of the calls settles. */
  ghost predicate SettledBy(candidates: seq<Candidate>, id: nat, lib: Entities.Library, calls: seq<Persistence.Call>) {
    calls != [] && id < |candidates| &&
    candidates[id].status
      == SettledStatus(Persistence.Persisted(lib, PersistenceHistory.After(lib, EMPTY_TABLES, calls[..|calls| - 1]),
                                             calls[|calls| - 1]).1)
  }

  /** Exactly the page's own candidate, if it has one, changed, and only its status. */
  ghost predicate SettledOnly(result: Persistence.Outcome, candidate: Option<nat>, before: seq<Candidate>,
                              after: seq<Candidate>)
  {
    && |after| == |before|
    && forall i :: 0 <= i < |before| ==>
         after[i] == if candidate == Some(i) then before[i].(status := SettledStatus(result)) else before[i]
  }

  /** Each listed candidate has a queue row. */
  ghost predicate PromotedAll(candidates: seq<Candidate>, ids: seq<nat>, rows: seq<Row>, jobId: string, urls: UrlRules) {
    forall k :: 0 <= k < |ids| ==> ids[k] < |candidates| && Tracked(rows, jobId, urls.normalize(candidates[ids[k]].url))
  }

  lemma PromotedNext(candidates: seq<Candidate>, ids: seq<nat>, k: nat, before: seq<Row>, after: seq<Row>, jobId: string,
                     urls: UrlRules, id: nat)
    requires k < |ids| && ids[k] < |candidates| && before <= after
    requires PromotedAll(candidates, ids[..k], before, jobId, urls)
    requires id < |after| && after[id].jobId == jobId && after[id].url == urls.normalize(candidates[ids[k]].url)
    ensures PromotedAll(candidates, ids[..k + 1], after, jobId, urls)
  {
  }

  ghost predicate PromotedRows(candidates: seq<Candidate>, start: nat, rows: seq<Row>, urls: UrlRules) {
    forall i :: start <= i < |rows| ==> PromotedFrom(candidates, rows[i], urls)
  }

  lemma PromotedNothing(candidates: seq<Candidate>, rows: seq<Row>, jobId: string, urls: UrlRules)
    ensures PromotedAll(candidates, [], rows, jobId, urls) && PromotedRows(candidates, |rows|, rows, urls)
  {
  }

  lemma PromotedRowsNext(candidates: seq<Candidate>, start: nat, before: seq<Row>, after: seq<Row>, jobId: string, urls: UrlRules,
                         id: nat, candidate: nat)
    requires PromotedRows(candidates, start, before, urls) && before <= after && |after| <= |before| + 1
    requires candidate < |candidates| && IsFresh(candidates[candidate], jobId)
    requires |after| > |before| ==>
      id == |before| && after[id].jobId == jobId && after[id].url == urls.normalize(candidates[candidate].url)
      && after[id].priority == PromotionPriority(candidates[candidate].confidence)
    ensures PromotedRows(candidates, start, after, urls)
  {
  }

  /** A promotion that took every fresh candidate of the job lets it catch up. */
  lemma PromotionCovers(candidates: seq<Candidate>, ids: seq<nat>, before: seq<Row>, after: seq<Row>, jobId: string,
                        urls: UrlRules,
                        lagging: set<string>)
    requires before <= after && Covered(candidates, before, urls, lagging)
    requires PromotedAll(candidates, ids, after, jobId, urls)
    requires forall i: nat :: i < |candidates| && IsFresh(candidates[i], jobId) ==> i in ids
    ensures Covered(candidates, after, urls, lagging - {jobId})
  {
    CoveredKept(candidates, before, after, urls, lagging);
    forall i: nat | i < |candidates| && IsFresh(candidates[i], jobId) ensures HasRow(after, candidates[i], urls) {
      var k :| 0 <= k < |ids| && ids[k] == i;
    }
  }
}
