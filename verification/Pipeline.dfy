/** One bounded unit of work of a job: seed, discover, promote, drain, decide the phase. */
module Pipeline {
  import opened Common
  import opened UrlNormalization
  import opened QueueLog
  import opened RateLimiter
  import opened Candidates
  import opened Surroundings
  import opened Phases
  import opened CrawlState
  import JobRegistry
  import Entities
  import Persistence
  import PersistenceHistory
  import PhaseHistory
  import FetchQueue
  import Fingerprint
  import RunHistory
  import Checkpoints

  class BaseCollector {
    const lib: Entities.Library
    const world: World
    const clock: Clock
    const jobs: JobRegistry.JobRegistry
    const candidates: CandidateStore
    const queue: FetchQueue.FetchQueue
    const limiter: DomainRateLimiter
    const entities: Entities.EntityStore
    const evidence: Entities.EvidenceStore
    const review: ReviewQueue
    const runHistory: RunHistory.RunHistoryStore
    const checkpoints: Checkpoints.CheckpointStore
    const persistence: Persistence.PersistenceService
    const discovery: DiscoveryEngine

    /** The jobs whose latest promotion had more fresh candidates than its limit. */
    ghost var backlog: set<string>

    /** Every `persist` call so far. */
    ghost var calls: seq<Persistence.Call>

    /** An empty database. */
    constructor (lib: Entities.Library)
      ensures Valid() && this.lib == lib && backlog == {} && calls == []
      ensures queue.rows == [] && queue.log == [] && candidates.rows == [] && entities.rows == []
      ensures runHistory.runs == [] && checkpoints.rows == map[] && jobs.rows == map[]
      ensures fresh(queue) && fresh(limiter) && fresh(clock) && fresh(candidates) && fresh(entities) && fresh(evidence)
      ensures fresh(world)
      ensures fresh(review) && fresh(runHistory) && fresh(checkpoints) && fresh(jobs)
    {
      hide UrlsNamed, BacklogLarge, Covered, Paced, UniqueFingerprints, Legal, Capped, PersistenceHistory.After, Replay;
      var candidateStore := new CandidateStore();
      var entityStore := new Entities.EntityStore();
      var evidenceStore := new Entities.EvidenceStore();
      this.lib := lib;
      world := new World();
      clock := new Clock();
      jobs := new JobRegistry.JobRegistry();
      candidates, entities, evidence := candidateStore, entityStore, evidenceStore;
      queue := new FetchQueue.FetchQueue(lib.urls);
      limiter := new DomainRateLimiter();
      review := new ReviewQueue();
      runHistory := new RunHistory.RunHistoryStore();
      checkpoints := new Checkpoints.CheckpointStore();
      persistence := new Persistence.PersistenceService(lib, entityStore, evidenceStore);
      discovery := new DiscoveryEngine(lib.urls, candidateStore);
      backlog, calls := {}, [];
      new;
      EmptyTables(lib.urls, clock.now);
      NothingReplayed(lib);
    }

    static lemma NothingReplayed(lib: Entities.Library)
      ensures Replay([]) == [] && PersistenceHistory.After(lib, EMPTY_TABLES, []) == EMPTY_TABLES
    {
    }

    ghost predicate Wired()
    {
      && queue.urls == lib.urls && discovery.urls == lib.urls && discovery.candidates == candidates
      && persistence.lib == lib && persistence.entities == entities && persistence.evidence == evidence
    }

    /** The entity tables are the outcome of the recorded calls. */
    ghost predicate Replayed()
      reads entities, evidence, this`calls
    {
      Persistence.Tables(entities.rows, evidence.rows) == PersistenceHistory.After(lib, EMPTY_TABLES, calls)
    }

    /** Legal queue, paced requests, unique candidates, replayable entities. */
    ghost predicate Core()
      reads queue, limiter, clock, candidates, entities, evidence, this`calls, this`backlog
    {
      && Wired()
      && queue.Valid() && Legal(queue.log) && Capped(queue.rows)
      && Paced(limiter.rows, limiter.requests, clock.now)
      && UniqueFingerprints(candidates.rows) && BacklogLarge(candidates.rows, backlog)
      && Replayed()
      && UrlsNamed(candidates.rows, queue.rows, calls, lib.urls)
    }

    /** Candidates have queue rows, but for the fresh ones of jobs with a backlog. */
    ghost predicate Valid()
      reads queue, limiter, clock, candidates, entities, evidence, this`calls, this`backlog
    {
      Core() && Covered(candidates.rows, queue.rows, lib.urls, backlog)
    }

    /** The state between landing candidates of a job and promoting them. */
    ghost predicate Landing(jobId: string)
      reads queue, limiter, clock, candidates, entities, evidence, this`calls, this`backlog
    {
      Core() && Covered(candidates.rows, queue.rows, lib.urls, backlog + {jobId})
    }

    ghost function Snapshot(outcome: RunOutcome, jobId: string): Books
      reads outcome, entities, review, candidates, queue, limiter, this`calls
    {
      Books(outcome.fetched, outcome.inserted, outcome.updated, outcome.duplicates, outcome.reviewed, outcome.errors,
            outcome.discovered, |entities.rows|, Merges(lib, calls), |review.rows|, CountOf(candidates.rows, jobId),
            |limiter.requests|, TallyOf(queue.log))
    }

    /** Reading the clock breaks nothing. */
    method Now() returns (now: int)
      requires Core()
      modifies clock
      ensures Core() && now == clock.now >= old(clock.now)
    {
      ghost var before := clock.now;
      now := clock.Read();
      OtherWritesKeepPace(limiter.rows, limiter.rows, limiter.requests, before, now);
    }

    // -----------------------------------------------------------------
    // Seeds and promotion
    // -----------------------------------------------------------------

    /** Enqueues one URL of the job at the current time. */
    method Track(job: Job, url: string, priority: int) returns (id: nat)
      requires Core() && (NeverEmpties(lib.urls) ==> lib.urls.normalize(url) != "")
      modifies queue, clock
      ensures Core() && clock.now >= old(clock.now)
      ensures Appended(old(queue.rows), queue.rows, job.jobId) && OnlyAdds(old(queue.log), queue.log)
      ensures id < |queue.rows| && queue.rows[id].jobId == job.jobId && queue.rows[id].url == lib.urls.normalize(url)
      ensures |queue.rows| == |old(queue.rows)| + if old(Tracked(queue.rows, job.jobId, lib.urls.normalize(url))) then 0 else 1
      ensures |queue.rows| == |old(queue.rows)| ==> queue.log == old(queue.log)
      ensures |queue.rows| > |old(queue.rows)| ==> id == |old(queue.rows)| && queue.rows[id].priority == priority
    {
      hide Legal, Replay, Paced, Replayed, UniqueFingerprints, BacklogLarge, UrlsNamed, NeverEmpties, Tracked;
      ghost var before := queue.rows;
      var now := Now();
      id := queue.Enqueue(job.jobId, url, priority, FetchQueue.DEFAULT_MAX_ATTEMPTS, now);
      UrlsNamedGrow(candidates.rows, before, queue.rows, calls, lib.urls);
    }

    /** Queues every configured seed; a seed tracked already, in any status, is left alone. */
    method EnsureSeedUrlsQueued(job: Job) returns (newlyQueued: seq<string>)
      requires Valid()
      modifies queue, clock
      ensures Valid() && clock.now >= old(clock.now)
      ensures OnlyAdds(old(queue.log), queue.log) && TallyOf(queue.log) == TallyOf(old(queue.log))
      ensures queue.rows == old(queue.rows) ==> queue.log == old(queue.log)
      ensures SeedsQueued(job.config.seedUrls, old(queue.rows), queue.rows, newlyQueued, job, lib.urls)
    {
      hide Core, Covered, SeedsQueued, TallyOf, Reported;
      newlyQueued := [];
      var seeds := job.config.seedUrls;
      NoSeedsQueued(queue.rows, job, lib.urls);
      for i := 0 to |seeds|
        invariant Core() && clock.now >= old(clock.now)
        invariant OnlyAdds(old(queue.log), queue.log)
        invariant old(queue.rows) <= queue.rows && (queue.rows == old(queue.rows) ==> queue.log == old(queue.log))
        invariant SeedsQueued(seeds[..i], old(queue.rows), queue.rows, newlyQueued, job, lib.urls)
      {
        ghost var before, reported := queue.rows, newlyQueued;
        var url := seeds[i];
        var normalized := lib.urls.normalize(url);
        if normalized != "" {
          newlyQueued := QueueSeed(job, url, newlyQueued);
        }
        SeedsQueuedNext(seeds, i, old(queue.rows), before, queue.rows, reported, newlyQueued, job, lib.urls);
      }
      assert seeds[..|seeds|] == seeds;
      AddsChangeNoTotals(old(queue.log), queue.log);
      SeedsQueuedKeeps(seeds, old(queue.rows), queue.rows, newlyQueued, job, lib.urls);
      CoveredKept(candidates.rows, old(queue.rows), queue.rows, lib.urls, backlog);
    }

    method QueueSeed(job: Job, url: string, newlyQueued: seq<string>) returns (reported: seq<string>)
      requires Core() && lib.urls.normalize(url) != ""
      modifies queue, clock
      ensures Core() && clock.now >= old(clock.now)
      ensures Appended(old(queue.rows), queue.rows, job.jobId) && OnlyAdds(old(queue.log), queue.log)
      ensures queue.rows == old(queue.rows) ==> queue.log == old(queue.log)
      ensures forall i :: |old(queue.rows)| <= i < |queue.rows| ==>
        queue.rows[i].priority == job.config.priority && queue.rows[i].url == lib.urls.normalize(url)
      ensures Tracked(queue.rows, job.jobId, lib.urls.normalize(url))
      ensures |queue.rows| == |old(queue.rows)| + if old(Tracked(queue.rows, job.jobId, lib.urls.normalize(url))) then 0 else 1
      ensures reported == newlyQueued +
        if Tracked(old(queue.rows), job.jobId, lib.urls.normalize(lib.urls.normalize(url))) then [] else [lib.urls.normalize(url)]
    {
      hide Legal, Replay, Paced, Replayed, UniqueFingerprints, BacklogLarge, UrlsNamed;
      var normalized := lib.urls.normalize(url);
      var alreadyTracked := queue.Exists(job.jobId, normalized);
      var id := Track(job, url, job.config.priority);
      reported := if alreadyTracked then newlyQueued else newlyQueued + [normalized];
    }

    /** Queues the job's fresh candidates, most confident first, up to the promotion limit. */
    method PromoteNewCandidates(job: Job)
      requires Landing(job.jobId)
      modifies this`backlog, queue, clock
      ensures Valid() && clock.now >= old(clock.now)
      ensures Appended(old(queue.rows), queue.rows, job.jobId) && OnlyAdds(old(queue.log), queue.log)
      ensures TallyOf(queue.log) == TallyOf(old(queue.log))
      ensures PromotedRows(candidates.rows, |old(queue.rows)|, queue.rows, lib.urls)
      ensures backlog == if CountStatus(candidates.rows, job.jobId, Fresh) > 500 then old(backlog) + {job.jobId}
                         else old(backlog) - {job.jobId}
    {
      hide Core, Covered, TallyOf, PromotedFrom, PromotedAll, PromotedRows, Tracked, CountStatus;
      PromotedNothing(candidates.rows, queue.rows, job.jobId, lib.urls);
      var ids := candidates.ListNew(job.jobId, PROMOTION_LIMIT);
      for k := 0 to |ids|
        invariant Core() && clock.now >= old(clock.now) && backlog == old(backlog)
        invariant Appended(old(queue.rows), queue.rows, job.jobId) && OnlyAdds(old(queue.log), queue.log)
        invariant PromotedAll(candidates.rows, ids[..k], queue.rows, job.jobId, lib.urls)
        invariant PromotedRows(candidates.rows, |old(queue.rows)|, queue.rows, lib.urls)
      {
        var candidate := candidates.rows[ids[k]];
        ghost var before := queue.rows;
        StoredUrlsKeepNames(ids[k]);
        var priority := 50.0 + candidate.confidence * 50.0;
        var id := Track(job, candidate.url, if priority >= 0.0 then priority.Floor else -((-priority).Floor));
        PromotedNext(candidates.rows, ids, k, before, queue.rows, job.jobId, lib.urls, id);
        PromotedRowsNext(candidates.rows, |old(queue.rows)|, before, queue.rows, job.jobId, lib.urls, id, ids[k]);
      }
      assert ids[..|ids|] == ids;
      AddsChangeNoTotals(old(queue.log), queue.log);
      CatchUp(job.jobId, ids, old(queue.rows));
    }

    lemma StoredUrlsKeepNames(i: nat)
      requires Core() && i < |candidates.rows|
      ensures NeverEmpties(lib.urls) ==> lib.urls.normalize(candidates.rows[i].url) != ""
    {
    }

    /** Settles the backlog after a promotion. */
    ghost method CatchUp(jobId: string, ids: seq<nat>, before: seq<Row>)
      requires Core() && Covered(candidates.rows, before, lib.urls, backlog + {jobId}) && before <= queue.rows
      requires PromotedAll(candidates.rows, ids, queue.rows, jobId, lib.urls)
      requires CountStatus(candidates.rows, jobId, Fresh) <= PROMOTION_LIMIT ==>
        forall i: nat :: i < |candidates.rows| && IsFresh(candidates.rows[i], jobId) ==> i in ids
      modifies this`backlog
      ensures Valid()
      ensures backlog == if CountStatus(candidates.rows, jobId, Fresh) > PROMOTION_LIMIT then old(backlog) + {jobId}
                         else old(backlog) - {jobId}
    {
      hide Legal, Replay, Paced, Replayed, UniqueFingerprints, UrlsNamed, PromotedAll;
      CountAtMost(candidates.rows, jobId, Fresh);
      if CountStatus(candidates.rows, jobId, Fresh) > PROMOTION_LIMIT {
        CoveredKept(candidates.rows, before, queue.rows, lib.urls, backlog + {jobId});
        backlog := backlog + {jobId};
      } else {
        PromotionCovers(candidates.rows, ids, before, queue.rows, jobId, lib.urls, backlog + {jobId});
        assert backlog + {jobId} - {jobId} == backlog - {jobId};
        backlog := backlog - {jobId};
      }
    }

    /** Lands observed URLs as candidates; the count is of the genuinely new ones. */
    method Land(job: Job, found: seq<Discovered>) returns (created: nat)
      requires Landing(job.jobId)
      modifies candidates, clock
      ensures Landing(job.jobId) && clock.now >= old(clock.now)
      ensures old(candidates.rows) <= candidates.rows
      ensures created == |candidates.rows| - |old(candidates.rows)|
      ensures CountOf(candidates.rows, job.jobId) == old(CountOf(candidates.rows, job.jobId)) + created
      ensures AllRepresented(candidates.rows, lib.urls, job.jobId, CandidateType(job), found)
      ensures forall i :: |old(candidates.rows)| <= i < |candidates.rows| ==>
        candidates.rows[i].jobId == job.jobId && Observed(candidates.rows[i].url, found, lib.urls)
    {
      hide Legal, Replay, Replayed, Covered, BacklogLarge, AllRepresented;
      ghost var start := clock.now;
      var entityType := if job.config.category != "" then job.config.category else job.config.collectorType;
      var landed := discovery.SaveCandidates(job.jobId, entityType, found, clock);
      created := |landed|;
      LandedCovered(old(candidates.rows), candidates.rows, landed, queue.rows, job.jobId, CandidateType(job), found, lib.urls,
                    backlog + {job.jobId});
      BacklogGrows(old(candidates.rows), candidates.rows, backlog);
      OtherWritesKeepPace(limiter.rows, limiter.rows, limiter.requests, start, clock.now);
    }

    /** Lands the URLs observed on a page and, if any is new, promotes at once. */
    method DiscoverFromPage(job: Job, found: seq<Discovered>, outcome: RunOutcome)
      requires Valid()
      modifies this`backlog, queue, candidates, clock, outcome`discovered
      ensures Valid() && clock.now >= old(clock.now)
      ensures backlog - {job.jobId} == old(backlog) - {job.jobId}
      ensures Appended(old(queue.rows), queue.rows, job.jobId)
      ensures Gathered(old(Snapshot(outcome, job.jobId)), Snapshot(outcome, job.jobId), 0)
      ensures AllRepresented(candidates.rows, lib.urls, job.jobId, CandidateType(job), found)
      ensures old(candidates.rows) <= candidates.rows && OnlyAdds(old(queue.log), queue.log)
    {
      hide Core, TallyOf, HasRow, AllRepresented, Merges;
      var created := Land(job, found);
      if created > 0 {
        outcome.discovered := outcome.discovered + created;
        PromoteNewCandidates(job);
      }
    }

    // -----------------------------------------------------------------
    // Records
    // -----------------------------------------------------------------

    /** Persists one record, then settles its candidate and the counters. */
    method HandleExtracted(job: Job, record: Entities.Record, sourceUrl: string, domain: string, candidate: Option<nat>,
                           outcome: RunOutcome)
      returns (result: Persistence.Outcome)
      requires Wired() && Replayed()
      requires candidate.Some? ==> candidate.value < |candidates.rows|
      modifies this`calls, candidates, entities, evidence, review, outcome
      ensures Replayed()
      ensures calls == old(calls) + [Persistence.Call(job.jobId, record, sourceUrl, Some(domain), job.config.collectorType)]
      ensures result == Persistence.Persisted(lib, PersistenceHistory.After(lib, EMPTY_TABLES, old(calls)), calls[|calls| - 1]).1
      ensures |entities.rows| == |old(entities.rows)| + if result.Inserted? then 1 else 0
      ensures SettledOnly(result, candidate, old(candidates.rows), candidates.rows)
      ensures review.rows == old(review.rows) + Filed(job.jobId, result, candidate)
      ensures outcome.inserted == old(outcome.inserted) + if result.Inserted? then 1 else 0
      ensures outcome.updated == old(outcome.updated) + if result.Updated? then 1 else 0
      ensures outcome.duplicates == old(outcome.duplicates) + if result.Updated? then 1 else 0
      ensures outcome.reviewed == old(outcome.reviewed) + if result.Invalid? || result.Ambiguous? then 1 else 0
      ensures outcome.fetched == old(outcome.fetched) && outcome.errors == old(outcome.errors)
      ensures outcome.discovered == old(outcome.discovered)
      ensures Merges(lib, calls) == Merges(lib, old(calls)) + if result.Updated? then 1 else 0
      ensures candidate.Some? ==>
        var status := candidates.rows[candidate.value].status;
        && (status == Accepted <==> |entities.rows| > |old(entities.rows)|)
        && (status == Duplicate <==> Merges(lib, calls) > Merges(lib, old(calls)))
        && (status == UnderReview <==> |review.rows| > |old(review.rows)|)
        && (status == Rejected <==> record.skip)
    {
      hide Persistence.Persisted, PersistenceHistory.After, Merges;
      var call := Persistence.Call(job.jobId, record, sourceUrl, Some(domain), job.config.collectorType);
      PersistedSize(lib, Persistence.Tables(entities.rows, evidence.rows), call);
      MergesNext(lib, calls, call);
      result := persistence.Persist(call);
      PersistenceHistory.AfterNext(lib, EMPTY_TABLES, calls, call);
      calls := calls + [call];
      Settle(job, result, candidate, outcome);
    }

    /** The loop over a page's records. */
    method PersistRecords(job: Job, records: seq<Entities.Record>, sourceUrl: string, domain: string, candidate: Option<nat>,
                          outcome: RunOutcome)
      requires Wired() && Replayed() && candidate == LatestByUrl(candidates.rows, job.jobId, sourceUrl)
      modifies this`calls, candidates, entities, evidence, review, outcome
      ensures Replayed() && calls == old(calls) + CallsOf(job, records, sourceUrl, domain)
      ensures Restatused(old(candidates.rows), candidates.rows, job.jobId, sourceUrl)
      ensures outcome.inserted - old(outcome.inserted) == |entities.rows| - |old(entities.rows)| >= 0
      ensures outcome.updated - old(outcome.updated) == outcome.duplicates - old(outcome.duplicates)
        == Merges(lib, calls) - Merges(lib, old(calls)) >= 0
      ensures outcome.reviewed - old(outcome.reviewed) == |review.rows| - |old(review.rows)| >= 0
      ensures outcome.fetched == old(outcome.fetched) && outcome.errors == old(outcome.errors)
      ensures outcome.discovered == old(outcome.discovered)
      ensures records != [] && candidate.Some? ==> SettledBy(candidates.rows, candidate.value, lib, calls)
    {
      hide LatestByUrl, Persistence.Persisted, Persistence.Incoming, SettledStatus, Replayed, PersistenceHistory.After, Merges;
      for i := 0 to |records|
        invariant Replayed() && calls == old(calls) + CallsOf(job, records, sourceUrl, domain)[..i]
        invariant Restatused(old(candidates.rows), candidates.rows, job.jobId, sourceUrl)
        invariant outcome.inserted - old(outcome.inserted) == |entities.rows| - |old(entities.rows)| >= 0
        invariant outcome.updated - old(outcome.updated) == outcome.duplicates - old(outcome.duplicates)
          == Merges(lib, calls) - Merges(lib, old(calls)) >= 0
        invariant outcome.reviewed - old(outcome.reviewed) == |review.rows| - |old(review.rows)| >= 0
        invariant outcome.fetched == old(outcome.fetched) && outcome.errors == old(outcome.errors)
        invariant outcome.discovered == old(outcome.discovered)
        invariant i > 0 && candidate.Some? ==> SettledBy(candidates.rows, candidate.value, lib, calls)
      {
        var result := HandleExtracted(job, records[i], sourceUrl, domain, candidate, outcome);
        assert calls[..|calls| - 1] + [calls[|calls| - 1]] == calls;
        assert CallsOf(job, records, sourceUrl, domain)[..i + 1]
            == CallsOf(job, records, sourceUrl, domain)[..i] + [calls[|calls| - 1]];
      }
      assert CallsOf(job, records, sourceUrl, domain)[..|records|] == CallsOf(job, records, sourceUrl, domain);
    }

    /** Persists every record of a tracked page against the page's one candidate. */
    method HandleRecords(job: Job, records: seq<Entities.Record>, sourceUrl: string, domain: string, outcome: RunOutcome)
      requires Valid() && Tracked(queue.rows, job.jobId, sourceUrl)
      modifies this`calls, candidates, entities, evidence, review, outcome
      ensures Valid() && calls == old(calls) + CallsOf(job, records, sourceUrl, domain)
      ensures Restatused(old(candidates.rows), candidates.rows, job.jobId, sourceUrl)
      ensures Gathered(old(Snapshot(outcome, job.jobId)), Snapshot(outcome, job.jobId), 0)
      ensures records != [] && LatestByUrl(old(candidates.rows), job.jobId, sourceUrl).Some? ==>
        SettledBy(candidates.rows, LatestByUrl(old(candidates.rows), job.jobId, sourceUrl).value, lib, calls)
      ensures records != [] ==> PageSettled(candidates.rows, job.jobId, sourceUrl)
    {
      hide LatestByUrl, Persistence.Persisted, Replayed, Legal, Replay, Paced, UniqueFingerprints, BacklogLarge, Covered;
      hide UrlsNamed, Merges;
      var candidate := LatestByUrl(candidates.rows, job.jobId, sourceUrl);
      PersistRecords(job, records, sourceUrl, domain, candidate, outcome);
      RestatusedKeeps(old(candidates.rows), candidates.rows, job.jobId, sourceUrl);
      BacklogKept(old(candidates.rows), candidates.rows, backlog);
      RestatusedCovered(old(candidates.rows), candidates.rows, queue.rows, job.jobId, sourceUrl, lib.urls, backlog);
      CallsNamed(old(candidates.rows), candidates.rows, queue.rows, old(calls), job, records, sourceUrl, domain, lib.urls);
      LatestIgnoresStatus(old(candidates.rows), candidates.rows, job.jobId, sourceUrl);
    }

    method Settle(job: Job, result: Persistence.Outcome, candidate: Option<nat>, outcome: RunOutcome)
      requires candidate.Some? ==> candidate.value < |candidates.rows|
      modifies candidates, review, outcome
      ensures SettledOnly(result, candidate, old(candidates.rows), candidates.rows)
      ensures review.rows == old(review.rows) + Filed(job.jobId, result, candidate)
      ensures outcome.inserted == old(outcome.inserted) + if result.Inserted? then 1 else 0
      ensures outcome.updated == old(outcome.updated) + if result.Updated? then 1 else 0
      ensures outcome.duplicates == old(outcome.duplicates) + if result.Updated? then 1 else 0
      ensures outcome.reviewed == old(outcome.reviewed) + if result.Invalid? || result.Ambiguous? then 1 else 0
      ensures outcome.fetched == old(outcome.fetched) && outcome.errors == old(outcome.errors)
      ensures outcome.discovered == old(outcome.discovered)
    {
      match result {
        case Skipped =>
          if candidate.Some? {
            candidates.SetStatus(candidate.value, Rejected);
          }
        case Invalid(missing) =>
          review.Add(job.jobId, if missing then MissingRequiredField else ParseFailure, None, candidate);
          if candidate.Some? {
            candidates.SetStatus(candidate.value, UnderReview);
          }
          outcome.reviewed := outcome.reviewed + 1;
        case Inserted(_) =>
          outcome.inserted := outcome.inserted + 1;
          if candidate.Some? {
            candidates.SetStatus(candidate.value, Accepted);
          }
        case Updated(_) =>
          outcome.updated := outcome.updated + 1;
          outcome.duplicates := outcome.duplicates + 1;
          if candidate.Some? {
            candidates.SetStatus(candidate.value, Duplicate);
          }
        case Ambiguous(id, _) =>
          review.Add(job.jobId, DuplicateAmbiguity, Some(id), candidate);
          if candidate.Some? {
            candidates.SetStatus(candidate.value, UnderReview);
          }
          outcome.reviewed := outcome.reviewed + 1;
      }
    }

    // -----------------------------------------------------------------
    // Fetching
    // -----------------------------------------------------------------

    /** The queued domains open now, and the shortest wait of the refused ones: no refused domain
        opens before that wait is over, and the soonest of them, unless blocked, opens with it. */
    method ReadyDomains(job: Job) returns (ready: set<string>, minWait: Option<int>)
      requires Valid()
      modifies limiter`rows, clock
      ensures Valid() && clock.now >= old(clock.now)
      ensures Surveyed(limiter.rows, QueuedDomains(queue.rows, job.jobId), ready, minWait, job.config.rateLimit,
                       old(clock.now), clock.now)
      ensures Introduced(old(limiter.rows), limiter.rows, job.config.rateLimit)
    {
      hide Legal, Replay, Replayed, UniqueFingerprints, Surveyed;
      var domains := QueuedDomains(queue.rows, job.jobId);
      ready, minWait := {}, None;
      SurveyNothing(limiter.rows, job.config.rateLimit, clock.now);
      for i := 0 to |domains|
        invariant Valid() && clock.now >= old(clock.now) && Introduced(old(limiter.rows), limiter.rows, job.config.rateLimit)
        invariant Surveyed(limiter.rows, domains[..i], ready, minWait, job.config.rateLimit, old(clock.now), clock.now)
      {
        ghost var before := Survey(limiter.rows, ready, minWait, clock.now);
        var now := clock.Read();
        var allowed, wait := limiter.IsAllowed(domains[i], job.config.rateLimit, now);
        OtherWritesKeepPace(before.rows, limiter.rows, limiter.requests, before.now, now);
        if allowed {
          ready := ready + {domains[i]};
        } else if minWait.None? || wait < minWait.value {
          minWait := Some(wait);
        }
        SurveyNext(before, limiter.rows, domains, i, ready, minWait, job.config.rateLimit, old(clock.now), now, wait);
      }
      assert domains[..|domains|] == domains;
    }

    /** Records an error of the row's domain at the current time. */
    method NoteError(domain: string, block: Option<int>) returns (now: int)
      requires Valid()
      modifies limiter`rows, clock
      ensures Valid() && now == clock.now >= old(clock.now)
      ensures Penalized(old(limiter.rows), limiter.rows, domain, block, now)
    {
      ghost var before := limiter.rows;
      now := clock.Read();
      limiter.RecordError(domain, block, now);
      OtherWritesKeepPace(before, limiter.rows, limiter.requests, old(clock.now), now);
    }

    /** Files a page's candidate for human review. */
    method Flag(job: Job, reason: Reason, url: string, outcome: RunOutcome)
      modifies review, outcome`reviewed
      ensures review.rows
        == old(review.rows) + [ReviewRow(job.jobId, reason, None, LatestByUrl(candidates.rows, job.jobId, url), true)]
      ensures outcome.reviewed == old(outcome.reviewed) + 1
    {
      var candidate := LatestByUrl(candidates.rows, job.jobId, url);
      review.Add(job.jobId, reason, None, candidate);
      outcome.reviewed := outcome.reviewed + 1;
    }

    /** A hard block: the row is given up and filed for human review. */
    method SkipRefused(job: Job, id: nat, error: Option<string>, outcome: RunOutcome)
      requires Valid() && id < |queue.rows| && queue.rows[id].status == Fetching
      modifies limiter`rows, queue, review, clock, outcome`errors, outcome`reviewed
      ensures Valid() && clock.now >= old(clock.now) && old(queue.log) <= queue.log
      ensures Processed(old(queue.rows), queue.rows, id, job.jobId, false) && queue.rows[id].status == Skipped
      ensures Followed(old(queue.rows)[id], queue.rows[id], Blocked(error), false, clock.now)
      ensures Snapshot(outcome, job.jobId) == old(Snapshot(outcome, job.jobId)).Ended(Skips, 1)
      ensures Penalized(old(limiter.rows), limiter.rows, old(queue.rows)[id].domain, None, clock.now)
      ensures review.rows == old(review.rows) + [ReviewRow(
        job.jobId, if error.Some? && Contains(error.value, "captcha") then Captcha else Refused, None,
        LatestByUrl(candidates.rows, job.jobId, old(queue.rows)[id].url), true)]
    {
      hide Core, Processed, Covered, TallyOf, CountOf, Contains, LatestByUrl, Penalized, Merges;
      var url := queue.rows[id].url;
      var now := NoteError(queue.rows[id].domain, None);
      GiveUpItem(job, id, if Truthy(error) then error.value else "blocked", now);
      var captcha := error.Some? && Contains(error.value, "captcha");
      Flag(job, if captcha then Captcha else Refused, url, outcome);
      outcome.errors := outcome.errors + 1;
    }

    method GiveUpItem(job: Job, id: nat, reason: string, now: int)
      requires Valid() && id < |queue.rows| && queue.rows[id].status == Fetching
      modifies queue
      ensures Valid() && old(queue.log) <= queue.log
      ensures Processed(old(queue.rows), queue.rows, id, job.jobId, false)
      ensures queue.rows[id]
        == old(queue.rows)[id].(status := Skipped, errorMessage := Some(reason), fetchedAt := Some(Truncate(now)))
      ensures TallyOf(queue.log) == TallyOf(old(queue.log)).Plus(Skips)
    {
      queue.MarkSkipped(id, reason, now);
      TallyNext(old(queue.log), Op.Skip(id, now, reason));
      CoveredKept(candidates.rows, old(queue.rows), queue.rows, lib.urls, backlog);
    }

    /** A failed fetch: retried later, or filed for human review once its attempts are used up. */
    method FailItem(job: Job, id: nat, error: Option<string>, http: Option<int>, retryAfter: Option<int>, outcome: RunOutcome)
      requires Valid() && id < |queue.rows| && queue.rows[id].status == Fetching
      modifies limiter`rows, queue, review, clock, outcome`errors, outcome`reviewed
      ensures Valid() && clock.now >= old(clock.now) && old(queue.log) <= queue.log
      ensures Processed(old(queue.rows), queue.rows, id, job.jobId, false)
      ensures queue.rows[id].status
        == if old(queue.rows)[id].attemptCount + 1 >= FetchQueue.DEFAULT_MAX_ATTEMPTS then Failed else Queued
      ensures Followed(old(queue.rows)[id], queue.rows[id], NotOk(error, http, retryAfter), false, clock.now)
      ensures Snapshot(outcome, job.jobId)
        == old(Snapshot(outcome, job.jobId)).Ended(Failures, if queue.rows[id].status == Failed then 1 else 0)
      ensures Penalized(old(limiter.rows), limiter.rows, old(queue.rows)[id].domain, retryAfter, clock.now)
      ensures queue.rows[id].status == Failed ==> review.rows == old(review.rows) + [ReviewRow(
        job.jobId, ParseFailure, None, LatestByUrl(candidates.rows, job.jobId, old(queue.rows)[id].url), true)]
    {
      hide Core, Processed, Covered, TallyOf, CountOf, Contains, LatestByUrl, Followed, Penalized, Merges;
      var url := queue.rows[id].url;
      var now := NoteError(queue.rows[id].domain, retryAfter);
      RetryItem(job, id, error, http, retryAfter, now);
      outcome.errors := outcome.errors + 1;
      if queue.rows[id].status == Failed {
        Flag(job, ParseFailure, url, outcome);
      }
    }

    method RetryItem(job: Job, id: nat, error: Option<string>, http: Option<int>, retryAfter: Option<int>, now: int)
      requires Valid() && id < |queue.rows| && queue.rows[id].status == Fetching
      modifies queue
      ensures Valid() && old(queue.log) <= queue.log && |queue.rows| == |old(queue.rows)|
      ensures Processed(old(queue.rows), queue.rows, id, job.jobId, false)
      ensures queue.rows[id].status
        == if old(queue.rows)[id].attemptCount + 1 >= FetchQueue.DEFAULT_MAX_ATTEMPTS then Failed else Queued
      ensures Followed(old(queue.rows)[id], queue.rows[id], NotOk(error, http, retryAfter), false, now)
      ensures TallyOf(queue.log) == TallyOf(old(queue.log)).Plus(Failures)
    {
      hide Paced, Replayed, UniqueFingerprints, BacklogLarge, Followed, TallyOf, Covered, Processed, Capped, UrlsNamed;
      var message := if Truthy(error) then error.value else "unknown error";
      ghost var op := Op.Fail(id, now, message, http, retryAfter);
      FailureFollowed(queue.log, queue.rows, op, job.jobId, error, http, retryAfter);
      queue.MarkFailed(id, message, http, retryAfter, now);
      TallyNext(old(queue.log), op);
      ProcessedKeeps(old(queue.rows), queue.rows, id, job.jobId, false);
      UrlsNamedKept(candidates.rows, old(queue.rows), queue.rows, calls, lib.urls);
      CoveredKept(candidates.rows, old(queue.rows), queue.rows, lib.urls, backlog);
    }

    /** Marks the row done at the current time. */
    method CompleteItem(job: Job, id: nat, http: int, contentHash: Option<string>, etag: Option<string>,
                        lastModified: Option<string>)
      requires Valid() && id < |queue.rows| && queue.rows[id].status == Fetching
      modifies queue, clock
      ensures Valid() && clock.now >= old(clock.now) && old(queue.log) <= queue.log
      ensures |queue.rows| == |old(queue.rows)| && Processed(old(queue.rows), queue.rows, id, job.jobId, false)
      ensures queue.rows[id] == old(queue.rows)[id].(
        status := Done, lastHttpStatus := Some(http), fetchedAt := Some(Truncate(clock.now)), contentHash := contentHash,
        etag := etag, lastModified := lastModified, errorMessage := None)
      ensures TallyOf(queue.log) == TallyOf(old(queue.log)).Plus(Finishes)
    {
      hide Paced, Replayed, UniqueFingerprints;
      var now := Now();
      queue.MarkDone(id, http, contentHash, etag, lastModified, now);
      TallyNext(old(queue.log), Op.Finish(id, now, http, contentHash, etag, lastModified));
      CoveredKept(candidates.rows, old(queue.rows), queue.rows, lib.urls, backlog);
    }

    /** A page: its links become candidates, then the row is done, then its records are persisted. */
    method ReadItem(job: Job, id: nat, page: FetchResult, outcome: RunOutcome) returns (raised: bool)
      requires page.Page?
      requires Valid() && id < |queue.rows| && FetchQueue.InFlight(queue.rows[id], job.jobId)
      modifies this`backlog, this`calls, queue, candidates, entities, evidence, review, world, clock, outcome
      ensures backlog - {job.jobId} == old(backlog) - {job.jobId}
      ensures Valid() && clock.now >= old(clock.now) && old(queue.log) <= queue.log
      ensures Processed(old(queue.rows), queue.rows, id, job.jobId, raised)
      ensures Followed(old(queue.rows)[id], queue.rows[id], page, raised, clock.now)
      ensures PageRead(job, old(queue.rows)[id], old(world.seen), old(calls), raised)
      ensures OnlyRead(old(world.seen), world.seen, old(candidates.rows), candidates.rows)
      ensures Gathered(old(Snapshot(outcome, job.jobId)), Snapshot(outcome, job.jobId), if raised then 0 else 1)
    {
      hide Core, Covered, TallyOf, CountOf, AllRepresented, Merges, Followed, OnlyRead;
      var url, domain := queue.rows[id].url, queue.rows[id].domain;
      ghost var item, seen := queue.rows[id], world.seen;
      var content := world.ReadPage(url);
      DiscoverFromPage(job, content.found, outcome);
      ghost var landed := candidates.rows;
      if content.extracted.None? {
        NothingFollowed(item, limiter.rows, domain, page, clock.now);
        OnlyReadPage(seen, Observation.Read(url, content), old(candidates.rows), landed, candidates.rows);
        return true;
      }
      var http := if page.status.Some? && page.status.value != 0 then page.status.value else 200;
      CompleteItem(job, id, http, page.contentHash, page.etag, page.lastModified);
      PageFollowed(item, queue.rows[id], page, http, clock.now);
      HandleRecords(job, content.extracted.value, url, domain, outcome);
      OnlyReadPage(seen, Observation.Read(url, content), old(candidates.rows), landed, candidates.rows);
      RestatusedRepresents(landed, candidates.rows, job.jobId, url, lib.urls, CandidateType(job), content.found);
      return false;
    }

    /** The page was read once: its links are candidates, and its records were persisted unless
        the adapter raised. */
    ghost predicate PageRead(job: Job, item: Row, seen: seq<Observation>, before: seq<Persistence.Call>, raised: bool)
      reads world, candidates, this`calls
    {
      exists content ::
        && world.seen == seen + [Observation.Read(item.url, content)]
        && AllRepresented(candidates.rows, lib.urls, job.jobId, CandidateType(job), content.found)
        && (raised <==> content.extracted.None?)
        && calls == before + (if raised then [] else CallsOf(job, content.extracted.value, item.url, item.domain))
        && (!raised && content.extracted.value != [] ==> PageSettled(candidates.rows, job.jobId, item.url))
    }

    /** Records a request to a domain that was open, at the current time. */
    method SendRequest(job: Job, domain: string)
      requires Valid() && domain in limiter.rows && Open(limiter.rows[domain], job.config.rateLimit, clock.now)
      modifies limiter, clock
      ensures Valid() && clock.now >= old(clock.now)
      ensures limiter.requests == old(limiter.requests) + [Request(domain, clock.now)]
      ensures limiter.rows == Requested(old(limiter.rows), domain, clock.now)
    {
      ghost var rows, requests, checked := limiter.rows, limiter.requests, clock.now;
      var now := clock.Read();
      limiter.RecordRequest(domain, now);
      RequestKeepsPace(rows, requests, domain, job.config.rateLimit, checked, now);
    }

    method NoteSuccess(domain: string)
      requires Valid()
      modifies limiter`rows
      ensures Valid() && Forgiven(old(limiter.rows), limiter.rows, domain)
    {
      ghost var before := limiter.rows;
      limiter.RecordSuccess(domain);
      OtherWritesKeepPace(before, limiter.rows, limiter.requests, clock.now, clock.now);
    }

    /** Fetches one claimed row. Unless the fetch or the adapter raises, the claim ends here; row and domain
        are what the answer says. */
    method ProcessQueueItem(job: Job, id: nat, outcome: RunOutcome)
      returns (raised: bool, ghost result: FetchResult, ghost sent: int)
      requires Valid() && id < |queue.rows| && FetchQueue.InFlight(queue.rows[id], job.jobId)
      requires queue.rows[id].domain in limiter.rows
      requires Open(limiter.rows[queue.rows[id].domain], job.config.rateLimit, clock.now)
      modifies this`backlog, this`calls, limiter, queue, candidates, entities, evidence, review, world, clock, outcome
      ensures Valid() && old(clock.now) <= sent <= clock.now && old(queue.log) <= queue.log
      ensures Processed(old(queue.rows), queue.rows, id, job.jobId, raised)
      ensures Followed(old(queue.rows)[id], queue.rows[id], result, raised, clock.now)
      ensures Obeyed(Requested(old(limiter.rows), old(queue.rows)[id].domain, sent), limiter.rows, old(queue.rows)[id].domain,
                     result, clock.now)
      ensures Conserved(old(Snapshot(outcome, job.jobId)).Unclaimed(), Snapshot(outcome, job.jobId), if raised then 1 else 0)
      ensures outcome.fetched <= old(outcome.fetched) + 1
      ensures limiter.requests == old(limiter.requests) + [Request(old(queue.rows)[id].domain, sent)]
      ensures Answered(job, old(queue.rows)[id], result, old(world.seen), old(calls), raised)
      ensures OnlyRead(old(world.seen), world.seen, old(candidates.rows), candidates.rows)
      ensures backlog - {job.jobId} == old(backlog) - {job.jobId}
    {
      hide Core, Covered, TallyOf, CountOf, Open, Processed, PageRead, Obeyed, Requested, Merges, Followed;
      ghost var item, seen, before := queue.rows[id], world.seen, calls;
      SendRequest(job, queue.rows[id].domain);
      sent := clock.now;
      var answer := world.Fetch(queue.rows[id].url, queue.rows[id].etag, queue.rows[id].lastModified);
      result := answer;
      if answer.FetchRaises? {
        StillInFlight(queue.rows, id, job.jobId);
        NothingFollowed(item, limiter.rows, item.domain, answer, clock.now);
        return true, result, sent;
      }
      outcome.fetched := outcome.fetched + 1;
      raised := HandleFetched(job, id, answer, outcome);
    }

    /** The item was fetched once, with the validators it had, and its page, if that brought one, was read. */
    ghost predicate Answered(job: Job, item: Row, result: FetchResult, seen: seq<Observation>, before: seq<Persistence.Call>,
                             raised: bool)
      reads world, candidates, this`calls
    {
      var fetched := seen + [Fetched(item.url, item.etag, item.lastModified, result)];
      if result.Page? then PageRead(job, item, fetched, before, raised)
      else world.seen == fetched && calls == before && (raised <==> result.FetchRaises?)
    }

    /** What becomes of the row and its domain after its fetch. */
    method HandleFetched(job: Job, id: nat, result: FetchResult, outcome: RunOutcome) returns (raised: bool)
      requires Valid() && id < |queue.rows| && FetchQueue.InFlight(queue.rows[id], job.jobId) && !result.FetchRaises?
      modifies this`backlog, this`calls, limiter`rows, queue, candidates, entities, evidence, review, world, clock, outcome
      ensures backlog - {job.jobId} == old(backlog) - {job.jobId}
      ensures Valid() && clock.now >= old(clock.now) && old(queue.log) <= queue.log
      ensures Processed(old(queue.rows), queue.rows, id, job.jobId, raised)
      ensures Followed(old(queue.rows)[id], queue.rows[id], result, raised, clock.now)
      ensures Obeyed(old(limiter.rows), limiter.rows, old(queue.rows)[id].domain, result, clock.now)
      ensures result.Page? ==> PageRead(job, old(queue.rows)[id], old(world.seen), old(calls), raised)
      ensures !result.Page? ==> !raised && world.seen == old(world.seen) && calls == old(calls)
      ensures OnlyRead(old(world.seen), world.seen, old(candidates.rows), candidates.rows)
      ensures match result
              case Blocked(_) => Snapshot(outcome, job.jobId) == old(Snapshot(outcome, job.jobId)).Ended(Skips, 1)
              case NotOk(_, _, _) =>
                Snapshot(outcome, job.jobId)
                == old(Snapshot(outcome, job.jobId)).Ended(Failures, if queue.rows[id].status == Failed then 1 else 0)
              case _ => Gathered(old(Snapshot(outcome, job.jobId)), Snapshot(outcome, job.jobId), if raised then 0 else 1)
    {
      hide Core, Covered, TallyOf, CountOf, Processed, Penalized, Forgiven, Merges;
      raised := false;
      match result
      case Blocked(error) =>
        SkipRefused(job, id, error, outcome);
      case NotOk(error, http, retryAfter) =>
        FailItem(job, id, error, http, retryAfter, outcome);
      case NotModified =>
        NoteSuccess(queue.rows[id].domain);
        var item := queue.rows[id];
        CompleteItem(job, id, 304, item.contentHash, item.etag, item.lastModified);
      case Page(_, _, _, _) =>
        NoteSuccess(queue.rows[id].domain);
        raised := ReadItem(job, id, result, outcome);
    }

    // -----------------------------------------------------------------
    // Draining
    // -----------------------------------------------------------------

    /** Claims the best due row of the given domains. */
    method ClaimIn(job: Job, ready: set<string>) returns (claimed: Option<nat>)
      requires Valid()
      modifies queue, clock
      ensures Valid() && clock.now >= old(clock.now) && old(queue.log) <= queue.log
      ensures claimed == FetchQueue.Best(old(queue.rows), job.jobId, Some(ready), clock.now)
      ensures claimed.None? ==> queue.rows == old(queue.rows) && queue.log == old(queue.log)
      ensures claimed.Some? ==>
        && queue.rows == old(queue.rows)[claimed.value := old(queue.rows)[claimed.value].(status := Fetching)]
        && TallyOf(queue.log) == TallyOf(old(queue.log)).Plus(Claims)
    {
      hide Paced, Replayed, UniqueFingerprints, Legal, Replay, FetchQueue.Best, Covered, TallyOf;
      var now := Now();
      claimed := queue.ClaimNext(job.jobId, Some(ready), now);
      if claimed.Some? {
        TallyNext(old(queue.log), Claim(claimed.value, now));
      }
      CoveredKept(candidates.rows, old(queue.rows), queue.rows, lib.urls, backlog);
    }

    /** Claims a due row of a ready domain. When there is none, every due row of the job waits for
        a domain that stays closed for the whole shortest wait. */
    method ClaimReady(job: Job) returns (claimed: Option<nat>, minWait: Option<int>, ghost surveyed: int)
      requires Valid()
      modifies limiter`rows, queue, clock
      ensures Valid() && surveyed == old(clock.now) <= clock.now && old(queue.log) <= queue.log
      ensures minWait.Some? ==> minWait.value > 0
      ensures claimed.None? ==> queue.rows == old(queue.rows) && queue.log == old(queue.log)
      ensures claimed.None? ==> Stuck(queue.rows, limiter.rows, job.jobId, job.config.rateLimit, minWait, surveyed, clock.now)
      ensures claimed.Some? ==>
        && claimed.value < |old(queue.rows)| && old(queue.rows)[claimed.value].status == Queued
        && queue.rows == old(queue.rows)[claimed.value := old(queue.rows)[claimed.value].(status := Fetching)]
        && FetchQueue.InFlight(queue.rows[claimed.value], job.jobId)
        && TallyOf(queue.log) == TallyOf(old(queue.log)).Plus(Claims)
        && queue.rows[claimed.value].domain in limiter.rows
        && Open(limiter.rows[queue.rows[claimed.value].domain], job.config.rateLimit, clock.now)
    {
      hide Core, Covered;
      surveyed := clock.now;
      var ready;
      ready, minWait := ReadyDomains(job);
      claimed := None;
      if ready != {} {
        claimed := ClaimIn(job, ready);
      }
      if claimed.None? {
        StuckUnclaimed(queue.rows, limiter.rows, job.jobId, job.config.rateLimit, ready, minWait, surveyed, clock.now);
      }
    }

    /** A drain that used up neither its pages nor its attempts had, at its last survey, nothing left to
        claim, and no waiting budget for the shortest wait. */
    ghost predicate DrainedOut(job: Job, drain: Drain, early: int, outcome: RunOutcome)
      reads queue, limiter, outcome
    {
      outcome.fetched < job.config.maxPages && drain.attempts < 3 * job.config.maxPages ==>
        && early <= drain.surveyed <= drain.stopped
        && Stuck(queue.rows, limiter.rows, job.jobId, job.config.rateLimit, drain.wait, drain.surveyed, drain.stopped)
        && (drain.wait.Some? ==>
              drain.wait.value > 0
              && (job.config.maxDrainWait <= 0 || NapTotal(drain.naps) + drain.wait.value > job.config.maxDrainWait))
    }

    /** The attempt and waiting budgets hold; every attempt but the last sent one of the requests or
        slept, and it only slept when there was nothing to claim. */
    ghost predicate Spent(job: Job, drain: Drain, sent: int, early: int, before: seq<Row>)
      reads queue
    {
      && drain.attempts <= 3 * job.config.maxPages
      && 0 <= NapTotal(drain.naps) <= Max(0, job.config.maxDrainWait)
      && drain.attempts <= sent + |drain.naps| + 1
      && Napped(drain.naps, job, early, drain.stopped, before, queue.rows)
    }

    /** Fetches until the page budget, the attempt budget or the waiting budget is used up or nothing
        is left to claim, although every page may add rows. */
    method DrainFetchQueue(job: Job, outcome: RunOutcome) returns (raised: bool, ghost drain: Drain)
      requires Valid()
      modifies this`backlog, this`calls, limiter, queue, candidates, entities, evidence, review, world, clock, outcome
      ensures backlog - {job.jobId} == old(backlog) - {job.jobId}
      ensures Valid() && old(clock.now) <= old(clock.now) + NapTotal(drain.naps) <= clock.now == drain.stopped
      ensures Spent(job, drain, |limiter.requests| - |old(limiter.requests)|, old(clock.now), old(queue.rows))
      ensures outcome.fetched <= Max(old(outcome.fetched), job.config.maxPages)
      ensures Conserved(old(Snapshot(outcome, job.jobId)), Snapshot(outcome, job.jobId), if raised then 1 else 0)
      ensures OwnRows(old(queue.rows), queue.rows, job.jobId)
      ensures old(NoneInFlight(queue.rows, job.jobId)) && !raised ==> NoneInFlight(queue.rows, job.jobId)
      ensures raised ==> !NoneInFlight(queue.rows, job.jobId)
      ensures !raised ==> DrainedOut(job, drain, old(clock.now), outcome)
      ensures OnlyRead(old(world.seen), world.seen, old(candidates.rows), candidates.rows) && old(queue.log) <= queue.log
    {
      hide Core, Covered, TallyOf, CountOf, Open, Processed, Stuck, Napped, NapTotal, NoneInFlight, OwnRows, OnlyRead, Merges;
      var attempts, waited := 0, 0;
      raised, drain := false, Drain(0, [], None, clock.now, clock.now);
      NoNaps(job, clock.now, queue.rows);
      OwnRowsSelf(queue.rows, job.jobId);
      OnlyReadNothing(world.seen, candidates.rows);
      var maxAttempts := 3 * job.config.maxPages;
      while outcome.fetched < job.config.maxPages && attempts < maxAttempts
        invariant Valid() && old(clock.now) + waited <= clock.now == drain.stopped
        invariant attempts == drain.attempts <= maxAttempts && !raised
        invariant attempts <= |limiter.requests| - |old(limiter.requests)| + |drain.naps|
        invariant waited == NapTotal(drain.naps)
        invariant Napped(drain.naps, job, old(clock.now), clock.now, old(queue.rows), queue.rows)
        invariant outcome.fetched <= Max(old(outcome.fetched), job.config.maxPages)
        invariant 0 <= waited <= Max(0, job.config.maxDrainWait)
        invariant Conserved(old(Snapshot(outcome, job.jobId)), Snapshot(outcome, job.jobId), 0)
        invariant OwnRows(old(queue.rows), queue.rows, job.jobId) && old(queue.log) <= queue.log
        invariant OnlyRead(old(world.seen), world.seen, old(candidates.rows), candidates.rows)
        invariant backlog - {job.jobId} == old(backlog) - {job.jobId}
        invariant old(NoneInFlight(queue.rows, job.jobId)) ==> NoneInFlight(queue.rows, job.jobId)
        decreases maxAttempts - attempts
      {
        attempts := attempts + 1;
        ghost var surveyed, before, naps := clock.now, queue.rows, drain.naps;
        ghost var seen, landed := world.seen, candidates.rows;
        var worked, wait;
        worked, wait, raised := DrainStep(job, outcome);
        OwnRowsOn(old(queue.rows), before, queue.rows, job.jobId);
        OnlyReadOn(old(world.seen), seen, world.seen, old(candidates.rows), landed, candidates.rows);
        OwnKeeps(before, queue.rows, job.jobId);
        NappedOn(naps, job, old(clock.now), surveyed, old(queue.rows), before, queue.rows, clock.now);
        drain := Drain(attempts, naps, wait, surveyed, clock.now);
        if raised {
          return;
        }
        if worked {
          continue;
        }
        if wait.None? {
          break;
        }
        if job.config.maxDrainWait > 0 && waited + wait.value <= job.config.maxDrainWait {
          ghost var nap := Nap(queue.rows, limiter.rows, wait.value, surveyed, clock.now);
          Pause(wait.value);
          waited := waited + wait.value;
          OwnKeeps(old(queue.rows), queue.rows, job.jobId);
          NapTaken(naps, nap, job, old(clock.now), clock.now, old(queue.rows));
          drain := Drain(attempts, naps + [nap], wait, surveyed, clock.now);
          continue;
        }
        break;
      }
    }

    method Pause(micros: int)
      requires Valid() && micros >= 0
      modifies clock
      ensures Valid() && clock.now >= old(clock.now) + micros
    {
      ghost var before := clock.now;
      clock.Sleep(micros);
      OtherWritesKeepPace(limiter.rows, limiter.rows, limiter.requests, before, clock.now);
    }

    /** One claim, if there is one to make, and its fetch. */
    method DrainStep(job: Job, outcome: RunOutcome)
      returns (worked: bool, minWait: Option<int>, raised: bool)
      requires Valid()
      modifies this`backlog, this`calls, limiter, queue, candidates, entities, evidence, review, world, clock, outcome
      ensures backlog - {job.jobId} == old(backlog) - {job.jobId}
      ensures Valid() && old(clock.now) <= clock.now
      ensures raised ==> worked
      ensures minWait.Some? ==> minWait.value > 0
      ensures Conserved(old(Snapshot(outcome, job.jobId)), Snapshot(outcome, job.jobId), if raised then 1 else 0)
      ensures outcome.fetched <= old(outcome.fetched) + if worked then 1 else 0
      ensures OwnRows(old(queue.rows), queue.rows, job.jobId)
      ensures old(NoneInFlight(queue.rows, job.jobId)) && !raised ==> NoneInFlight(queue.rows, job.jobId)
      ensures raised ==> !NoneInFlight(queue.rows, job.jobId)
      ensures |limiter.requests| == |old(limiter.requests)| + if worked then 1 else 0
      ensures !worked ==>
        Stuck(queue.rows, limiter.rows, job.jobId, job.config.rateLimit, minWait, old(clock.now), clock.now)
      ensures OnlyRead(old(world.seen), world.seen, old(candidates.rows), candidates.rows) && old(queue.log) <= queue.log
    {
      hide Core, Covered, TallyOf, CountOf, Open, Stuck, OnlyRead, Merges, Followed, Obeyed, Requested, Answered;
      var claimed;
      ghost var surveyed;
      claimed, minWait, surveyed := ClaimReady(job);
      worked, raised := claimed.Some?, false;
      OnlyReadNothing(world.seen, candidates.rows);
      if worked {
        ghost var rows := queue.rows;
        ghost var result, sent;
        raised, result, sent := ProcessQueueItem(job, claimed.value, outcome);
        if raised {
          LeftInFlight(rows, queue.rows, claimed.value, job.jobId);
        }
        if old(NoneInFlight(queue.rows, job.jobId)) && !raised {
          NoneInFlightAfter(old(queue.rows), rows, queue.rows, claimed.value, job.jobId);
        }
      }
    }

    // -----------------------------------------------------------------
    // One run
    // -----------------------------------------------------------------

    /** Puts rows left in flight by a dead worker back in the queue. */
    method RecoverItems(job: Job) returns (count: nat)
      requires Valid()
      modifies queue
      ensures Valid() && OwnRows(old(queue.rows), queue.rows, job.jobId) && NoneInFlight(queue.rows, job.jobId)
      ensures Recovered(job.jobId, old(queue.rows), queue.rows) && old(queue.log) <= queue.log
      ensures old(NoneInFlight(queue.rows, job.jobId)) ==> count == 0
      ensures TallyOf(queue.log) == TallyOf(old(queue.log)).(requeues := TallyOf(old(queue.log)).requeues + count)
    {
      count := queue.RequeueStaleFetching(job.jobId);
      RequeuesTally(old(queue.log), queue.log, count);
      CoveredKept(candidates.rows, old(queue.rows), queue.rows, lib.urls, backlog);
    }

    /** Puts the job's long-finished rows back in the queue. */
    method RevalidateItems(job: Job) returns (count: nat)
      requires Landing(job.jobId)
      modifies queue, clock
      ensures Landing(job.jobId) && old(clock.now) <= clock.now && OwnRows(old(queue.rows), queue.rows, job.jobId)
      ensures var cutoff := Truncate(clock.now - job.config.revalidateAfter);
              var stale := FetchQueue.StaleIds(old(queue.rows), job.jobId, cutoff, FetchQueue.REVALIDATION_LIMIT);
              && count == |stale| && |queue.rows| == |old(queue.rows)|
              && forall i :: 0 <= i < |queue.rows| ==>
                   queue.rows[i] == if i in stale then old(queue.rows)[i].(status := Queued, attemptCount := 0)
                                    else old(queue.rows)[i]
      ensures old(queue.log) <= queue.log
      ensures old(NoneInFlight(queue.rows, job.jobId)) ==> NoneInFlight(queue.rows, job.jobId)
      ensures TallyOf(queue.log) == TallyOf(old(queue.log)).(requeues := TallyOf(old(queue.log)).requeues + count)
    {
      hide Paced, Replayed, UniqueFingerprints, Legal, Replay, TallyOf, Covered, FetchQueue.StaleIds;
      var now := Now();
      count := queue.RequeueForRevalidation(job.jobId, job.config.revalidateAfter, FetchQueue.REVALIDATION_LIMIT, now);
      RequeuesTally(old(queue.log), queue.log, count);
      CoveredKept(candidates.rows, old(queue.rows), queue.rows, lib.urls, backlog + {job.jobId});
    }

    /** Continues the running row the checkpoint names, or starts a new one and names it. */
    method OpenRun(job: Job) returns (runId: nat, state: Checkpoints.Progress)
      requires Valid() && NamesOwnRuns(checkpoints.rows, runHistory.runs)
      modifies runHistory`runs, checkpoints, clock
      ensures Valid() && old(clock.now) <= clock.now
      ensures NamesOwnRuns(checkpoints.rows, runHistory.runs)
      ensures Names(checkpoints.rows, runHistory.runs, job.jobId, runId)
      ensures state == Checkpoints.Loaded(checkpoints.rows, job.jobId).state
      ensures state == Checkpoints.Loaded(old(checkpoints.rows), job.jobId).state.(currentRunId := Some(runId))
      ensures OwnCheckpoint(old(checkpoints.rows), checkpoints.rows, job.jobId)
      ensures Opened(old(checkpoints.rows), old(runHistory.runs), runHistory.runs, job.jobId, runId)
      ensures RunsBegun(old(runHistory.runs), runHistory.runs, old(clock.now), clock.now)
      ensures Resumable(old(checkpoints.rows), old(runHistory.runs), job.jobId).None? ==>
        ErrorRate(runHistory.runs, job.jobId) == 0.0
      ensures checkpoints.rows == if Resumable(old(checkpoints.rows), old(runHistory.runs), job.jobId).Some?
        then old(checkpoints.rows)
        else old(checkpoints.rows)[job.jobId := Checkpoints.Checkpoint(Some(runId), Some(job.phase), state)]
    {
      hide Core, Covered, ErrorRate;
      var checkpoint := checkpoints.Load(job.jobId);
      state := checkpoint.state;
      if state.currentRunId.Some? && RunHistory.IsRunning(runHistory.runs, state.currentRunId.value) {
        runId := state.currentRunId.value;
      } else {
        var now := Now();
        FreshRunHasNoErrors(runHistory.runs, job.jobId, now);
        runId := runHistory.Start(job.jobId, now);
        state := state.(currentRunId := Some(runId));
        checkpoints.Save(job.jobId, Some(runId), Some(job.phase), state);
      }
    }

    /** Lands the seed URLs once, and moves the job to discovery. */
    method Bootstrap(job: Job, state: Checkpoints.Progress) returns (working: Job, after: Checkpoints.Progress, boot: nat)
      requires Valid()
      modifies jobs, candidates, world, clock
      ensures Landing(job.jobId) && old(clock.now) <= clock.now
      ensures working == job.(phase := PhaseHistory.WorkingPhase(job.phase))
      ensures after == if job.phase == Phase.Bootstrap then state.(seeded := true) else state
      ensures old(candidates.rows) <= candidates.rows && boot == |candidates.rows| - |old(candidates.rows)|
      ensures if job.phase == Phase.Bootstrap && !state.seeded
              then |world.seen| == |old(world.seen)| + 1 && old(world.seen) <= world.seen && world.seen[|old(world.seen)|].Sweep?
                   && LandedFirst(job, boot, old(candidates.rows), candidates.rows, world.seen[|old(world.seen)|].found, lib.urls)
              else boot == 0 && world.seen == old(world.seen)
      ensures jobs.rows
        == if job.phase == Phase.Bootstrap then JobRegistry.PhaseTable(old(jobs.rows), job.jobId, Discovery) else old(jobs.rows)
      ensures CountOf(candidates.rows, job.jobId) == old(CountOf(candidates.rows, job.jobId)) + boot
    {
      hide AllRepresented, Legal, Replay, Paced, Replayed, UniqueFingerprints, BacklogLarge, UrlsNamed, Covered;
      CoveredLoosely(candidates.rows, queue.rows, lib.urls, backlog, backlog + {job.jobId});
      working, after, boot := job, state, 0;
      if job.phase == Phase.Bootstrap {
        if !state.seeded {
          var found := world.SeedDiscovery();
          boot := Land(job, found);
          assert candidates.rows[..|old(candidates.rows)| + boot] == candidates.rows;
          after := state.(seeded := true);
        }
        jobs.SetPhase(job.jobId, Discovery);
        working := job.(phase := Discovery);
      }
    }

    /** Discovers and, for an incremental job, revalidates; then promotes. */
    method Gather(job: Job, outcome: RunOutcome) returns (requeued: nat, ghost asOf: int)
      requires Landing(job.jobId)
      modifies this`backlog, queue, candidates, world, clock, outcome`discovered
      ensures Valid() && old(clock.now) <= asOf <= clock.now && OwnRows(old(queue.rows), queue.rows, job.jobId)
      ensures requeued > 0 ==> job.phase == Incremental
      ensures old(NoneInFlight(queue.rows, job.jobId)) ==>
        NoneInFlight(queue.rows, job.jobId) && Prepared(job, asOf, old(queue.rows), queue.rows)
      ensures backlog - {job.jobId} == old(backlog) - {job.jobId}
      ensures Gathered(old(Snapshot(outcome, job.jobId)).Requeued(requeued), Snapshot(outcome, job.jobId), 0)
      ensures SweptOnce(job, old(world.seen)) && old(candidates.rows) <= candidates.rows && old(queue.log) <= queue.log
    {
      hide Core, Covered, AllRepresented, TallyOf, CountOf, CountStatus, PromotedRows, Wired, Merges, Prepared;
      hide OwnRows, NoneInFlight, Appended, FetchQueue.StaleIds, SweptFirst;
      requeued, asOf := 0, clock.now;
      OwnRowsSelf(queue.rows, job.jobId);
      if job.phase == Incremental {
        requeued := RevalidateItems(job);
        asOf := clock.now;
      }
      ghost var rows := queue.rows;
      DiscoverSeeds(job, outcome);
      PromoteNewCandidates(job);
      AppendedKeeps(rows, queue.rows, job.jobId);
      OwnRowsOn(old(queue.rows), rows, queue.rows, job.jobId);
      if old(NoneInFlight(queue.rows, job.jobId)) {
        PreparedBy(job, asOf, old(queue.rows), rows, queue.rows);
      }
    }

    /** One sweep in the sweeping phases, whose URLs are all candidates now; otherwise none. */
    ghost predicate SweptOnce(job: Job, seen: seq<Observation>)
      reads world, candidates
    {
      var sweeps := if Sweeping(job.phase) then 1 else 0;
      |world.seen| == |seen| + sweeps && SweptFirst(job, sweeps, seen, world.seen, candidates.rows, lib.urls)
    }

    method DiscoverSeeds(job: Job, outcome: RunOutcome)
      requires Landing(job.jobId)
      modifies candidates, world, clock, outcome`discovered
      ensures Landing(job.jobId) && old(clock.now) <= clock.now
      ensures Gathered(old(Snapshot(outcome, job.jobId)), Snapshot(outcome, job.jobId), 0)
      ensures SweptOnce(job, old(world.seen)) && old(candidates.rows) <= candidates.rows
    {
      hide Core, Covered, TallyOf, AllRepresented, Merges;
      if job.phase == Discovery || job.phase == Collect || job.phase == Incremental {
        var found := world.SeedDiscovery();
        var created := Land(job, found);
        outcome.discovered := outcome.discovered + created;
      }
    }

    /** The numbers the job's runs recorded, oldest first. */
    ghost function Yields(jobId: string): seq<Yield>
      reads runHistory
    {
      RunHistory.YieldsOf(runHistory.discovery, jobId)
    }

    /** What the phase decision reads besides them. */
    ghost function Around(job: Job): Circumstances
      reads queue, entities, review, runHistory
    {
      CircumstancesOf(job, queue.rows, entities.rows, review.rows, runHistory.runs)
    }

    /** Decides the phase after a run, and counts the run into the streak. */
    method AdvancePhase(job: Job, state: Checkpoints.Progress) returns (phase: Phase, after: Checkpoints.Progress)
      modifies jobs
      ensures after == if job.phase == Incremental then state
                       else state.(lowDiscoveryStreak := NextStreak(state.lowDiscoveryStreak, Yields(job.jobId)))
      ensures phase == NextPhase(job.phase, Yields(job.jobId), after.lowDiscoveryStreak, Around(job))
      ensures jobs.rows == if phase == job.phase then old(jobs.rows) else JobRegistry.PhaseTable(old(jobs.rows), job.jobId, phase)
    {
      hide ErrorRate, OpenCount, Entities.CountFor, RunHistory.YieldsOf, Saturated, ConditionsMet;
      phase, after := job.phase, state;
      if job.phase == Incremental {
        return;
      }
      var queueEmpty := queue.IsEmpty(job.jobId);
      var runs := RunHistory.YieldsOf(runHistory.discovery, job.jobId);
      var saturated := IsSaturated(runs);
      var streak := state.lowDiscoveryStreak;
      if runs != [] {
        var last := runs[|runs| - 1];
        if last.total != 0 { RateIsLow(last); }
        var rate := if last.total != 0 then last.created as real / last.total as real else 0.0;
        streak := if rate <= 0.05 then streak + 1 else 0;
      }
      after := state.(lowDiscoveryStreak := streak);
      if job.phase == Discovery || job.phase == Collect {
        if queueEmpty && saturated {
          phase := if job.phase == Collect then Validation else Collect;
        } else if !queueEmpty {
          phase := Collect;
        }
      } else if job.phase == Validation {
        var errorRate := ErrorRate(runHistory.runs, job.jobId);
        var entityCount, reviews := Entities.CountFor(entities.rows, job.jobId), OpenCount(review.rows, job.jobId);
        var signals := Signals(queueEmpty, entityCount, errorRate, reviews, saturated, streak);
        var met, unmet := Phase1ConditionsMet(signals, job.config.conditions);
        phase := if met then Phase1Complete else Validation;
      } else if job.phase == Phase1Complete {
        phase := Incremental;
      }
      if phase != job.phase {
        jobs.SetPhase(job.jobId, phase);
      }
    }

    /** The job's phase, streak and recorded runs; which of them were saved is not stored. */
    ghost function PhaseState(jobId: string): PhaseHistory.JobState
      requires jobId in jobs.rows
      reads jobs, checkpoints, runHistory
    {
      StateOf(jobs.rows, checkpoints.rows, runHistory.discovery, jobId)
    }

    /** Records the run's numbers, decides the phase and saves the checkpoint. */
    method CloseRun(job: Job, runId: nat, state: Checkpoints.Progress, outcome: RunOutcome) returns (ghost yielded: Yield)
      requires job.phase != Phase.Bootstrap && 0 <= outcome.discovered <= CountOf(candidates.rows, job.jobId)
      requires state.currentRunId == Some(runId)
      requires Names(checkpoints.rows, runHistory.runs, job.jobId, runId) && NamesOwnRuns(checkpoints.rows, runHistory.runs)
      requires job.jobId in jobs.rows && jobs.rows[job.jobId].phase == job.phase
      modifies runHistory`discovery, checkpoints, jobs
      ensures NamesOwnRuns(checkpoints.rows, runHistory.runs)
      ensures Names(checkpoints.rows, runHistory.runs, job.jobId, runId)
      ensures yielded == Yield(CountOf(candidates.rows, job.jobId), outcome.discovered)
      ensures Yields(job.jobId) == old(Yields(job.jobId)) + [yielded]
      ensures runHistory.discovery == old(runHistory.discovery) + [RunHistory.DiscoveryRow(
        job.jobId, runId, yielded, CountStatus(candidates.rows, job.jobId, Duplicate),
        CountStatus(candidates.rows, job.jobId, Accepted), CountStatus(candidates.rows, job.jobId, Rejected))]
      ensures OwnCheckpoint(old(checkpoints.rows), checkpoints.rows, job.jobId)
      ensures OwnYields(old(runHistory.discovery), runHistory.discovery, job.jobId)
      ensures checkpoints.rows[job.jobId].state
        == state.(lowDiscoveryStreak := checkpoints.rows[job.jobId].state.lowDiscoveryStreak)
      ensures job.jobId in jobs.rows && jobs.rows[job.jobId] == old(jobs.rows)[job.jobId].(phase := jobs.rows[job.jobId].phase)
      ensures jobs.rows == old(jobs.rows)[job.jobId := jobs.rows[job.jobId]]
      ensures checkpoints.rows == old(checkpoints.rows)[job.jobId := Checkpoints.Checkpoint(
        Some(runId), Some(jobs.rows[job.jobId].phase), checkpoints.rows[job.jobId].state)]
      ensures PhaseMoved(job.jobId, PhaseHistory.JobState(job.phase, state.lowDiscoveryStreak, old(Yields(job.jobId)), []),
                         PhaseHistory.Completed(yielded, Around(job)))
    {
      hide CountOf, CountStatus, Entities.CountFor, OpenCount;
      yielded := Yield(CountOf(candidates.rows, job.jobId), outcome.discovered);
      runHistory.RecordDiscoveryStats(
        job.jobId, runId, Yield(CountOf(candidates.rows, job.jobId), outcome.discovered),
        CountStatus(candidates.rows, job.jobId, Duplicate), CountStatus(candidates.rows, job.jobId, Accepted),
        CountStatus(candidates.rows, job.jobId, Rejected));
      assert runHistory.discovery[..|runHistory.discovery| - 1] == old(runHistory.discovery);
      var phase, after := AdvancePhase(job, state);
      checkpoints.Save(job.jobId, Some(runId), Some(phase), after);
      assert PhaseHistory.WorkingPhase(job.phase) == job.phase;
    }

    /** Everything before the drain: seeds, bootstrap, discovery, promotion. */
    method Feed(job: Job, state: Checkpoints.Progress, outcome: RunOutcome)
      returns (working: Job, after: Checkpoints.Progress, ghost boot: nat, ghost requeued: nat, ghost asOf: int)
      requires Valid() && NoneInFlight(queue.rows, job.jobId)
      modifies this`backlog, jobs, queue, candidates, world, clock, outcome`discovered
      ensures backlog - {job.jobId} == old(backlog) - {job.jobId}
      ensures Valid() && old(clock.now) <= asOf <= clock.now
      ensures working == job.(phase := PhaseHistory.WorkingPhase(job.phase))
      ensures after == if job.phase == Phase.Bootstrap then state.(seeded := true) else state
      ensures jobs.rows
        == if job.phase == Phase.Bootstrap then JobRegistry.PhaseTable(old(jobs.rows), job.jobId, Discovery) else old(jobs.rows)
      ensures Gathered(old(Snapshot(outcome, job.jobId)).Seeded(boot).Requeued(requeued), Snapshot(outcome, job.jobId), 0)
      ensures requeued > 0 ==> job.phase == Incremental
      ensures OwnRows(old(queue.rows), queue.rows, job.jobId) && SeedsTracked(queue.rows, job, lib.urls)
      ensures NoneInFlight(queue.rows, job.jobId)
      ensures SweptAll(job, state.seeded, boot, old(world.seen), world.seen, old(candidates.rows), candidates.rows, lib.urls)
      ensures Prepared(job, asOf, old(queue.rows), queue.rows) && old(queue.log) <= queue.log
    {
      hide Core, Covered, TallyOf, CountOf, OwnRows, NoneInFlight, AllTracked, Prepared, SweptFirst, LandedFirst, SweptAll;
      hide Merges, Appended;
      var seeds := EnsureSeedUrlsQueued(job);
      ghost var rows := queue.rows;
      SeedsQueuedKeeps(job.config.seedUrls, old(queue.rows), rows, seeds, job, lib.urls);
      working, after, boot := Bootstrap(job, state);
      ghost var seen, landed := world.seen, candidates.rows;
      requeued, asOf := Gather(working, outcome);
      OwnRowsOn(old(queue.rows), rows, queue.rows, job.jobId);
      SeedsKept(rows, queue.rows, job, lib.urls);
      PreparedThrough(job, working.phase, asOf, old(queue.rows), rows, queue.rows);
      SweptWorking(job, working.phase, seen, world.seen, candidates.rows, lib.urls);
      SweptInTurn(job, state.seeded, boot, old(world.seen), seen, world.seen, old(candidates.rows), landed, candidates.rows,
                  lib.urls);
    }

    /** Everything between opening and closing the run. */
    method Work(job: Job, state: Checkpoints.Progress, outcome: RunOutcome)
      returns (working: Job, after: Checkpoints.Progress, raised: bool, ghost trace: Trace)
      requires Valid() && NoneInFlight(queue.rows, job.jobId) && outcome.fetched == 0
      modifies this`backlog, this`calls, jobs, limiter, queue, candidates, entities, evidence, review, world, clock, outcome
      ensures backlog - {job.jobId} == old(backlog) - {job.jobId}
      ensures Valid() && old(clock.now) <= clock.now
      ensures working == job.(phase := PhaseHistory.WorkingPhase(job.phase))
      ensures after == if job.phase == Phase.Bootstrap then state.(seeded := true) else state
      ensures jobs.rows
        == if job.phase == Phase.Bootstrap then JobRegistry.PhaseTable(old(jobs.rows), job.jobId, Discovery) else old(jobs.rows)
      ensures Conserved(old(Snapshot(outcome, job.jobId)).Seeded(trace.boot).Requeued(trace.requeued),
                        Snapshot(outcome, job.jobId), if raised then 1 else 0)
      ensures trace.requeued > 0 ==> job.phase == Incremental
      ensures SweptAll(job, state.seeded, trace.boot, old(world.seen), world.seen, old(candidates.rows), candidates.rows,
                       lib.urls)
      ensures PreparedAt(job, trace, old(queue.rows), old(queue.log), queue.log)
      ensures old(clock.now) <= trace.asOf <= clock.now
      ensures trace.lagging <==> job.jobId in backlog
      ensures WithinBudget(job, trace.drain, |limiter.requests| - |old(limiter.requests)|, old(clock.now), old(queue.rows),
                           outcome)
      ensures !raised ==> DrainedOut(job, trace.drain, old(clock.now), outcome) && trace.drain.stopped <= clock.now
      ensures OwnRows(old(queue.rows), queue.rows, job.jobId) && SeedsTracked(queue.rows, job, lib.urls)
      ensures raised <==> !NoneInFlight(queue.rows, job.jobId)
    {
      hide Core, Covered, TallyOf, CountOf, Stuck, Napped, NapTotal, DrainedOut, Spent, Merges, Prepared, SweptAll, OnlyRead;
      hide OwnRows, NoneInFlight, AllTracked, PreparedAt;
      ghost var boot, requeued, asOf, drain;
      working, after, boot, requeued, asOf := Feed(job, state, outcome);
      ghost var rows, log, fed := queue.rows, queue.log, clock.now;
      ghost var seen, landed := world.seen, candidates.rows;
      ReplayedQueue();
      raised, drain := DrainFetchQueue(working, outcome);
      OwnRowsOn(old(queue.rows), rows, queue.rows, job.jobId);
      SeedsKept(rows, queue.rows, job, lib.urls);
      DrainedSince(working, job.phase, drain, |limiter.requests| - |old(limiter.requests)|, fed, old(clock.now), rows,
                   old(queue.rows), outcome, raised);
      SweptStays(job, state.seeded, boot, old(world.seen), seen, world.seen, old(candidates.rows), landed, candidates.rows,
                 lib.urls);
      trace := Trace(None, boot, requeued, asOf, |log|, drain, job.jobId in backlog, Yield(0, 0), Around(job));
      IsPreparedAt(job, trace, old(queue.rows), old(queue.log), log, queue.log);
    }

    lemma ReplayedQueue()
      requires Core()
      ensures queue.rows == Replay(queue.log)
    {
    }

    ghost predicate WithinBudget(job: Job, drain: Drain, sent: int, early: int, before: seq<Row>, outcome: RunOutcome)
      reads outcome, queue
    {
      outcome.fetched <= job.config.maxPages && Spent(job, drain, sent, early, before)
    }

    /** The books of a run about to start. */
    ghost function Opening(jobId: string): Books
      reads entities, review, candidates, queue, limiter, this`calls
    {
      Books(0, 0, 0, 0, 0, 0, 0, |entities.rows|, Merges(lib, calls), |review.rows|, CountOf(candidates.rows, jobId),
            |limiter.requests|, TallyOf(queue.log))
    }

    /** Nothing of the database changed. */
    twostate predicate Untouched()
      reads this, queue, limiter, candidates, entities, evidence, review, runHistory, checkpoints, jobs
    {
      unchanged(this, queue, limiter, candidates, entities, evidence, review, runHistory, checkpoints, jobs)
    }

    /** Recovers interrupted fetches and opens the run. */
    method Begin(job: Job) returns (runId: nat, state: Checkpoints.Progress, recovered: nat)
      requires Valid() && NamesOwnRuns(checkpoints.rows, runHistory.runs) && job.jobId in jobs.rows
      modifies queue, runHistory`runs, checkpoints, clock
      ensures Valid() && old(clock.now) <= clock.now && NamesOwnRuns(checkpoints.rows, runHistory.runs)
      ensures OwnRows(old(queue.rows), queue.rows, job.jobId) && NoneInFlight(queue.rows, job.jobId)
      ensures old(NoneInFlight(queue.rows, job.jobId)) ==> recovered == 0
      ensures Recovered(job.jobId, old(queue.rows), queue.rows) && old(queue.log) <= queue.log
      ensures Opening(job.jobId) == old(Opening(job.jobId)).Requeued(recovered)
      ensures Names(checkpoints.rows, runHistory.runs, job.jobId, runId)
      ensures OwnCheckpoint(old(checkpoints.rows), checkpoints.rows, job.jobId)
      ensures Opened(old(checkpoints.rows), old(runHistory.runs), runHistory.runs, job.jobId, runId)
      ensures RunsBegun(old(runHistory.runs), runHistory.runs, old(clock.now), clock.now)
      ensures state == Checkpoints.Loaded(checkpoints.rows, job.jobId).state
      ensures PhaseState(job.jobId) == old(PhaseState(job.jobId))
      ensures state.currentRunId == Some(runId)
      ensures state.seeded == Checkpoints.Loaded(old(checkpoints.rows), job.jobId).state.seeded
      ensures Resumable(old(checkpoints.rows), old(runHistory.runs), job.jobId).None? ==>
        ErrorRate(runHistory.runs, job.jobId) == 0.0
    {
      hide Core, Covered, TallyOf, CountOf, Resumable, ErrorRate, Opened, Names, RunHistory.YieldsOf, Merges, Recovered;
      hide RunsBegun;
      recovered := RecoverItems(job);
      runId, state := OpenRun(job);
    }

    /** Works on an opened run and, unless the work raises, closes it. */
    method Serve(job: Job, runId: nat, state: Checkpoints.Progress, outcome: RunOutcome)
      returns (raised: bool, ghost trace: Trace)
      requires Valid() && NoneInFlight(queue.rows, job.jobId)
      requires Snapshot(outcome, job.jobId) == Opening(job.jobId)
      requires job.jobId in jobs.rows && jobs.rows[job.jobId].phase == job.phase
      requires NamesOwnRuns(checkpoints.rows, runHistory.runs)
      requires Names(checkpoints.rows, runHistory.runs, job.jobId, runId)
      requires state == Checkpoints.Loaded(checkpoints.rows, job.jobId).state && state.currentRunId == Some(runId)
      modifies this`backlog, this`calls, jobs, limiter, queue, candidates, entities, evidence, review, world,
        runHistory`discovery, checkpoints, clock, outcome
      ensures backlog - {job.jobId} == old(backlog) - {job.jobId}
      ensures Valid() && old(clock.now) <= clock.now
      ensures NamesOwnRuns(checkpoints.rows, runHistory.runs)
      ensures Names(checkpoints.rows, runHistory.runs, job.jobId, runId)
      ensures Conserved(old(Opening(job.jobId)).Seeded(trace.boot).Requeued(trace.requeued),
                        Snapshot(outcome, job.jobId), if raised then 1 else 0)
      ensures trace.requeued > 0 ==> job.phase == Incremental
      ensures SweptAll(job, state.seeded, trace.boot, old(world.seen), world.seen, old(candidates.rows), candidates.rows,
                       lib.urls)
      ensures PreparedAt(job, trace, old(queue.rows), old(queue.log), queue.log)
      ensures old(clock.now) <= trace.asOf <= clock.now
      ensures trace.lagging <==> job.jobId in backlog
      ensures WithinBudget(job, trace.drain, |limiter.requests| - |old(limiter.requests)|, old(clock.now), old(queue.rows),
                           outcome)
      ensures !raised ==> DrainedOut(job, trace.drain, old(clock.now), outcome) && trace.drain.stopped <= clock.now
      ensures OwnRows(old(queue.rows), queue.rows, job.jobId)
      ensures raised <==> !NoneInFlight(queue.rows, job.jobId)
      ensures !raised ==> SeedsTracked(queue.rows, job, lib.urls)
      ensures job.jobId in jobs.rows && jobs.rows[job.jobId] == old(jobs.rows)[job.jobId].(phase := jobs.rows[job.jobId].phase)
      ensures jobs.rows == old(jobs.rows)[job.jobId := jobs.rows[job.jobId]]
      ensures !raised ==> trace.yielded == Yield(CountOf(candidates.rows, job.jobId), outcome.discovered)
      ensures PhaseMoved(job.jobId, old(PhaseState(job.jobId)),
                         if raised then PhaseHistory.DiedEarly(true) else PhaseHistory.Completed(trace.yielded, trace.around))
      ensures OwnCheckpoint(old(checkpoints.rows), checkpoints.rows, job.jobId)
      ensures OwnYields(old(runHistory.discovery), runHistory.discovery, job.jobId)
      ensures !raised ==> trace.around == Around(job)
    {
      hide OwnCheckpoint, OwnYields, Core, Covered, TallyOf, CountOf, ErrorRate, OpenCount, Entities.CountFor;
      hide PhaseHistory.After, PhaseHistory.WorkingPhase, RunHistory.YieldsOf, OwnRows, NoneInFlight, SeedsTracked, Tracked;
      hide Conserved, WithinBudget, Merges, SweptAll, PreparedAt;
      var working, after;
      working, after, raised, trace := Work(job, state, outcome);
      PhaseHistory.WorkingIs(job.phase);
      if raised {
        OwnCheckpointSelf(checkpoints.rows, job.jobId);
        OwnYieldsSelf(runHistory.discovery, job.jobId);
        PhaseHistory.DiedAfter(old(PhaseState(job.jobId)));
      } else {
        NewWithinTotal(old(Opening(job.jobId)), trace, Snapshot(outcome, job.jobId));
        ghost var yielded := CloseRun(working, runId, after, outcome);
        PreparedUnder(job, trace, yielded, Around(job), old(queue.rows), old(queue.log), queue.log);
        trace := trace.(yielded := yielded, around := Around(job));
        PhaseHistory.CompletedAfter(old(PhaseState(job.jobId)), yielded, Around(job));
      }
    }

    /** One bounded unit of work. Only a fetch or an adapter raises, and an unknown adapter does so
        before anything is written. */
    method RunOnce(job: Job) returns (raised: bool, outcome: RunOutcome, ghost trace: Trace)
      requires Valid() && NamesOwnRuns(checkpoints.rows, runHistory.runs)
      requires job.jobId in jobs.rows && jobs.rows[job.jobId].phase == job.phase
      modifies this`backlog, this`calls, jobs, limiter, queue, candidates, entities, evidence, review, world, runHistory,
        checkpoints, clock
      ensures backlog - {job.jobId} == old(backlog) - {job.jobId}
      ensures fresh(outcome) && Valid() && NamesOwnRuns(checkpoints.rows, runHistory.runs) && old(clock.now) <= clock.now
      ensures trace.runId.None? <==> !job.config.adapterKnown
      ensures !job.config.adapterKnown ==> raised && Untouched()
      ensures job.config.adapterKnown ==>
        && Names(checkpoints.rows, runHistory.runs, job.jobId, trace.runId.value)
        && Opened(old(checkpoints.rows), old(runHistory.runs), runHistory.runs, job.jobId, trace.runId.value)
      ensures RunsBegun(old(runHistory.runs), runHistory.runs, old(clock.now), clock.now)
      ensures Conserved(old(Opening(job.jobId)).Seeded(trace.boot).Requeued(trace.requeued),
                        Snapshot(outcome, job.jobId), if raised && job.config.adapterKnown then 1 else 0)
      ensures trace.requeued > 0 ==> job.phase == Incremental || !old(NoneInFlight(queue.rows, job.jobId))
      ensures job.config.adapterKnown ==>
        SweptAll(job, Checkpoints.Loaded(old(checkpoints.rows), job.jobId).state.seeded, trace.boot, old(world.seen), world.seen,
                 old(candidates.rows), candidates.rows, lib.urls)
      ensures job.config.adapterKnown ==> PreparedAt(job, trace, old(queue.rows), old(queue.log), queue.log)
      ensures old(clock.now) <= trace.asOf <= clock.now
      ensures trace.lagging <==> job.jobId in backlog
      ensures WithinBudget(job, trace.drain, |limiter.requests| - |old(limiter.requests)|, old(clock.now), old(queue.rows),
                           outcome)
      ensures !raised ==> DrainedOut(job, trace.drain, old(clock.now), outcome) && trace.drain.stopped <= clock.now
      ensures OwnRows(old(queue.rows), queue.rows, job.jobId)
      ensures !raised ==> NoneInFlight(queue.rows, job.jobId) && SeedsTracked(queue.rows, job, lib.urls)
      ensures job.config.adapterKnown ==> (raised <==> !NoneInFlight(queue.rows, job.jobId))
      ensures job.jobId in jobs.rows && jobs.rows[job.jobId] == old(jobs.rows)[job.jobId].(phase := jobs.rows[job.jobId].phase)
      ensures jobs.rows == old(jobs.rows)[job.jobId := jobs.rows[job.jobId]]
      ensures !raised ==> trace.yielded == Yield(CountOf(candidates.rows, job.jobId), outcome.discovered)
      ensures PhaseMoved(job.jobId, old(PhaseState(job.jobId)),
                         if raised then PhaseHistory.DiedEarly(job.config.adapterKnown)
                         else PhaseHistory.Completed(trace.yielded, trace.around))
      ensures OwnCheckpoint(old(checkpoints.rows), checkpoints.rows, job.jobId)
      ensures OwnYields(old(runHistory.discovery), runHistory.discovery, job.jobId)
      ensures !raised ==> trace.around == Around(job)
      ensures job.config.adapterKnown && Resumable(old(checkpoints.rows), old(runHistory.runs), job.jobId).None? ==>
        ErrorRate(runHistory.runs, job.jobId) == 0.0
    {
      hide Core, Valid, Covered, TallyOf, CountOf, Resumable, ErrorRate, OpenCount, Entities.CountFor;
      hide OwnCheckpoint, OwnYields, OwnRows, NoneInFlight, SeedsTracked, Names, NamesOwnRuns, Opened, Tracked, PhaseState;
      hide Around, PhaseMoved;
      hide PhaseHistory.After, DrainedOut, WithinBudget, Covered, Conserved, Merges, SweptAll, PreparedAt, Recovered;
      hide Checkpoints.Loaded, RunsBegun;
      outcome := new RunOutcome();
      trace := Trace(None, 0, 0, clock.now, 0, Drain(0, [], None, clock.now, clock.now), job.jobId in backlog, Yield(0, 0),
                     Around(job));
      if !job.config.adapterKnown {
        NothingSpent(job, outcome);
        NothingDone(Opening(job.jobId));
        OwnRowsSelf(queue.rows, job.jobId);
        OwnCheckpointSelf(checkpoints.rows, job.jobId);
        OwnYieldsSelf(runHistory.discovery, job.jobId);
        NotMoved(job.jobId);
        NoRunsBegun(clock.now);
        return true, outcome, trace;
      }
      var runId, state, recovered := Begin(job);
      ghost var rows, log, named, early := queue.rows, queue.log, checkpoints.rows, clock.now;
      raised, trace := Serve(job, runId, state, outcome);
      RunsBegunWithin(old(runHistory.runs), runHistory.runs, old(clock.now), early, old(clock.now), clock.now);
      PreparedAtSince(job, trace, runId, recovered, old(queue.rows), rows, old(queue.log), log, queue.log);
      RequeuedTwice(old(Opening(job.jobId)), recovered, trace.boot, trace.requeued);
      trace := trace.(runId := Some(runId), requeued := trace.requeued + recovered);
      OwnRowsOn(old(queue.rows), rows, queue.rows, job.jobId);
      OwnCheckpointOn(old(checkpoints.rows), named, checkpoints.rows, job.jobId);
      DrainedSince(job, job.phase, trace.drain, |limiter.requests| - |old(limiter.requests)|, early, old(clock.now), rows,
                   old(queue.rows), outcome, raised);
    }

    /** The job's phase, streak and recorded runs moved as the phase history says for this run. */
    ghost predicate PhaseMoved(jobId: string, before: PhaseHistory.JobState, run: PhaseHistory.Run)
      requires jobId in jobs.rows
      reads jobs, checkpoints, runHistory
    {
      PhaseState(jobId) == PhaseHistory.After(before, run).(saved := [])
    }

    /** A job that lags behind has more candidates than one promotion takes. */
    lemma LaggingIsLarge(jobId: string)
      requires Core() && jobId in backlog
      ensures CountOf(candidates.rows, jobId) > PROMOTION_LIMIT
    {
    }

    lemma NothingSpent(job: Job, outcome: RunOutcome)
      requires outcome.fetched == 0
      ensures WithinBudget(job, Drain(0, [], None, clock.now, clock.now), 0, clock.now, queue.rows, outcome)
    {
    }

    /** Seen from an earlier state, and in whatever phase, it is the same drain. */
    lemma DrainedSince(job: Job, phase: Phase, drain: Drain, sent: int, early: int, since: int, before: seq<Row>,
                       earlier: seq<Row>, outcome: RunOutcome, raised: bool)
      requires since <= early && OwnRows(earlier, before, job.jobId) && WithinBudget(job, drain, sent, early, before, outcome)
      requires !raised ==> DrainedOut(job, drain, early, outcome)
      ensures WithinBudget(job.(phase := phase), drain, sent, since, earlier, outcome)
      ensures !raised ==> DrainedOut(job.(phase := phase), drain, since, outcome)
    {
      hide NapTotal, Stuck, Napped;
      NappedSince(drain.naps, job, phase, since, early, drain.stopped, earlier, before, queue.rows);
    }

    lemma NoRunsBegun(now: int)
      ensures RunsBegun(runHistory.runs, runHistory.runs, now, now)
    {
    }

    lemma NotMoved(jobId: string)
      requires jobId in jobs.rows
      ensures PhaseMoved(jobId, PhaseState(jobId), PhaseHistory.DiedEarly(false))
    {
    }
  }

  /** What every state of a valid collector shows, however many runs led to it: sound queue rows,
      spaced requests, distinct identities, data that its evidence explains, and records that are
      recognized when they come again. */
  lemma SoundState(c: BaseCollector)
    requires c.Valid()
    ensures GoodRows(c.queue.rows)
    ensures Spaced(c.limiter.rows, c.limiter.requests)
    ensures PersistenceHistory.DistinctFingerprints(c.entities.rows)
    ensures (forall i :: 0 <= i < |c.calls| ==> PersistenceHistory.FieldsApart(Entities.AsMap(c.calls[i].record.fields))) ==>
      PersistenceHistory.Traceable(Persistence.Tables(c.entities.rows, c.evidence.rows))
    ensures NeverEmpties(c.lib.urls) && Fingerprint.IdealHash(c.lib.sha) ==>
      forall i :: 0 <= i < |c.calls| ==> PersistenceHistory.Identified(c.lib, c.calls[i])
  {
    hide Persistence.Persisted, PersistenceHistory.Extends, PersistenceHistory.Identified;
    ReachableRows(c.queue.log);
    PersistenceHistory.HistoryExtends(c.lib, EMPTY_TABLES, c.calls);
    if forall i :: 0 <= i < |c.calls| ==> PersistenceHistory.FieldsApart(Entities.AsMap(c.calls[i].record.fields)) {
      PersistenceHistory.HistoryTraceable(c.lib, EMPTY_TABLES, c.calls);
    }
    if NeverEmpties(c.lib.urls) && Fingerprint.IdealHash(c.lib.sha) {
      forall i | 0 <= i < |c.calls| ensures PersistenceHistory.Identified(c.lib, c.calls[i]) {
        PersistenceHistory.SourceUrlIdentifies(c.lib, c.calls[i]);
      }
    }
  }

  /** In the crawl a repeated record never inserts, lands where the first one did, and changes no
      entity: the exception of `persist` cannot arise. */
  lemma RepeatNeverInserts(c: BaseCollector, i: nat, db: Persistence.Tables)
    requires c.Valid() && i < |c.calls| && NeverEmpties(c.lib.urls) && Fingerprint.IdealHash(c.lib.sha)
    ensures var (once, first) := Persistence.Persisted(c.lib, db, c.calls[i]);
            var (twice, second) := Persistence.Persisted(c.lib, once, c.calls[i]);
            && twice.entities == once.entities && !second.Inserted?
            && second == if first.Inserted? then Persistence.Updated(first.entityId) else first
  {
    hide Persistence.Persisted;
    PersistenceHistory.SourceUrlIdentifies(c.lib, c.calls[i]);
    PersistenceHistory.PersistAgain(c.lib, db, c.calls[i]);
  }
}
