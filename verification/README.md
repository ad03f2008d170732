# Crawl engine: a verified model

A Dafny model of the crawl engine of `db_collector_os`, with proofs of what it keeps.
Tables are sequences or maps held by store classes; every method that writes a table
states the whole new table. Run `dafny verify dfyconfig.toml`.

The model has six layers.

* **Two string algorithms.** `DataLayerScanner` is the balanced-object scanner, proved against
  a scan automaton and a JSON syntax tree with a printer. `UrlNormalization` is the canonical
  form of a split URL.
* **Identity and persistence.** `Fingerprint`, `Deduplication`, `Entities`, `Persistence`,
  `PersistedRows` for what one `persist` call writes, in terms of the record alone, and
  `PersistenceHistory` for what any history of calls keeps.
* **The fetch queue.** `FetchQueue` holds the rows and a ghost log of its operations, with
  `rows == Replay(log)` as its invariant. `QueueLog` proves what every legal log keeps, so each
  theorem about logs is a theorem about the live queue. `RateLimiter` does the same for requests.
* **One run.** `Candidates`, `Phases`, `RunHistory`, `Checkpoints`, `JobRegistry` are the stores;
  `Pipeline.BaseCollector` is the pipeline over them, `CrawlState` its vocabulary: the books that
  must balance, the rows a candidate or seed must have. `PhaseHistory` proves what any history of
  runs, crashed ones included, does to phase and streak; `BaseCollector.RunOnce` refines its step.
* **The worker.** `Worker` records runs and loops over jobs, and keeps a ghost history of the runs of
  every job that was fresh when it began, so that the phase theorems hold of the tables
  (`Worker.HistoriesTell`). `Scheduler` queues due jobs.
* **Concurrency.** `Lifecycle` is a state machine of any number of worker and command-line
  processes, the scheduler, stale recovery and the operator, in which every SQL statement is one
  step and a process may die or raise between any two. `LifecycleAccounting` finds an owner for
  every running row in every reachable state. `LifecycleRefinement` ties the two models of a call:
  what `Worker.RunJobAndRecord` leaves in the shared tables is an outcome of these steps.

What is outside the engine reaches it as arbitrary values: fetch results, page contents and
observed URLs (`Surroundings.World`, which logs its answers), the clock (`Common.Clock`, which never
runs backwards), validation, name, address and telephone normalization, hashing, splitting and
joining URLs. Clock readings are microseconds; stored times are whole seconds, because the engine
stores ISO times without fractions (db_collector_os/job_registry.py:14-19).

Four properties that one might expect turn out false of the code. Each has a lemma at an input where
it fails and the exact condition under which it holds.

* Mutual exclusion fails when stale recovery resets a job whose worker is merely slow
  (`Lifecycle.RecoveryRace`), or one claimed since the recovery selected it (`Lifecycle.LockStolen`).
  A step keeps exclusion if and only if it does not preempt a live process (`Lifecycle.ExclusionIff`).
* URL normalization is not idempotent: it strips the text before it cuts off the fragment, the
  tracking parameters and the trailing slashes, so whitespace in front of any of these survives one
  pass (`UrlNormalization.SpaceBeforeFragment`, `SpaceBeforeSlash`, `SpaceBeforeTracking`), and such a
  seed is reported as newly queued on every call (`CrawlState.UnstableSeedReported`). A URL is stable
  if and only if a query pair is kept or its path, without trailing slashes, does not end in whitespace
  (`UrlNormalization.StableIff`). That leaves paths that begin with whitespace or, without a host, with
  two slashes, where it is up to the library's version (`UrlNormalization.HostAppears`). The crawl
  theorems assume no idempotence: a candidate's row is found under its URL as stored or as the queue
  normalizes it.
* A low-yield streak and a saturated history disagree after crashes
  (`PhaseHistory.CrashesBreakAgreement`). A saturated history has the streak that completion asks for if
  and only if three runs were saved and those of the last three saved before the saturation window were
  low (`PhaseHistory.SaturationAgreesIff`).
* The evidence log need not explain the stored data when a record has a field named like one of
  the five common columns (`PersistenceHistory.ProvenanceLost`, an item of the sample adapter's shape).
  One call keeps provenance if and only if such fields agree with the columns
  (`PersistenceHistory.ProvenanceIff`).

A fifth concerns `persist` alone: a record without any identifying signal is inserted again when it is
persisted again, and only such a record is (`PersistenceHistory.RepeatInsertsIffUnidentified`). The
crawl never makes such a call, because every call has the page's URL (`CrawlState.CallsIdentified`), so
there a repeat never inserts (`Pipeline.RepeatNeverInserts`).

A promotion takes at most 500 fresh candidates. A job whose latest promotion met more is on the
collector's ghost `backlog` until a promotion takes them all; only such a job can have fresh
candidates without a queue row.

## Model

| member | source | states |
|---|---|---|
| DataLayerScanner.RoundTrip | db_collector_os/extraction/datalayer.py:58-94 | For every JSON object tree with the escapes of section 7 of RFC 8259, any leading whitespace and any suffix, the scanner returns exactly the printed object |
| DataLayerScanner.PrintedObjectIsShortest | db_collector_os/extraction/datalayer.py:68-94 | A printed object, whatever follows it, is the shortest balanced prefix |
| DataLayerScanner.ValueQuiet | db_collector_os/extraction/datalayer.py:68-94 | Scanning any printed JSON value returns to the depth it started at, outside any string, and never below it |
| DataLayerScanner.ShortestUnique | db_collector_os/extraction/datalayer.py:68-94 | There is at most one such prefix, so the scanner's contract determines its result |
| DataLayerScanner.ExtractBalancedObject | db_collector_os/extraction/datalayer.py:58-94 | On any text: after the call's optional whitespace, the shortest non-empty prefix with string-aware brace depth zero, or nothing exactly when there is none |
| LifecycleAccounting.AlwaysAccounted | db_collector_os/worker.py:43-107 | In every state that any run without preemption reaches, crashes and exceptions included, every running row is an orphan, named by its job's checkpoint or carried by a process |
| LifecycleAccounting.RunningBetweenCalls | db_collector_os/collectors/pipeline.py:115-120 | Between calls a running row is the one its checkpoint names or an orphan, and there are exactly as many orphans as aborts between inserting a row and its next write |
| LifecycleAccounting.CallsFinalizeOnce | db_collector_os/worker.py:50-98 | A call that returns finalized exactly one row and leaves no run named; the pipeline never works under a finalized row |
| LifecycleAccounting.StepKeepsAccounts | db_collector_os/worker.py:43-107 | Each statement, crash and exception keeps an owner for every running row |
| Lifecycle.HistoryImmutable | db_collector_os/run_history.py:29-62 | Under every interleaving of processes, recoveries and crashes, a row that has left `running` never changes again |
| Lifecycle.ExclusionIff | db_collector_os/worker.py:139-165 | A step keeps "one live process per job, and its status is running" if and only if it does not preempt a live process |
| Lifecycle.AlwaysExclusive | db_collector_os/job_registry.py:150-207 | Without preemption at most one live process executes a job, in every reachable state |
| Lifecycle.RecoveryRace | db_collector_os/worker.py:139-150 | As soon as a claim is older than the cutoff, a recovery that selects and resets the job of a live worker lets a second worker in |
| Lifecycle.LockStolen | db_collector_os/worker.py:139-150 | A selected job is reset however recently its present worker claimed it, because the reset looks at the status only |
| Lifecycle.LedgerAlways | db_collector_os/job_registry.py:150-165 | Each queueing is claimed at most once, and every running job has a start time that recovery can see |
| Lifecycle.HaltedStays | db_collector_os/job_registry.py:127-200 | A failed or paused job is never claimed again without a resume |
| LifecycleRefinement.CallRefinesSteps | db_collector_os/worker.py:27-107 | Refinement: whatever a returned call has written to runs, checkpoints and job status, a process of the step machine reaches by its own statements from the claim, and is free then |
| Pipeline.BaseCollector.RunOnce | db_collector_os/collectors/pipeline.py:97-174 | The whole run: its first answers are exactly the sweeps that its phase calls for, every URL of which is a candidate at the end, and the candidates it does not count are those of the bootstrap's sweep; at a recorded point of the queue's log, before any claim, interrupted rows and, for an incremental job, the first 500 rows stale at a time within the call were queued (the stale ones with fresh attempts) and the other old rows unchanged; books balance, budgets hold and attempts are accounted for by requests and justified sleeps, a drain that stopped early had nothing to claim, seeds are tracked and so are the candidates of every job off the backlog, the phase history makes one step, the checkpoint names a running row, other jobs' queue rows, checkpoints and recorded runs are untouched, nothing is requeued without a crash or the incremental phase; it raises exactly for an unknown adapter or leaving a row in flight |
| Pipeline.SoundState | db_collector_os/collectors/pipeline.py:97-174 | In every state a collector can reach: sound queue rows, spaced requests, distinct fingerprints, data explained by evidence, every past call identified |
| Pipeline.RepeatNeverInserts | db_collector_os/collectors/pipeline.py:324-343 | Repeating any `persist` call that a collector has ever made inserts nothing and changes no entity, without a condition on the record |
| Worker.HistoriesTell | db_collector_os/collectors/pipeline.py:456-512 | In every state between runs, of each job that was fresh when the worker began: its phase certifies recorded runs, its streak is the trailing low block of them, and saturation implies a streak of three |
| Worker.Worker.RunJobAndRecord | db_collector_os/worker.py:27-107 | Whatever happens exactly one row is finalized, the named one if it was running, at a time within the call and with its duration; no run stays named, the lock is released and the job's row is as it was claimed but for phase, status and the next run, which is the poll interval or the job's own later; the finalized row tells what the tables show: entities added, merges, review rows, rows given up or failed, claims ended, candidates added but for the bootstrap's, or one error and nothing new if the call failed; sweeps and queue preparation are those of the run; the call fails exactly for an unknown adapter or with a row left in flight, and its claims, requests and endings balance either way; a job that ends completed outside the incremental phase has settled every seed and, unless it is on the backlog, every candidate; every other completed job stays settled; the job's history gains this run, whose phase step is about the numbers the tables show |
| Worker.Worker.RunForever | db_collector_os/worker.py:182-199 | Any number of passes. The first, and every one that begins more than half of the stale time after the last recovery, leaves no job running that had started before its cutoff; no pass touches another running job; then each runs one queued enabled job or finds nothing queued or due. History is immutable, one row per round at most, no phase falls, every job then completed outside the incremental phase has settled all it knows; at most five claims per URL of any universe that holds the URLs and five per requeue, and no requeue at all if no run row newly failed and no job is incremental at the end |
| Worker.PassResets | db_collector_os/worker.py:139-192 | One pass, whose recovery is due by its clock: what was stale at its begin is not running at its end, and a job started since is as it was |
| Worker.CompletedMeansResolved | db_collector_os/worker.py:87-105 | Every job completed outside the incremental phase has its seeds done, failed or skipped, and so its candidates unless it is on the backlog |
| Worker.DoneKept | db_collector_os/worker.py:27-107 | Running one job leaves every other completed job settled, and this one too if it ends completed |
| Worker.CrawlBounded | db_collector_os/collectors/pipeline.py:185-224 | Over any number of runs the collector makes at most five claims per URL of any universe that holds its URLs, and five more per requeued row |
| QueueLog.CrawlTerminates | db_collector_os/fetching/queue.py:32-160 | If all tracked URLs lie in a finite universe, all claims ever are at most the sum of their attempts, hence attempts times the universe, plus one per recovery and the attempts again per revalidation |
| QueueLog.CrawlBudget | db_collector_os/fetching/queue.py:32-160 | Claims made plus claims still possible never exceed the claims granted, while pages keep adding rows |
| QueueLog.RowLedger | db_collector_os/fetching/queue.py:47-160 | Per row: claims = failures + dones + skips + recoveries + 1 if in flight |
| QueueLog.RowClaimsBounded | db_collector_os/fetching/queue.py:95-160 | Claims of a row are bounded by its attempts, plus those granted by revalidations and recoveries |
| QueueLog.ReachableRows | db_collector_os/fetching/queue.py:32-160 | In every reachable table (job, URL) is unique, and attempts are below the limit exactly while the row is not failed |
| QueueLog.FinalStatus | db_collector_os/fetching/queue.py:47-160 | Rows keep their identity for ever, and failed and skipped are terminal |
| QueueLog.RetrySpacing | db_collector_os/fetching/queue.py:95-114 | A retry is claimed later than the server's wait, or else 2, 4, 8 and 16 seconds for the first four attempts, less one second of truncation, after its failure |
| QueueLog.BackoffDoubles | db_collector_os/fetching/queue.py:107 | The wait of a failed row: the server's own if it gave one; otherwise one second doubled with every attempt, and an hour from the twelfth on |
| PersistenceHistory.HistoryExtends | db_collector_os/persistence.py:118-247 | Over any history: entities are only added, keep job, type and fingerprint; a useful column stays useful; evidence only grows; fingerprints stay distinct within a job |
| PersistenceHistory.StableIdentity | db_collector_os/persistence.py:118-206 | Once a fingerprint belongs to an entity, every later record with it merges into that entity, whatever came between |
| PersistenceHistory.PersistAgain | db_collector_os/persistence.py:66-206 | With a fingerprint, persisting the same record again inserts nothing, lands on the same entity or refusal and changes no entity |
| PersistenceHistory.RepeatInsertsIffUnidentified | db_collector_os/persistence.py:66-206 | Of `persist` alone: a repeat inserts if and only if the record was admitted and has no fingerprint |
| PersistenceHistory.SourceUrlIdentifies | db_collector_os/persistence.py:66-116 | A call with a source URL has a fingerprint, so the repeat theorem needs no hypothesis about the record |
| PersistenceHistory.ProvenanceIff | db_collector_os/persistence.py:139-198 | A call keeps "the last evidence encodes the stored value" if and only if each common column it supplies agrees with the record's own field of that name or, without one, with the stored one |
| PersistenceHistory.ProvenanceLost | db_collector_os/adapters/sample_api.py:45-60 | The sample adapter's item with the keys id and external_id stores the one and logs the other |
| PersistenceHistory.HistoryTraceable | db_collector_os/persistence.py:139-275 | Provenance over any mix of inserts, merges and refusals, when fields avoid the five common names |
| PersistedRows.InsertedEntity | db_collector_os/persistence.py:66-164 | A new entity, column by column from the record and its page: name and id as they are, name, address and telephone each by its own normalizer, the record's URL or else the page's, the first domain of the call, the record and the two URLs; its type, fields and fingerprint; no old entity changes |
| PersistedRows.MergedEntity | db_collector_os/persistence.py:186-247 | After a merge each of the seven columns is the supplied value if that has a character other than whitespace, otherwise what it was; the record's fields are laid over the data, and nothing else of any entity changes |
| PersistedRows.OutcomeCases | db_collector_os/persistence.py:55-206 | Skipped, invalid, merged, left to review or inserted, each exactly when: an entity with the fingerprint or the URL merges, a namesake is reviewed, one that disagrees in domain, address or telephone first, and only then is the record new |
| PersistedRows.EvidenceWritten | db_collector_os/persistence.py:249-275 | The last evidence for each of the five common columns that the record has is that column, for every other field its own text or dump; rows carry the page and the confidence, and other entities' evidence is unchanged |
| PhaseHistory.PhaseCertifiesRuns | db_collector_os/collectors/pipeline.py:456-512 | Over any history with crashes, validation, phase1_complete and incremental certify 3, 4 and 5 recorded runs |
| PhaseHistory.CollectGate | db_collector_os/collectors/pipeline.py:493-499 | Leaving collect takes an empty queue and a window of at least three low-yield runs with candidates, whatever the job's conditions say |
| PhaseHistory.DefaultCompletion | db_collector_os/collectors/phase_manager.py:43-74 | With default conditions phase 1 completes only on an empty queue, a saturated history and a streak of three |
| PhaseHistory.StreakCountsHistory | db_collector_os/collectors/pipeline.py:466-476 | The counter equals the trailing block of low-yield runs among those that were saved |
| PhaseHistory.StreakReachesIff | db_collector_os/collectors/pipeline.py:466-476 | Over any history with crashes the streak is at least n if and only if the last n saved runs exist and were all low |
| PhaseHistory.SaturationAgreesIff | db_collector_os/discovery/saturation.py:21-49 | A saturated history has a streak of three if and only if three runs were saved and those of the last three that were saved before the window were low |
| PhaseHistory.SaturationImpliesStreak | db_collector_os/discovery/saturation.py:21-49 | A saturated history has a streak of three when no run died between recording its numbers and saving its streak |
| PhaseHistory.CrashesBreakAgreement | db_collector_os/collectors/pipeline.py:151-162 | Three runs that recorded but never saved leave a saturated history behind a zero streak |
| PhaseHistory.PhaseNeverFalls | db_collector_os/collectors/pipeline.py:456-512 | Phases are monotone over whole histories |
| PhaseHistory.OneRunPhase | db_collector_os/collectors/pipeline.py:134-137 | One run never moves a job back, moves it one phase at most (two out of bootstrap), never out of incremental |
| UrlNormalization.SameFormIffSameResource | db_collector_os/normalization/url.py:13-29 | Two URLs have one canonical form exactly when they agree up to case of scheme and host, trailing slashes, fragment, tracking parameters and order of the query |
| UrlNormalization.NormalizedParts | db_collector_os/normalization/url.py:13-29 | The canonical form part by part: lower-case scheme and host, the path without its trailing slashes or the root, the pairs of the query that none of the ten tracking parameters names, in order and as often as before, no fragment |
| UrlNormalization.SameResourceSameDomain | db_collector_os/fetching/urlnorm.py:14-15 | Texts of one resource have one domain, their host in lower case, so they are paced together |
| UrlNormalization.StableIff | db_collector_os/normalization/url.py:13-29 | With or without scheme and host: a second normalization changes nothing if and only if, as first split, a query pair is kept or the path without its trailing slashes does not end in whitespace |
| UrlNormalization.SpaceBeforeFragment | db_collector_os/normalization/url.py:16 | `http://x/a #f` normalizes to a text with a trailing space, and that to one without: normalization is not idempotent |
| UrlNormalization.SpaceBeforeSlash | db_collector_os/normalization/url.py:16-22 | So does `http://x/a /`, without any fragment |
| UrlNormalization.SpaceBeforeTracking | db_collector_os/normalization/url.py:16-28 | So does `http://x/a ?utm_source=b` |
| UrlNormalization.HostAppears | db_collector_os/normalization/url.py:16-29 | Without a host and with a path of two slashes, `http:////A/b` may normalize to a text that reads as a URL with a host, and is then unstable for its case |
| UrlNormalization.CosmeticChangesVanish | db_collector_os/normalization/url.py:16-28 | Shuffled queries, added tracking parameters, trailing slashes and fragments all normalize away |
| UrlNormalization.NormalizeIdempotent | db_collector_os/normalization/url.py:13-29 | Normalizing twice changes nothing more |
| UrlNormalization.TextIdempotent | db_collector_os/normalization/url.py:13-29 | The sufficient direction, for any join whatever |
| Fingerprint.SameFingerprintIffSameIdentity | db_collector_os/deduplication/fingerprint.py:14-34 | Under an ideal hash, fingerprints agree exactly when the strongest signals agree |
| Fingerprint.SharedFingerprintIff | db_collector_os/deduplication/fingerprint.py:19-34 | Two records share a non-empty fingerprint exactly if they have one type and agree in the strongest signal that either of them has; weaker signals are not looked at |
| Fingerprint.JoinedInjective | db_collector_os/deduplication/fingerprint.py:14-16 | The joined text that is hashed determines kind, entity type and signal, although bars may occur in ids, URLs and names |
| Fingerprint.BarsCollide | db_collector_os/deduplication/fingerprint.py:14-16 | A bar in the entity type makes two identities collide |
| Deduplication.ResolveCases | db_collector_os/deduplication/matcher.py:42-75 | A record merges if and only if some entity of the job has its fingerprint or its URL; otherwise a shared name always goes to review, a conflicting namesake first; everything else is new |
| RateLimiter.RequestKeepsPace | db_collector_os/fetching/rate_limiter.py:26-50 | A request sent to an open domain keeps all requests to a domain more than the stored delay, less one second, apart |
| CrawlState.CallsIdentified | db_collector_os/collectors/pipeline.py:324-343 | Every `persist` call of the crawl carries an identifying signal, whatever the record, because its page's URL is not empty |
| CrawlState.UnstableSeedReported | db_collector_os/collectors/pipeline.py:56-62 | The seed `http://x/a #f` is reported as newly queued by every call although its row is there |
| CrawlState.StableSeedsUnreported | db_collector_os/collectors/pipeline.py:56-62 | Tracked seeds whose URLs are stable are never reported again |
| Pipeline.BaseCollector.EnsureSeedUrlsQueued | db_collector_os/collectors/pipeline.py:52-63 | Every current seed is tracked, and nothing else besides what was; a second call adds nothing; the result is exactly the list of seeds whose twice normalized URL was not tracked when their turn came |
| Pipeline.BaseCollector.PromoteNewCandidates | db_collector_os/collectors/pipeline.py:185-189 | New rows come from fresh candidates with their priority; afterwards every candidate has a row, but for those of jobs on the backlog, and this job is on it exactly if more than 500 were fresh |
| CrawlState.PriorityFollowsConfidence | db_collector_os/collectors/pipeline.py:187-188 | A row's priority is its candidate's confidence on a scale from 50 to 100, cut to a whole number, and never falls as confidence grows |
| Pipeline.BaseCollector.DiscoverFromPage | db_collector_os/collectors/pipeline.py:317-321 | The counter grows exactly as the job's candidates do, and new ones are promoted at once |
| Pipeline.BaseCollector.HandleExtracted | db_collector_os/collectors/pipeline.py:324-454 | One `persist` call; the page's candidate ends accepted exactly if an entity was added, duplicate exactly if one was merged, under review exactly if a review row was filed, rejected exactly if the adapter said skip; counters follow |
| Pipeline.BaseCollector.HandleRecords | db_collector_os/collectors/pipeline.py:289-291 | Exactly one `persist` call per record, in order; counters grow as the tables; only the page's candidate changes, and its status is what the last record's outcome settles, never fresh |
| Pipeline.BaseCollector.ReadyDomains | db_collector_os/collectors/pipeline.py:226-242 | Ready domains are open; every refused one stays closed for the whole shortest wait counted from the survey's start, and the soonest of them, unless blocked, is open that long after its end; new domains begin with the job's delay |
| Pipeline.BaseCollector.SkipRefused | db_collector_os/collectors/pipeline.py:254-263 | A hard block gives the row up with its message and time, counts one error of the domain without blocking it, and files one review row, captcha or refusal |
| Pipeline.BaseCollector.FailItem | db_collector_os/collectors/pipeline.py:265-276 | A failure counts the attempt and queues the row again after the server's wait, or else 2, 4, 8 or 16 seconds; the fifth fails it for good, and only that is filed for review; the domain's errors are counted and a wait that the server asked for closes it |
| Pipeline.BaseCollector.ReadItem | db_collector_os/collectors/pipeline.py:284-322 | The page's links are candidates, the row is done at this time with the page's status and validators, its records were persisted and its candidate settled, in every case but a raising adapter, which leaves the row as it was |
| Pipeline.BaseCollector.HandleFetched | db_collector_os/collectors/pipeline.py:254-291 | The whole new row and the whole new limiter table for each kind of fetch result, with retry time and block from the server's wait at a time within the call, and the books; a 304 keeps the validators |
| Pipeline.BaseCollector.ProcessQueueItem | db_collector_os/collectors/pipeline.py:244-291 | One request, one fetch with the row's validators; row and domain become what the answer says, retry time and block included, and the claim ends unless something raised; a page that came was read and its candidate settled; no other old row changes |
| Pipeline.BaseCollector.ClaimReady | db_collector_os/collectors/pipeline.py:213-217 | Claims a due row of an open domain; otherwise every due row waits for a domain closed for the whole shortest wait |
| Pipeline.BaseCollector.DrainFetchQueue | db_collector_os/collectors/pipeline.py:191-224 | Terminates within three attempts per page, all but the last of which sent a request or slept; it only sleeps the shortest wait of a survey that found nothing to claim, within the waiting budget; fetches at most `max_pages`, keeps the books, leaves a row in flight exactly if it raised; a drain that stops early had, at a survey within the call, nothing to claim and no budget to wait |
| Pipeline.BaseCollector.RecoverItems | db_collector_os/collectors/pipeline.py:103 | Exactly the job's rows in flight are queued again, so none is in flight afterwards; nothing is requeued if none was |
| Pipeline.BaseCollector.RevalidateItems | db_collector_os/collectors/pipeline.py:142-144 | Exactly the first 500 stale rows are queued, with fresh attempts, and no other row changes |
| Pipeline.BaseCollector.OpenRun | db_collector_os/collectors/pipeline.py:115-120 | Resumes exactly the running row the checkpoint names, otherwise starts a new one; never a finalized row |
| Pipeline.BaseCollector.Bootstrap | db_collector_os/collectors/pipeline.py:134-137 | The bootstrap's sweep is made once and its URLs landed, which are the uncounted candidates and no others; the job moves to discovery |
| Pipeline.BaseCollector.Gather | db_collector_os/collectors/pipeline.py:139-148 | A sweep in the three sweeping phases only, all of whose URLs are candidates then; in the incremental phase only, what is stale at a time within the call is queued with fresh attempts; then promotion |
| Pipeline.BaseCollector.AdvancePhase | db_collector_os/collectors/pipeline.py:456-513 | Phase and streak by the specification functions of the recorded runs, the queue, entities, reviews and the latest run's error rate, whose conditions `Phases.PhaseLeftIff` spells out |
| Phases.PhaseLeftIff | db_collector_os/collectors/pipeline.py:456-512 | Exactly when each phase is left, in numbers: the queue, three to five runs of at most one in twenty new, and the six completion conditions |
| CrawlState.ErrorRateIs | db_collector_os/collectors/pipeline.py:478-483 | The error rate is the last run row's errors over its fetches, zero as long as it counts none |
| Pipeline.BaseCollector.CloseRun | db_collector_os/collectors/pipeline.py:151-162 | Records the run's numbers with the candidates by status, moves the phase history one completed step and saves the checkpoint that still names the run |
| Worker.Worker.RecordFailure | db_collector_os/worker.py:50-70 | One row is finalized as failed with one error and its other counters as they were: the running one the checkpoint names, or one of its own; the marker is cleared, and the job is failed and due after its own interval |
| Worker.Worker.RecordSuccess | db_collector_os/worker.py:72-107 | The named row is finalized with the run's seven counters; the job continues exactly while there is more to do, and is due after the poll interval then, otherwise after its own |
| Worker.Worker.AccountedTells | db_collector_os/worker.py:91-98 | Counters that balance with the books tell the growth of the tables: entities, merges, reviews, rows given up or failed, claims ended, candidates |
| Worker.Worker.RecoverStaleJobs | db_collector_os/worker.py:139-150 | Exactly the running jobs that started before the cutoff go to retry |
| Worker.Worker.ClaimAnyQueued | db_collector_os/worker.py:152-157 | Claims a queued enabled job; none exactly when there is none |
| Worker.Worker.RunOneJob | db_collector_os/worker.py:159-180 | A round that works has queued what was due, run one queued enabled job to its final status and finalized one run row of it; it is idle only if no enabled job was queued or due |
| Worker.Worker.Dispatch | db_collector_os/worker.py:159-165 | Queues exactly the due jobs, then claims an enabled queued one, none only if there is none |
| Scheduler.Scheduler.Tick | db_collector_os/scheduler.py:33-53 | Queues due jobs and nothing else, one for each yes of the resource gate; it stops at the first no, and without one every due job is queued |
| Persistence.PersistenceService.Persist | db_collector_os/persistence.py:55-206 | Both tables and the outcome equal the specification function on every path; what that function writes is stated on the record's own fields by the four `PersistedRows` theorems |
| Persistence.PersistenceService.UpdateCommonFields | db_collector_os/persistence.py:208-247 | Each of the seven columns takes the new value exactly when that value is neither missing nor blank |
| Persistence.PersistenceService.RecordEvidence | db_collector_os/persistence.py:249-275 | Logs the record's fields, overridden by its common columns that are present |
| FetchQueue.FetchQueue.Enqueue | db_collector_os/fetching/queue.py:32-45 | One new queued row, or nothing at all if the job tracks the normalized URL in any status |
| FetchQueue.FetchQueue.ClaimNext | db_collector_os/fetching/queue.py:47-72 | Claims the row of highest priority, oldest first, among queued, due rows of ready domains; nothing exactly when there is none |
| FetchQueue.FetchQueue.MarkFailed | db_collector_os/fetching/queue.py:95-114 | One more attempt: failed for good at the limit, otherwise queued again after the integer backoff or the server's wait |
| FetchQueue.FetchQueue.Exists | db_collector_os/fetching/queue.py:22-30 | Whether the job tracks the normalized URL |
| FetchQueue.FetchQueue.RequeueStaleFetching | db_collector_os/fetching/queue.py:132-141 | Exactly the job's in-flight rows are queued again |
| FetchQueue.FetchQueue.RequeueForRevalidation | db_collector_os/fetching/queue.py:143-160 | Exactly the first stale done rows, up to the limit, are queued again with fresh attempts |
| FetchQueue.FirstStale | db_collector_os/fetching/queue.py:143-160 | A row is selected exactly if it is the job's, done, and fetched by the cutoff or at no known time, and no later than the last that the limit allows |
| RateLimiter.DomainRateLimiter.IsAllowed | db_collector_os/fetching/rate_limiter.py:15-44 | Refuses exactly while the domain is closed, keeps refusing for the whole returned wait, and a wait never reaches past the opening |
| Candidates.CandidateStore.Add | db_collector_os/candidates.py:19-53 | A new row, unless the job has one with this non-empty fingerprint |
| Candidates.CandidateStore.ListNew | db_collector_os/candidates.py:61-65 | The most confident fresh candidates in order, all of them if the limit allows |
| Candidates.LatestByUrl | db_collector_os/candidates.py:79-83 | The job's most recently discovered candidate of a URL, none exactly when there is none |
| Candidates.DiscoveryEngine.SaveCandidates | db_collector_os/discovery/engine.py:114-154 | For any list with repeats: returns exactly as many items as the table grew, every observed URL is represented, old rows are untouched, fingerprints stay unique; each new row has its observation's type, method, confidence and time |
| Candidates.FingerprintsAgreeIff | db_collector_os/discovery/engine.py:135-140 | Under one entity type two observations stand for one candidate if their stable ids agree, whatever their URLs, and without stable ids exactly if their URLs do |
| Phases.IsSaturated | db_collector_os/discovery/saturation.py:21-49 | At least three recorded runs and, of the last five, each with candidates and at most one in twenty new |
| Phases.Phase1ConditionsMet | db_collector_os/collectors/phase_manager.py:43-74 | Met exactly when nothing is violated; each of the six violations is named exactly when its inequality holds |
| Entities.LastEvidenceAfter | db_collector_os/entities.py:115-128 | The last evidence for a key after a batch is the batch's value for it, or the earlier one |
| RunHistory.RunHistoryStore.Finish | db_collector_os/run_history.py:29-62 | Finalizes a running row with exactly the supplied counters; leaves any other row untouched and says so |
| JobRegistry.JobRegistry.ClaimQueued | db_collector_os/job_registry.py:157-165 | Wins exactly on an enabled queued job, which then cannot be claimed again |
| Entities.EntityStore.Create | db_collector_os/entities.py:39-65 | Appends exactly one row |
| Entities.EntityStore.Update | db_collector_os/entities.py:67-77 | Writes the named columns of one row and nothing else |
| Entities.EntityStore.MergeData | db_collector_os/entities.py:79-85 | Overlays new data keys on one row |
| Entities.EvidenceStore.RecordMany | db_collector_os/entities.py:125-128 | Appends one evidence row per field, in order |
| FetchQueue.FetchQueue.MarkDone | db_collector_os/fetching/queue.py:74-87 | The named row is done with the given validators |
| FetchQueue.FetchQueue.MarkSkipped | db_collector_os/fetching/queue.py:89-93 | The named row is skipped |
| RateLimiter.DomainRateLimiter.RecordRequest | db_collector_os/fetching/rate_limiter.py:46-50 | Stores the truncated time of a known domain's request |
| RateLimiter.DomainRateLimiter.RecordError | db_collector_os/fetching/rate_limiter.py:52-64 | Counts the error and, for a non-zero block, closes the domain until then |
| RateLimiter.DomainRateLimiter.RecordSuccess | db_collector_os/fetching/rate_limiter.py:66-70 | Forgets errors and block |
| Candidates.CandidateStore.SetStatus | db_collector_os/candidates.py:55-59 | Changes one row's status and nothing else |
| RunHistory.RunHistoryStore.Start | db_collector_os/run_history.py:18-24 | Appends one running row |
| Checkpoints.CheckpointStore.Save | db_collector_os/checkpoint.py:18-26 | Replaces the job's only row |
| JobRegistry.JobRegistry.MarkQueued | db_collector_os/job_registry.py:150-155 | Only schedulable jobs become queued |
| JobRegistry.JobRegistry.Finish | db_collector_os/job_registry.py:167-185 | Status and next run by the three cases: paused, override, schedule |
| JobRegistry.JobRegistry.Pause | db_collector_os/job_registry.py:187-188 | The job is paused, whatever its status was |
| JobRegistry.JobRegistry.Resume | db_collector_os/job_registry.py:190-194 | The job is idle and due now |
| JobRegistry.JobRegistry.ResetStaleRunning | db_collector_os/job_registry.py:202-207 | A running job goes to retry, any other is left alone |

## Left out

- HTTP, robots, sitemaps, HTML, JSON-LD and feed parsing, adapters, search: their results are arbitrary values.
- Validation of records and the normalization of names, addresses and telephones: uninterpreted functions.
- Splitting and joining URL text, percent-encoding, Unicode case folding: a pair of uninterpreted functions, with what a theorem needs of them among its hypotheses; stripping is modelled on text, the canonical form on split URLs with ASCII case folding.
- UrlNormalization.StableIff: no condition for paths that begin with whitespace or, without a host, with two slashes; what `urlunsplit` makes of the latter differs between Python versions.
- Escape sequences beyond the eleven of section 7 of RFC 8259, and the decoding of what the scanner returns.
- SQLite: tables are in insertion order, ids are positions. Ties that the queries leave open (LIMIT without ORDER BY, equal second-precision times in `recent_discovery_runs` and `get_by_url`) resolve by that order.
- Columns that no decision reads: update times of entities and evidence, `deleted_at` (nothing sets it), candidate names, details texts of reviews, worker heartbeats, metrics.
- Evidence encoding: a text and a JSON value that print alike encode alike, as in the source.
- Rates as floating-point numbers: comparisons with five percent are exact.
- Creating, editing and syncing jobs (a completed job whose seeds are edited is not settled any more), command-line and admin commands, schedule strings: an interval stands for the schedule.
- The resource gate: an arbitrary answer per job, kept in a ghost log. Workers queue due jobs without it.
- Priorities among jobs: `QueueDueJobs`, `ClaimAnyQueued` and `Tick` take them in any order.
- The rate limiter's concurrency column, which no decision reads.
- Exceptions other than those of a fetch, an adapter or an unknown adapter inside the sequential pipeline; `Lifecycle` has them at every statement.
- The API collector's own record extraction: a page that observes no URLs and brings any number of records.
- Lifecycle.AlwaysExclusive: holds for schedules that do not preempt a live process, because recovery judges a worker by its start time only; `Lifecycle.RecoveryRace` is the counterexample.
- LifecycleRefinement.CallRefinesSteps: for a call that no other process interleaves with; counters, phases and schedule times are not compared, because the steps leave them out.
- Lifecycle: the phase column of the job row and the contents of the tables the pipeline writes are not part of the interleaved state machine; `Pipeline` has them for one worker.
- RateLimiter.RequestKeepsPace: for one worker; two workers can both find a domain open before either records its request.
- Worker.Worker.RunForever: the first pass always recovers; the source counts from the zero of its monotonic clock, so just after the machine has started its first recovery may wait for half the stale time.
- Worker.Worker.RunJobAndRecord: an incremental job may end completed with rows still queued, since the source does not look at its queue; and of a job on the backlog, whose latest promotion met more than 500 fresh candidates, nothing is said about the candidates left behind.
- Pipeline.BaseCollector.DrainFetchQueue: the source's comment says that leaving without a wait means an empty queue; rows waiting for a retry lead there too, and the contract follows the code.
- Worker.Worker.HasMoreWork: a job without its own streak condition asks for no further runs here although the phase conditions default to three; the contract follows the code.
