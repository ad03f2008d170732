/** The fetch queue's rows as the replay of an operation log, and what every legal log keeps. */
module QueueLog {
  import opened Common

  datatype Status = Queued | Fetching | Done | Failed | Skipped

  datatype Row = Row(
    jobId: string, url: string, domain: string, priority: int, status: Status,
    attemptCount: int, maxAttempts: int, lastHttpStatus: Option<int>, nextRetryAt: Option<int>,
    fetchedAt: Option<int>, contentHash: Option<string>, etag: Option<string>, lastModified: Option<string>,
    errorMessage: Option<string>, createdAt: int)

  /** One write to the table. Times are clock readings; `retryAfter` is in microseconds. */
  datatype Op =
    | Enqueue(row: Row)
    | Claim(id: nat, at: int)
    | Finish(id: nat, at: int, http: int, contentHash: Option<string>, etag: Option<string>, lastModified: Option<string>)
    | Skip(id: nat, at: int, reason: string)
    | Fail(id: nat, at: int, error: string, failedHttp: Option<int>, retryAfter: Option<int>)
    | Recover(id: nat)
    | Revalidate(id: nat)

  function PowerOfTwo(n: nat): (r: nat)
    ensures r > n
  {
    if n == 0 then 1 else 2 * PowerOfTwo(n - 1)
  }

  /** Microseconds to wait before attempt number `attempts + 1`. */
  function Backoff(attempts: int, retryAfter: Option<int>): int {
    match retryAfter
    case Some(micros) => micros
    case None => Min(if attempts < 0 then 1 else PowerOfTwo(attempts), 3600) * MICROS
  }

  lemma {:induction false} PowersGrow(n: nat)
    requires n >= 12
    ensures PowerOfTwo(n) >= 4096
  {
    if n > 12 {
      PowersGrow(n - 1);
    } else {
      assert PowerOfTwo(4) == 16 && PowerOfTwo(8) == 256;
    }
  }

  lemma {:induction false} PowersBelow(n: nat)
    requires n <= 10
    ensures PowerOfTwo(n) <= 1024
    decreases 10 - n
  {
    if n < 10 {
      PowersBelow(n + 1);
    } else {
      assert PowerOfTwo(4) == 16 && PowerOfTwo(8) == 256;
    }
  }

  /** The server's wait is taken as it is; otherwise the wait starts at one second, doubles with every
      attempt, and stops at an hour with the twelfth. */
  lemma BackoffDoubles(attempts: nat, wait: int)
    ensures Backoff(attempts, Some(wait)) == wait
    ensures Backoff(0, None) == 1_000_000
    ensures attempts < 11 ==> Backoff(attempts + 1, None) == 2 * Backoff(attempts, None)
    ensures attempts >= 12 ==> Backoff(attempts, None) == 3_600_000_000
  {
    assert PowerOfTwo(4) == 16 && PowerOfTwo(8) == 256 && PowerOfTwo(11) == 2048;
    if attempts >= 12 {
      PowersGrow(attempts);
    } else if attempts < 11 {
      PowersBelow(attempts);
    }
  }

  /** The four waits that come up with five attempts. */
  lemma ShortBackoffs(attempts: int)
    requires 1 <= attempts <= 4
    ensures Backoff(attempts, None) == [2, 4, 8, 16][attempts - 1] * 1_000_000
  {
    assert PowerOfTwo(1) == 2 && PowerOfTwo(2) == 4 && PowerOfTwo(3) == 8 && PowerOfTwo(4) == 16;
  }

  function FailedRow(row: Row, op: Op): Row
    requires op.Fail?
  {
    var attempts := row.attemptCount + 1;
    var noted := row.(attemptCount := attempts, lastHttpStatus := op.failedHttp, errorMessage := Some(op.error));
    if attempts >= row.maxAttempts then noted.(status := Failed)
    else noted.(status := Queued, nextRetryAt := Some(Truncate(op.at + Backoff(attempts, op.retryAfter))))
  }

  /** The new value of the row an operation names. */
  function Written(row: Row, op: Op): Row
    requires !op.Enqueue?
  {
    match op
    case Claim(_, _) => row.(status := Fetching)
    case Finish(_, at, http, hash, etag, lastModified) =>
      row.(status := Done, lastHttpStatus := Some(http), fetchedAt := Some(Truncate(at)),
           contentHash := hash, etag := etag, lastModified := lastModified, errorMessage := None)
    case Skip(_, at, reason) => row.(status := Skipped, errorMessage := Some(reason), fetchedAt := Some(Truncate(at)))
    case Fail(_, _, _, _, _) => FailedRow(row, op)
    case Recover(_) => row.(status := Queued)
    case Revalidate(_) => row.(status := Queued, attemptCount := 0)
  }

  function Apply(rows: seq<Row>, op: Op): seq<Row> {
    if op.Enqueue? then rows + [op.row]
    else if op.id < |rows| then rows[op.id := Written(rows[op.id], op)]
    else rows
  }

  function Replay(log: seq<Op>): seq<Row> {
    if log == [] then [] else Apply(Replay(log[..|log| - 1]), log[|log| - 1])
  }

  predicate Due(row: Row, at: int) {
    row.nextRetryAt.None? || row.nextRetryAt.value <= Truncate(at)
  }

  predicate Tracked(rows: seq<Row>, jobId: string, url: string) {
    exists i :: 0 <= i < |rows| && rows[i].jobId == jobId && rows[i].url == url
  }

  /** When the pipeline may perform an operation. */
  predicate LegalOp(rows: seq<Row>, op: Op) {
    match op
    case Enqueue(row) =>
      && row.status == Queued && row.attemptCount == 0 && row.maxAttempts >= 1 && row.nextRetryAt.None?
      && !Tracked(rows, row.jobId, row.url)
    case Claim(id, at) => id < |rows| && rows[id].status == Queued && Due(rows[id], at)
    case Revalidate(id) => id < |rows| && rows[id].status == Done
    case _ => op.id < |rows| && rows[op.id].status == Fetching
  }

  ghost predicate Legal(log: seq<Op>) {
    log == [] || (Legal(log[..|log| - 1]) && LegalOp(Replay(log[..|log| - 1]), log[|log| - 1]))
  }

  lemma Extend(log: seq<Op>, op: Op)
    ensures Replay(log + [op]) == Apply(Replay(log), op)
    ensures Legal(log + [op]) <==> Legal(log) && LegalOp(Replay(log), op)
  {
  }

  lemma {:induction false} LegalPrefix(log: seq<Op>, more: seq<Op>)
    requires Legal(log + more)
    ensures Legal(log)
    ensures |Replay(log)| <= |Replay(log + more)|
  {
    if more == [] {
      assert log + more == log;
    } else {
      assert (log + more)[..|log + more| - 1] == log + more[..|more| - 1];
      LegalPrefix(log, more[..|more| - 1]);
    }
  }

  /** Rows are only added, and keep what identifies them. */
  ghost predicate KeepsRows(before: seq<Row>, after: seq<Row>) {
    && |before| <= |after|
    && forall i :: 0 <= i < |before| ==>
         && after[i].jobId == before[i].jobId && after[i].url == before[i].url && after[i].domain == before[i].domain
         && after[i].maxAttempts == before[i].maxAttempts
  }

  lemma TrackedKept(before: seq<Row>, after: seq<Row>, jobId: string, url: string)
    requires KeepsRows(before, after) && Tracked(before, jobId, url)
    ensures Tracked(after, jobId, url)
  {
  }

  // ---------------------------------------------------------------------
  // The row machine
  // ---------------------------------------------------------------------

  predicate GoodRow(row: Row) {
    && 0 <= row.attemptCount <= row.maxAttempts
    && (row.attemptCount == row.maxAttempts <==> row.status == Failed)
  }

  ghost predicate UniqueUrls(rows: seq<Row>) {
    forall i, j :: 0 <= i < j < |rows| && rows[i].jobId == rows[j].jobId ==> rows[i].url != rows[j].url
  }

  ghost predicate GoodRows(rows: seq<Row>) {
    UniqueUrls(rows) && forall i :: 0 <= i < |rows| ==> GoodRow(rows[i])
  }

  /** No legal operation breaks a good table. */
  lemma OpKeepsGoodRows(rows: seq<Row>, op: Op)
    requires GoodRows(rows) && LegalOp(rows, op)
    ensures GoodRows(Apply(rows, op))
  {
  }

  /** Every reachable table: (job, url) is unique, attempts stay within bounds, and a row has
      used up its attempts exactly when it is failed. */
  lemma {:induction false} ReachableRows(log: seq<Op>)
    requires Legal(log)
    ensures GoodRows(Replay(log))
  {
    if log != [] {
      ReachableRows(log[..|log| - 1]);
      OpKeepsGoodRows(Replay(log[..|log| - 1]), log[|log| - 1]);
    }
  }

  /** What a row keeps for good: its identity, its attempts limit, a failed or skipped status. */
  ghost predicate RowKept(before: Row, after: Row) {
    && after.jobId == before.jobId && after.url == before.url && after.domain == before.domain
    && after.maxAttempts == before.maxAttempts
    && (before.status == Failed || before.status == Skipped ==> after == before)
  }

  lemma OpKeepsRow(rows: seq<Row>, op: Op, id: nat)
    requires LegalOp(rows, op) && id < |rows|
    ensures id < |Apply(rows, op)| && RowKept(rows[id], Apply(rows, op)[id])
  {
    if !op.Enqueue? && op.id == id {
      assert Apply(rows, op)[id] == Written(rows[id], op);
    }
  }

  /** A row's identity never changes, and failed and skipped are final, whatever happens later. */
  lemma {:induction false} FinalStatus(log: seq<Op>, more: seq<Op>, id: nat)
    requires Legal(log + more) && id < |Replay(log)|
    ensures id < |Replay(log + more)| && RowKept(Replay(log)[id], Replay(log + more)[id])
  {
    if more == [] {
      assert log + more == log;
    } else {
      var front, last := log + more[..|more| - 1], more[|more| - 1];
      assert (log + more)[..|log + more| - 1] == front && (log + more)[|log + more| - 1] == last;
      FinalStatus(log, more[..|more| - 1], id);
      OpKeepsRow(Replay(front), last, id);
    }
  }

  // ---------------------------------------------------------------------
  // Accounting, row by row
  // ---------------------------------------------------------------------

  datatype Kind = Claims | Finishes | Skips | Failures | Recoveries | Revalidations | Additions

  function KindOf(op: Op): Kind {
    match op
    case Enqueue(_) => Additions
    case Claim(_, _) => Claims
    case Finish(_, _, _, _, _, _) => Finishes
    case Skip(_, _, _) => Skips
    case Fail(_, _, _, _, _) => Failures
    case Recover(_) => Recoveries
    case Revalidate(_) => Revalidations
  }

  /** How many operations of a kind the log holds for one row. */
  function Count(log: seq<Op>, kind: Kind, id: nat): nat {
    if log == [] then 0
    else
      var last := log[|log| - 1];
      Count(log[..|log| - 1], kind, id) + if KindOf(last) == kind && !last.Enqueue? && last.id == id then 1 else 0
  }

  lemma {:induction false} CountFresh(log: seq<Op>, kind: Kind, id: nat)
    requires Legal(log) && id >= |Replay(log)|
    ensures Count(log, kind, id) == 0
  {
    if log != [] {
      CountFresh(log[..|log| - 1], kind, id);
    }
  }

  /** Each claim of a row ends in exactly one way, or is still in flight. */
  lemma {:induction false} RowLedger(log: seq<Op>, id: nat)
    requires Legal(log) && id < |Replay(log)|
    ensures Count(log, Claims, id) ==
            Count(log, Failures, id) + Count(log, Finishes, id) + Count(log, Skips, id) + Count(log, Recoveries, id)
            + if Replay(log)[id].status == Fetching then 1 else 0
  {
    var front := log[..|log| - 1];
    if id < |Replay(front)| {
      RowLedger(front, id);
    } else {
      CountFresh(front, Claims, id);
      CountFresh(front, Failures, id);
      CountFresh(front, Finishes, id);
      CountFresh(front, Skips, id);
      CountFresh(front, Recoveries, id);
    }
  }

  /** Claims a row can still receive before its next recovery or revalidation. */
  function Remaining(row: Row): int {
    match row.status
    case Queued => row.maxAttempts - row.attemptCount
    case Fetching => row.maxAttempts - row.attemptCount - 1
    case _ => 0
  }

  /** A row is claimed at most `maxAttempts` times, plus that much again for each revalidation
      and once more for each recovery of an interrupted fetch. */
  lemma {:induction false} RowClaimsBounded(log: seq<Op>, id: nat)
    requires Legal(log) && id < |Replay(log)|
    ensures var row := Replay(log)[id];
            && 0 <= Remaining(row)
            && Count(log, Claims, id) + Remaining(row)
               <= row.maxAttempts * (1 + Count(log, Revalidations, id)) + Count(log, Recoveries, id)
  {
    ReachableRows(log);
    var front, last := log[..|log| - 1], log[|log| - 1];
    if id < |Replay(front)| {
      RowClaimsBounded(front, id);
      ReachableRows(front);
      var max, n := Replay(log)[id].maxAttempts, Count(front, Revalidations, id);
      assert max * (1 + (n + 1)) == max * (1 + n) + max;
    } else {
      CountFresh(front, Claims, id);
      CountFresh(front, Revalidations, id);
      CountFresh(front, Recoveries, id);
    }
  }

  // ---------------------------------------------------------------------
  // The whole crawl
  // ---------------------------------------------------------------------

  function Total(log: seq<Op>, kind: Kind): nat {
    if log == [] then 0
    else Total(log[..|log| - 1], kind) + if KindOf(log[|log| - 1]) == kind then 1 else 0
  }

  lemma TotalExtend(log: seq<Op>, op: Op)
    ensures forall kind :: Total(log + [op], kind) == Total(log, kind) + if KindOf(op) == kind then 1 else 0
  {
  }

  function TotalRemaining(rows: seq<Row>): int {
    if rows == [] then 0 else TotalRemaining(rows[..|rows| - 1]) + Remaining(rows[|rows| - 1])
  }

  lemma {:induction false} TotalRemainingUpdate(rows: seq<Row>, id: nat, row: Row)
    requires id < |rows|
    ensures TotalRemaining(rows[id := row]) == TotalRemaining(rows) - Remaining(rows[id]) + Remaining(row)
  {
    var last := |rows| - 1;
    if id == last {
      assert rows[id := row][..last] == rows[..last];
    } else {
      assert rows[id := row][..last] == rows[..last][id := row];
      TotalRemainingUpdate(rows[..last], id, row);
    }
  }

  lemma {:induction false} TotalRemainingNonNegative(rows: seq<Row>)
    requires forall i :: 0 <= i < |rows| ==> GoodRow(rows[i])
    ensures TotalRemaining(rows) >= 0
  {
    if rows != [] { TotalRemainingNonNegative(rows[..|rows| - 1]); }
  }

  /** Claims the log has paid for: a row's attempts when it is added and again when it is
      revalidated, one for each recovered fetch. */
  function Granted(log: seq<Op>): int {
    if log == [] then 0
    else Granted(log[..|log| - 1]) + GrantOf(Replay(log[..|log| - 1]), log[|log| - 1])
  }

  function GrantOf(rows: seq<Row>, op: Op): int {
    match op
    case Enqueue(row) => row.maxAttempts
    case Revalidate(id) => if id < |rows| then rows[id].maxAttempts else 0
    case Recover(_) => 1
    case _ => 0
  }

  /** One operation spends no more than it is granted. */
  lemma StepBudget(rows: seq<Row>, op: Op)
    requires GoodRows(rows) && LegalOp(rows, op)
    ensures (if KindOf(op) == Claims then 1 else 0) + TotalRemaining(Apply(rows, op)) <= TotalRemaining(rows) + GrantOf(rows, op)
  {
    if op.Enqueue? {
      assert Apply(rows, op)[..|Apply(rows, op)| - 1] == rows;
    } else {
      TotalRemainingUpdate(rows, op.id, Apply(rows, op)[op.id]);
    }
  }

  /** The crawl's budget: claims made plus claims still possible never exceed what was granted,
      although fetched pages keep adding rows. */
  lemma {:induction false} CrawlBudget(log: seq<Op>)
    requires Legal(log)
    ensures Total(log, Claims) + TotalRemaining(Replay(log)) <= Granted(log)
    ensures TotalRemaining(Replay(log)) >= 0
  {
    hide Apply, GrantOf, LegalOp;
    ReachableRows(log);
    TotalRemainingNonNegative(Replay(log));
    if log != [] {
      var front, last := log[..|log| - 1], log[|log| - 1];
      assert Replay(log) == Apply(Replay(front), last);
      CrawlBudget(front);
      ReachableRows(front);
      StepBudget(Replay(front), last);
    }
  }

  /** The sum of `max_attempts` over the tracked URLs. */
  function TotalAttempts(rows: seq<Row>): int {
    if rows == [] then 0 else TotalAttempts(rows[..|rows| - 1]) + rows[|rows| - 1].maxAttempts
  }

  lemma {:induction false} TotalAttemptsUpdate(rows: seq<Row>, id: nat, row: Row)
    requires id < |rows| && row.maxAttempts == rows[id].maxAttempts
    ensures TotalAttempts(rows[id := row]) == TotalAttempts(rows)
  {
    var last := |rows| - 1;
    if id == last {
      assert rows[id := row][..last] == rows[..last];
    } else {
      assert rows[id := row][..last] == rows[..last][id := row];
      TotalAttemptsUpdate(rows[..last], id, row);
    }
  }

  lemma LimitKept(rows: seq<Row>, op: Op, limit: nat)
    requires LegalOp(rows, op)
    requires forall i :: 0 <= i < |Apply(rows, op)| ==> Apply(rows, op)[i].maxAttempts <= limit
    ensures forall i :: 0 <= i < |rows| ==> rows[i].maxAttempts <= limit
  {
    forall i | 0 <= i < |rows| ensures rows[i].maxAttempts <= limit {
      OpKeepsRow(rows, op, i);
      assert Apply(rows, op)[i].maxAttempts <= limit;
    }
  }

  /** Beyond the attempts of the tracked rows, only requeues grant claims. */
  lemma {:induction false} GrantedByRequeues(log: seq<Op>, limit: nat)
    requires Legal(log)
    requires forall i :: 0 <= i < |Replay(log)| ==> Replay(log)[i].maxAttempts <= limit
    ensures Granted(log) <= TotalAttempts(Replay(log)) + Total(log, Recoveries) + limit * Total(log, Revalidations)
  {
    hide Apply, GrantOf, LegalOp;
    if log != [] {
      var front, last := log[..|log| - 1], log[|log| - 1];
      assert Replay(log) == Apply(Replay(front), last);
      LimitKept(Replay(front), last, limit);
      GrantedByRequeues(front, limit);
      GrantAdded(Replay(front), last, limit);
      Distribute(limit, Total(front, Revalidations), 1);
    }
  }

  lemma GrantAdded(rows: seq<Row>, op: Op, limit: nat)
    requires LegalOp(rows, op) && forall i :: 0 <= i < |rows| ==> rows[i].maxAttempts <= limit
    ensures GrantOf(rows, op)
      <= TotalAttempts(Apply(rows, op)) - TotalAttempts(rows)
         + (if KindOf(op) == Recoveries then 1 else 0) + (if KindOf(op) == Revalidations then limit else 0)
  {
    if op.Enqueue? {
      assert Apply(rows, op)[..|Apply(rows, op)| - 1] == rows;
    } else {
      TotalAttemptsUpdate(rows, op.id, Apply(rows, op)[op.id]);
    }
  }

  lemma {:induction false} TotalAttemptsBounded(rows: seq<Row>, limit: nat)
    requires forall i :: 0 <= i < |rows| ==> rows[i].maxAttempts <= limit
    ensures TotalAttempts(rows) <= limit * |rows|
  {
    if rows != [] {
      TotalAttemptsBounded(rows[..|rows| - 1], limit);
      Distribute(limit, |rows| - 1, 1);
    }
  }

  lemma Distribute(limit: nat, n: nat, k: nat)
    ensures limit * (n + k) == limit * n + limit * k >= limit * n
  {
  }

  lemma {:induction false} RowsFitUniverse(rows: seq<Row>, universe: set<(string, string)>)
    requires UniqueUrls(rows)
    requires forall i :: 0 <= i < |rows| ==> (rows[i].jobId, rows[i].url) in universe
    ensures |rows| <= |universe|
  {
    if rows != [] {
      var front, last := rows[..|rows| - 1], rows[|rows| - 1];
      RowsFitUniverse(front, universe - {(last.jobId, last.url)});
    }
  }

  /** Termination of the whole crawl: if every tracked URL comes from a finite set, then over any
      number of runs the number of fetches ever started is at most `limit` per URL of that set,
      one more per recovered fetch and `limit` more per revalidation. */
  lemma CrawlTerminates(log: seq<Op>, universe: set<(string, string)>, limit: nat)
    requires Legal(log)
    requires forall i :: 0 <= i < |Replay(log)| ==>
      (Replay(log)[i].jobId, Replay(log)[i].url) in universe && Replay(log)[i].maxAttempts <= limit
    ensures TotalAttempts(Replay(log)) <= limit * |universe|
    ensures Total(log, Claims)
      <= TotalAttempts(Replay(log)) + Total(log, Recoveries) + limit * Total(log, Revalidations)
  {
    hide Replay, Legal, Granted, Total, TotalAttempts, TotalRemaining, UniqueUrls, GoodRow;
    CrawlBudget(log);
    ReachableRows(log);
    GrantedByRequeues(log, limit);
    TotalAttemptsBounded(Replay(log), limit);
    RowsFitUniverse(Replay(log), universe);
    Distribute(limit, |Replay(log)|, |universe| - |Replay(log)|);
  }

  // ---------------------------------------------------------------------
  // Retry spacing
  // ---------------------------------------------------------------------

  /** The attempt number that the failure at position `i` of the log completes. */
  function AttemptAt(log: seq<Op>, i: nat): int
    requires i < |log| && log[i].Fail? && Legal(log)
  {
    PrefixLegal(log, i);
    Replay(log[..i])[log[i].id].attemptCount + 1
  }

  lemma {:induction false} PrefixLegal(log: seq<Op>, i: nat)
    requires i < |log| && Legal(log)
    ensures Legal(log[..i]) && LegalOp(Replay(log[..i]), log[i])
    ensures Replay(log[..i + 1]) == Apply(Replay(log[..i]), log[i])
  {
    if i < |log| - 1 {
      PrefixLegal(log[..|log| - 1], i);
      assert log[..|log| - 1][..i] == log[..i] && log[..|log| - 1][..i + 1] == log[..i + 1];
    } else {
      assert log[..i + 1] == log;
    }
  }

  /** Unless the row has failed for good, it waits until `t`. */
  ghost predicate Waits(rows: seq<Row>, id: nat, t: int) {
    id < |rows| && (rows[id].status != Failed ==> rows[id].nextRetryAt == Some(t))
  }

  lemma FailureSetsRetry(rows: seq<Row>, op: Op)
    requires op.Fail? && LegalOp(rows, op)
    ensures Waits(Apply(rows, op), op.id, Truncate(op.at + Backoff(rows[op.id].attemptCount + 1, op.retryAfter)))
  {
    hide Backoff;
  }

  lemma OtherOpsKeepRetry(rows: seq<Row>, op: Op, id: nat, t: int)
    requires LegalOp(rows, op) && Waits(rows, id, t) && (op.Fail? ==> op.id != id)
    ensures Waits(Apply(rows, op), id, t)
  {
  }

  /** Until the row fails again, its retry time stays what the failure at `i` set. */
  lemma {:induction false} RetryTimeKept(log: seq<Op>, i: nat, j: nat)
    requires Legal(log) && i < j <= |log| && log[i].Fail?
    requires forall k :: i < k < j && log[k].Fail? ==> log[k].id != log[i].id
    ensures Waits(Replay(log[..j]), log[i].id, Truncate(log[i].at + Backoff(AttemptAt(log, i), log[i].retryAfter)))
  {
    hide Backoff, Apply, LegalOp, Waits;
    PrefixLegal(log, j - 1);
    PrefixLegal(log, i);
    if i + 1 < j {
      RetryTimeKept(log, i, j - 1);
      OtherOpsKeepRetry(Replay(log[..j - 1]), log[j - 1], log[i].id,
                        Truncate(log[i].at + Backoff(AttemptAt(log, i), log[i].retryAfter)));
    } else {
      FailureSetsRetry(Replay(log[..i]), log[i]);
    }
  }

  /** A retry is claimed more than its backoff, less one second of truncation, after the failure. */
  lemma RetrySpacing(log: seq<Op>, i: nat, j: nat)
    requires Legal(log) && i < j < |log| && log[i].Fail? && log[j].Claim? && log[j].id == log[i].id
    requires forall k :: i < k < j && log[k].Fail? ==> log[k].id != log[i].id
    ensures log[j].at > log[i].at + Backoff(AttemptAt(log, i), log[i].retryAfter) - MICROS
    ensures log[i].retryAfter.Some? ==> log[j].at > log[i].at + log[i].retryAfter.value - MICROS
    ensures log[i].retryAfter.None? && 1 <= AttemptAt(log, i) <= 4 ==>
      log[j].at > log[i].at + [2, 4, 8, 16][AttemptAt(log, i) - 1] * MICROS - MICROS
  {
    PrefixLegal(log, j);
    RetryTimeKept(log, i, j);
    if 1 <= AttemptAt(log, i) <= 4 {
      ShortBackoffs(AttemptAt(log, i));
    }
  }
}
