/** The persistent fetch queue: every method changes the rows and logs what it did. */
module FetchQueue {
  import opened Common
  import opened UrlNormalization
  import opened QueueLog

  const DEFAULT_MAX_ATTEMPTS: int := 5
  const REVALIDATION_LIMIT: nat := 500

  // ---------------------------------------------------------------------
  // Queries
  // ---------------------------------------------------------------------

  function OfUrl(jobId: string, url: string): Row -> bool {
    (r: Row) => r.jobId == jobId && r.url == url
  }

  /** A row that `claim_next` may pick: queued, due, and in a ready domain if any are named. */
  predicate Eligible(r: Row, jobId: string, ready: Option<set<string>>, now: int) {
    r.jobId == jobId && r.status == Queued && Due(r, now) && (ready.Some? ==> r.domain in ready.value)
  }

  /** `ORDER BY priority DESC, queue_id LIMIT 1` */
  function Best(rows: seq<Row>, jobId: string, ready: Option<set<string>>, now: int): (best: Option<nat>)
    ensures best.None? <==> forall i :: 0 <= i < |rows| ==> !Eligible(rows[i], jobId, ready, now)
    ensures best.Some? ==> best.value < |rows| && Eligible(rows[best.value], jobId, ready, now)
    ensures best.Some? ==> forall i :: 0 <= i < |rows| && Eligible(rows[i], jobId, ready, now) ==>
      rows[i].priority < rows[best.value].priority || (rows[i].priority == rows[best.value].priority && best.value <= i)
  {
    if rows == [] then None
    else
      var last := |rows| - 1;
      var before := Best(rows[..last], jobId, ready, now);
      if Eligible(rows[last], jobId, ready, now) && (before.None? || rows[before.value].priority < rows[last].priority)
      then Some(last) else before
  }

  predicate Pending(r: Row, jobId: string) {
    r.jobId == jobId && r.status == Queued
  }

  predicate InFlight(r: Row, jobId: string) {
    r.jobId == jobId && r.status == Fetching
  }

  predicate Stale(r: Row, jobId: string, cutoff: int) {
    r.jobId == jobId && r.status == Done && (r.fetchedAt.None? || r.fetchedAt.value <= cutoff)
  }

  /** The first `limit` stale rows, in insertion order. */
  function StaleIds(rows: seq<Row>, jobId: string, cutoff: int, limit: nat): (ids: seq<nat>)
    ensures |ids| <= limit
    ensures forall k :: 0 <= k < |ids| ==> ids[k] < |rows| && Stale(rows[ids[k]], jobId, cutoff)
    ensures forall k, l :: 0 <= k < l < |ids| ==> ids[k] < ids[l]
    ensures |ids| < limit ==> forall i :: 0 <= i < |rows| && Stale(rows[i], jobId, cutoff) ==> i in ids
  {
    if rows == [] then []
    else
      var last := |rows| - 1;
      var before := StaleIds(rows[..last], jobId, cutoff, limit);
      if |before| < limit && Stale(rows[last], jobId, cutoff) then before + [last] else before
  }

  /** They are the job's done rows fetched by the cutoff, or never, up to the last that the limit allows. */
  lemma {:induction false} FirstStale(rows: seq<Row>, jobId: string, cutoff: int, limit: nat, i: nat)
    requires i < |rows|
    ensures var ids := StaleIds(rows, jobId, cutoff, limit);
            i in ids <==>
              && rows[i].jobId == jobId && rows[i].status == Done
              && (rows[i].fetchedAt.None? || rows[i].fetchedAt.value <= cutoff)
              && (|ids| < limit || (ids != [] && i <= ids[|ids| - 1]))
  {
    var last := |rows| - 1;
    if i < last {
      FirstStale(rows[..last], jobId, cutoff, limit, i);
    }
  }

  lemma StaleIdsNext(rows: seq<Row>, row: Row, jobId: string, cutoff: int, limit: nat)
    ensures var before := StaleIds(rows, jobId, cutoff, limit);
            StaleIds(rows + [row], jobId, cutoff, limit)
            == if |before| < limit && Stale(row, jobId, cutoff) then before + [|rows|] else before
  {
    assert (rows + [row])[..|rows|] == rows;
  }

  lemma {:induction false} StaleIdsAlike(a: seq<Row>, b: seq<Row>, jobId: string, cutoff: int, limit: nat)
    requires |a| == |b| && forall i :: 0 <= i < |a| ==> (Stale(a[i], jobId, cutoff) <==> Stale(b[i], jobId, cutoff))
    ensures StaleIds(a, jobId, cutoff, limit) == StaleIds(b, jobId, cutoff, limit)
  {
    hide Stale;
    if a != [] {
      StaleIdsAlike(a[..|a| - 1], b[..|b| - 1], jobId, cutoff, limit);
    }
  }

  lemma {:induction false} StaleIdsEarlier(rows: seq<Row>, n: nat, jobId: string, cutoff: int, limit: nat)
    requires n <= |rows| && forall i :: n <= i < |rows| ==> !Stale(rows[i], jobId, cutoff)
    ensures StaleIds(rows, jobId, cutoff, limit) == StaleIds(rows[..n], jobId, cutoff, limit)
  {
    hide Stale;
    if n < |rows| {
      StaleIdsEarlier(rows[..|rows| - 1], n, jobId, cutoff, limit);
      assert rows[..|rows| - 1][..n] == rows[..n];
    } else {
      assert rows[..n] == rows;
    }
  }

  /** Rows that are not stale, there or not, make no difference. */
  lemma SameStaleIds(a: seq<Row>, b: seq<Row>, jobId: string, cutoff: int, limit: nat)
    requires |a| <= |b| && forall i :: 0 <= i < |a| ==> (Stale(a[i], jobId, cutoff) <==> Stale(b[i], jobId, cutoff))
    requires forall i :: |a| <= i < |b| ==> !Stale(b[i], jobId, cutoff)
    ensures StaleIds(a, jobId, cutoff, limit) == StaleIds(b, jobId, cutoff, limit)
  {
    hide StaleIds, Stale;
    StaleIdsAlike(a, b[..|a|], jobId, cutoff, limit);
    StaleIdsEarlier(b, |a|, jobId, cutoff, limit);
  }

  // ---------------------------------------------------------------------
  // The queue
  // ---------------------------------------------------------------------

  class FetchQueue {
    const urls: UrlRules
    var rows: seq<Row>
    ghost var log: seq<Op>

    ghost predicate Valid()
      reads this
    {
      rows == Replay(log)
    }

    constructor (urls: UrlRules)
      ensures Valid() && this.urls == urls && rows == [] && log == []
    {
      this.urls := urls;
      rows, log := [], [];
    }

    method Exists(jobId: string, url: string) returns (found: bool)
      ensures found <==> Tracked(rows, jobId, urls.normalize(url))
    {
      var row := FindFirst(rows, OfUrl(jobId, urls.normalize(url)));
      return row.Some?;
    }

    /** Adds the normalized URL unless the job already tracks it, in any status. */
    method Enqueue(jobId: string, url: string, priority: int, maxAttempts: int, now: int) returns (id: nat)
      requires Valid()
      modifies this
      ensures Valid()
      ensures id < |rows| && rows[id].jobId == jobId && rows[id].url == urls.normalize(url)
      ensures old(Tracked(rows, jobId, urls.normalize(url))) ==> rows == old(rows) && log == old(log)
      ensures !old(Tracked(rows, jobId, urls.normalize(url))) ==>
        && id == |old(rows)|
        && log == old(log) + [Op.Enqueue(rows[id])]
        && rows == old(rows) + [rows[id]]
        && rows[id] == Row(jobId, urls.normalize(url), urls.domain(urls.normalize(url)), priority, Queued, 0, maxAttempts,
                           None, None, None, None, None, None, None, Truncate(now))
      ensures old(Legal(log)) && maxAttempts >= 1 ==> Legal(log)
    {
      var normalized := urls.normalize(url);
      var domain := urls.domain(normalized);
      var existing := FindFirst(rows, OfUrl(jobId, normalized));
      if existing.Some? {
        return existing.value;
      }
      var row := Row(jobId, normalized, domain, priority, Queued, 0, maxAttempts, None, None, None,
                     None, None, None, None, Truncate(now));
      Extend(log, Op.Enqueue(row));
      id := |rows|;
      rows := rows + [row];
      log := log + [Op.Enqueue(row)];
    }

    /** Takes the best eligible row, or nothing exactly when none is eligible. */
    method ClaimNext(jobId: string, ready: Option<set<string>>, now: int) returns (claimed: Option<nat>)
      requires Valid()
      modifies this
      ensures Valid()
      ensures claimed == Best(old(rows), jobId, ready, now)
      ensures claimed.None? ==> rows == old(rows) && log == old(log)
      ensures claimed.Some? ==>
        && log == old(log) + [Claim(claimed.value, now)]
        && rows == old(rows)[claimed.value := old(rows)[claimed.value].(status := Fetching)]
      ensures old(Legal(log)) ==> Legal(log)
    {
      claimed := Best(rows, jobId, ready, now);
      if claimed.Some? {
        Extend(log, Claim(claimed.value, now));
        rows := rows[claimed.value := rows[claimed.value].(status := Fetching)];
        log := log + [Claim(claimed.value, now)];
      }
    }

    method MarkDone(id: nat, http: int, contentHash: Option<string>, etag: Option<string>, lastModified: Option<string>, now: int)
      requires Valid()
      modifies this
      ensures Valid() && log == old(log) + [Finish(id, now, http, contentHash, etag, lastModified)]
      ensures rows == Apply(old(rows), Finish(id, now, http, contentHash, etag, lastModified))
      ensures old(Legal(log)) && id < |old(rows)| && old(rows)[id].status == Fetching ==> Legal(log)
    {
      Extend(log, Finish(id, now, http, contentHash, etag, lastModified));
      if id < |rows| {
        rows := rows[id := rows[id].(status := Done, lastHttpStatus := Some(http), fetchedAt := Some(Truncate(now)),
                                     contentHash := contentHash, etag := etag, lastModified := lastModified,
                                     errorMessage := None)];
      }
      log := log + [Finish(id, now, http, contentHash, etag, lastModified)];
    }

    method MarkSkipped(id: nat, reason: string, now: int)
      requires Valid()
      modifies this
      ensures Valid() && log == old(log) + [Skip(id, now, reason)]
      ensures rows == Apply(old(rows), Skip(id, now, reason))
      ensures old(Legal(log)) && id < |old(rows)| && old(rows)[id].status == Fetching ==> Legal(log)
    {
      Extend(log, Skip(id, now, reason));
      if id < |rows| {
        rows := rows[id := rows[id].(status := Skipped, errorMessage := Some(reason), fetchedAt := Some(Truncate(now)))];
      }
      log := log + [Skip(id, now, reason)];
    }

    /** Counts the attempt; the last one fails the row, any other requeues it after a backoff. */
    method MarkFailed(id: nat, error: string, http: Option<int>, retryAfter: Option<int>, now: int)
      requires Valid()
      modifies this
      ensures Valid() && log == old(log) + [Fail(id, now, error, http, retryAfter)]
      ensures rows == Apply(old(rows), Fail(id, now, error, http, retryAfter))
      ensures old(Legal(log)) && id < |old(rows)| && old(rows)[id].status == Fetching ==> Legal(log)
    {
      Extend(log, Fail(id, now, error, http, retryAfter));
      log := log + [Fail(id, now, error, http, retryAfter)];
      if id >= |rows| {
        return;
      }
      var attempts := rows[id].attemptCount + 1;
      if attempts >= rows[id].maxAttempts {
        rows := rows[id := rows[id].(status := Failed, attemptCount := attempts, lastHttpStatus := http,
                                     errorMessage := Some(error))];
        return;
      }
      var backoff := if retryAfter.Some? then retryAfter.value else Backoff(attempts, None);
      rows := rows[id := rows[id].(status := Queued, attemptCount := attempts, lastHttpStatus := http,
                                   errorMessage := Some(error), nextRetryAt := Some(Truncate(now + backoff)))];
    }

    method IsEmpty(jobId: string) returns (empty: bool)
      ensures empty <==> forall i :: 0 <= i < |rows| ==> !Pending(rows[i], jobId)
    {
      var pending := FindFirst(rows, (r: Row) => Pending(r, jobId));
      return pending.None?;
    }

    /** Puts rows left in flight by a dead worker back in the queue. */
    method RequeueStaleFetching(jobId: string) returns (count: nat)
      requires Valid()
      modifies this
      ensures Valid() && |rows| == |old(rows)|
      ensures old(Legal(log)) ==> Legal(log)
      ensures forall i :: 0 <= i < |rows| ==> !InFlight(rows[i], jobId)
      ensures forall i :: 0 <= i < |rows| ==>
        rows[i] == if InFlight(old(rows[i]), jobId) then old(rows[i]).(status := Queued) else old(rows[i])
      ensures |log| == |old(log)| + count && old(log) <= log
      ensures forall k :: |old(log)| <= k < |log| ==> log[k].Recover?
      ensures (forall i :: 0 <= i < |old(rows)| ==> !InFlight(old(rows[i]), jobId)) ==> log == old(log)
    {
      hide Legal, Replay;
      count := 0;
      for i := 0 to |rows|
        invariant Valid() && |rows| == |old(rows)|
        invariant old(Legal(log)) ==> Legal(log)
        invariant forall k :: i <= k < |rows| ==> rows[k] == old(rows[k])
        invariant forall k :: 0 <= k < i ==>
          rows[k] == if InFlight(old(rows[k]), jobId) then old(rows[k]).(status := Queued) else old(rows[k])
        invariant |log| == |old(log)| + count && old(log) <= log
        invariant forall k :: |old(log)| <= k < |log| ==> log[k].Recover?
        invariant (forall k :: 0 <= k < |old(rows)| ==> !InFlight(old(rows[k]), jobId)) ==> log == old(log)
      {
        if InFlight(rows[i], jobId) {
          Extend(log, Recover(i));
          rows := rows[i := rows[i].(status := Queued)];
          log := log + [Recover(i)];
          count := count + 1;
        }
      }
    }

    method RevalidateRow(id: nat)
      requires Valid() && id < |rows|
      modifies this
      ensures Valid() && log == old(log) + [Revalidate(id)]
      ensures old(Legal(log)) && old(rows)[id].status == Done ==> Legal(log)
      ensures rows == old(rows)[id := old(rows)[id].(status := Queued, attemptCount := 0)]
    {
      Extend(log, Revalidate(id));
      rows := rows[id := rows[id].(status := Queued, attemptCount := 0)];
      log := log + [Revalidate(id)];
    }

    /** Puts long-finished rows back in the queue for a conditional re-fetch, with fresh attempts. */
    method RequeueForRevalidation(jobId: string, olderThan: int, limit: nat, now: int) returns (count: nat)
      requires Valid()
      modifies this
      ensures Valid() && |rows| == |old(rows)|
      ensures old(Legal(log)) ==> Legal(log)
      ensures var ids := StaleIds(old(rows), jobId, Truncate(now - olderThan), limit);
        && count == |ids|
        && forall i :: 0 <= i < |rows| ==>
             rows[i] == if i in ids then old(rows[i]).(status := Queued, attemptCount := 0) else old(rows[i])
      ensures |log| == |old(log)| + count && old(log) <= log
      ensures forall k :: |old(log)| <= k < |log| ==> log[k].Revalidate?
    {
      hide Legal, Replay;
      var ids := StaleIds(rows, jobId, Truncate(now - olderThan), limit);
      ghost var before, start := rows, log;
      for k := 0 to |ids|
        invariant Valid() && |rows| == |before|
        invariant Legal(start) ==> Legal(log)
        invariant forall l :: k <= l < |ids| ==> rows[ids[l]] == before[ids[l]]
        invariant forall i :: 0 <= i < |rows| ==>
          rows[i] == before[i] || (i in ids && rows[i] == before[i].(status := Queued, attemptCount := 0))
        invariant forall l :: 0 <= l < k ==> rows[ids[l]] == before[ids[l]].(status := Queued, attemptCount := 0)
        invariant |log| == |start| + k && start <= log
        invariant forall l :: |start| <= l < |log| ==> log[l].Revalidate?
      {
        RevalidateRow(ids[k]);
      }
      count := |ids|;
    }
  }
}
