/** Per-domain pacing. Delays and waits are in microseconds, stored instants in seconds. */
module RateLimiter {
  import opened Common

  datatype Limit = Limit(delay: int, lastRequestAt: Option<int>, blockedUntil: Option<int>, errorCount: nat)

  /** One request that was sent. */
  datatype Request = Request(domain: string, at: int)

  /** A stored delay of zero falls back to the job's own. */
  function EffectiveDelay(row: Limit, jobDelay: int): int {
    if row.delay != 0 then row.delay else jobDelay
  }

  predicate Unblocked(row: Limit, now: int) {
    row.blockedUntil.Some? ==> row.blockedUntil.value * MICROS <= now
  }

  predicate Rested(row: Limit, jobDelay: int, now: int) {
    row.lastRequestAt.Some? ==> now - row.lastRequestAt.value * MICROS >= EffectiveDelay(row, jobDelay)
  }

  predicate Open(row: Limit, jobDelay: int, now: int) {
    Unblocked(row, now) && Rested(row, jobDelay, now)
  }

  /** The latest of the instants the row is still waiting for. */
  function OpensAt(row: Limit, jobDelay: int, now: int): int {
    var rested := if row.lastRequestAt.Some? then row.lastRequestAt.value * MICROS + EffectiveDelay(row, jobDelay) else now;
    Max(now, if row.blockedUntil.Some? then Max(rested, row.blockedUntil.value * MICROS) else rested)
  }

  /** A domain is open from its opening instant on, and not before. */
  lemma OpenFromThenOn(row: Limit, jobDelay: int, now: int, later: int)
    requires now <= later
    ensures Open(row, jobDelay, later) <==> OpensAt(row, jobDelay, now) <= later
  {
  }

  /** Closed at every instant before `until`. */
  ghost predicate ClosedUntil(row: Limit, jobDelay: int, until: int) {
    forall t :: t < until ==> !Open(row, jobDelay, t)
  }

  class DomainRateLimiter {
    var rows: map<string, Limit>
    ghost var requests: seq<Request>

    constructor ()
      ensures rows == map[] && requests == []
    {
      rows, requests := map[], [];
    }

    method GetOrCreate(domain: string, delay: int) returns (row: Limit)
      modifies this`rows
      ensures domain in old(rows) ==> rows == old(rows)
      ensures domain !in old(rows) ==> rows == old(rows)[domain := Limit(delay, None, None, 0)]
      ensures domain in rows && row == rows[domain]
    {
      if domain !in rows {
        rows := rows[domain := Limit(delay, None, None, 0)];
      }
      return rows[domain];
    }

    /** Refused exactly while the domain is not open; the wait never reaches past its opening. */
    method IsAllowed(domain: string, delay: int, now: int) returns (allowed: bool, wait: int)
      modifies this`rows
      ensures domain in old(rows) ==> rows == old(rows)
      ensures domain !in old(rows) ==> rows == old(rows)[domain := Limit(delay, None, None, 0)]
      ensures domain in rows && (allowed <==> Open(rows[domain], delay, now))
      ensures allowed ==> wait == 0
      ensures !allowed ==> 0 < wait && now + wait <= OpensAt(rows[domain], delay, now)
      ensures forall t :: now <= t < now + wait ==> !Open(rows[domain], delay, t)
      ensures !allowed && Unblocked(rows[domain], now) ==> Open(rows[domain], delay, now + wait)
    {
      var row := GetOrCreate(domain, delay);
      if row.blockedUntil.Some? {
        var until := row.blockedUntil.value * MICROS;
        if now < until {
          return false, until - now;
        }
      }
      var effective := if row.delay != 0 then row.delay else delay;
      if row.lastRequestAt.Some? {
        var elapsed := now - row.lastRequestAt.value * MICROS;
        if elapsed < effective {
          return false, effective - elapsed;
        }
      }
      return true, 0;
    }

    method RecordRequest(domain: string, now: int)
      modifies this
      ensures requests == old(requests) + [Request(domain, now)]
      ensures rows == if domain in old(rows)
        then old(rows)[domain := old(rows)[domain].(lastRequestAt := Some(Truncate(now)))] else old(rows)
    {
      requests := requests + [Request(domain, now)];
      if domain in rows {
        rows := rows[domain := rows[domain].(lastRequestAt := Some(Truncate(now)))];
      }
    }

    /** Counts the error; a non-zero block closes the domain until then. */
    method RecordError(domain: string, block: Option<int>, now: int)
      modifies this`rows
      ensures rows.Keys == old(rows.Keys)
      ensures forall d :: d in rows && d != domain ==> rows[d] == old(rows)[d]
      ensures domain in rows ==>
        && rows[domain].delay == old(rows)[domain].delay
        && rows[domain].lastRequestAt == old(rows)[domain].lastRequestAt
        && rows[domain].errorCount == old(rows)[domain].errorCount + 1
        && rows[domain].blockedUntil ==
             if block.Some? && block.value != 0 then Some(Truncate(now + block.value)) else old(rows)[domain].blockedUntil
    {
      if domain in rows {
        rows := rows[domain := rows[domain].(errorCount := rows[domain].errorCount + 1)];
      }
      if block.Some? && block.value != 0 {
        var until := Truncate(now + block.value);
        if domain in rows {
          rows := rows[domain := rows[domain].(blockedUntil := Some(until))];
        }
      }
    }

    method RecordSuccess(domain: string)
      modifies this`rows
      ensures rows == if domain in old(rows)
        then old(rows)[domain := old(rows)[domain].(errorCount := 0, blockedUntil := None)] else old(rows)
    {
      if domain in rows {
        rows := rows[domain := rows[domain].(errorCount := 0, blockedUntil := None)];
      }
    }
  }

  /** Known domains are as they were; any other begins with this delay. */
  ghost predicate Introduced(before: map<string, Limit>, after: map<string, Limit>, delay: int) {
    && (forall d :: d in before ==> d in after && after[d] == before[d])
    && (forall d :: d in after && d !in before ==> after[d] == Limit(delay, None, None, 0))
  }

  /** A request to a known domain was sent. */
  function Requested(rows: map<string, Limit>, domain: string, at: int): map<string, Limit> {
    if domain in rows then rows[domain := rows[domain].(lastRequestAt := Some(Truncate(at)))] else rows
  }

  /** A known domain's errors are counted one up, and a non-zero wait closes it for that long. */
  ghost predicate Penalized(before: map<string, Limit>, after: map<string, Limit>, domain: string, wait: Option<int>, at: int) {
    && after.Keys == before.Keys && (forall d :: d in before && d != domain ==> after[d] == before[d])
    && (domain in before ==>
          after[domain] == before[domain].(
            errorCount := before[domain].errorCount + 1,
            blockedUntil := if wait.Some? && wait.value != 0 then Some(Truncate(at + wait.value))
                            else before[domain].blockedUntil))
  }

  /** A known domain's errors are forgotten together with its block. */
  ghost predicate Forgiven(before: map<string, Limit>, after: map<string, Limit>, domain: string) {
    && after.Keys == before.Keys && (forall d :: d in before && d != domain ==> after[d] == before[d])
    && (domain in before ==> after[domain] == before[domain].(errorCount := 0, blockedUntil := None))
  }

  // ---------------------------------------------------------------------
  // Surveying several domains
  // ---------------------------------------------------------------------

  /** The refused domain that opens first, unless it is blocked. */
  ghost predicate Soonest(rows: map<string, Limit>, domain: string, delay: int, opening: int) {
    domain in rows && (rows[domain].blockedUntil.None? ==> Open(rows[domain], delay, opening))
  }

  /** A survey from `start` to `now`: the ready domains are open, every other one stays closed for
      the whole wait from `start`, and after the wait from `now` the soonest of them opens. */
  ghost predicate Surveyed(rows: map<string, Limit>, domains: seq<string>, ready: set<string>, wait: Option<int>, delay: int,
                           start: int, now: int)
  {
    && (forall d :: d in ready ==> d in domains && d in rows && Open(rows[d], delay, now))
    && match wait
       case None => forall d :: d in domains ==> d in ready
       case Some(w) =>
         && w > 0
         && (forall d :: d in domains && d !in ready ==> d in rows && ClosedUntil(rows[d], delay, start + w))
         && exists d :: d in domains && d !in ready && Soonest(rows, d, delay, now + w)
  }

  datatype Survey = Survey(rows: map<string, Limit>, ready: set<string>, wait: Option<int>, now: int)

  lemma SurveyNothing(rows: map<string, Limit>, delay: int, now: int)
    ensures Surveyed(rows, [], {}, None, delay, now, now)
  {
  }

  lemma SurveyNext(before: Survey, rows: map<string, Limit>, domains: seq<string>, i: nat, ready: set<string>, wait: Option<int>,
                   delay: int, start: int, now: int, own: int)
    requires i < |domains| && domains[i] !in domains[..i] && start <= before.now <= now
    requires Surveyed(before.rows, domains[..i], before.ready, before.wait, delay, start, before.now)
    requires domains[i] in rows && forall d :: d in before.rows ==> d in rows && rows[d] == before.rows[d]
    requires ready == before.ready + if own == 0 then {domains[i]} else {}
    requires wait == if own != 0 && (before.wait.None? || own < before.wait.value) then Some(own) else before.wait
    requires own == 0 ==> Open(rows[domains[i]], delay, now)
    requires own != 0 ==> own > 0 && (forall t :: now <= t < now + own ==> !Open(rows[domains[i]], delay, t))
    requires own != 0 && Unblocked(rows[domains[i]], now) ==> Open(rows[domains[i]], delay, now + own)
    ensures Surveyed(rows, domains[..i + 1], ready, wait, delay, start, now)
  {
    var d := domains[i];
    assert domains[..i + 1] == domains[..i] + [d];
    if own != 0 {
      forall t | t < now + own ensures !Open(rows[d], delay, t) {
        assert !Open(rows[d], delay, Max(t, now));
      }
    }
    if before.wait.Some? {
      var e :| e in domains[..i] && e !in before.ready && Soonest(before.rows, e, delay, before.now + before.wait.value);
      assert e != d && (wait == before.wait ==> Soonest(rows, e, delay, now + before.wait.value));
      assert e in domains[..i + 1] && e !in ready;
    }
    if own != 0 && wait == Some(own) {
      assert d in domains[..i + 1] && d !in ready && Soonest(rows, d, delay, now + own);
    }
  }

  // ---------------------------------------------------------------------
  // Spacing
  // ---------------------------------------------------------------------

  function LastRequest(requests: seq<Request>, domain: string): Option<int> {
    if requests == [] then None
    else if requests[|requests| - 1].domain == domain then Some(requests[|requests| - 1].at)
    else LastRequest(requests[..|requests| - 1], domain)
  }

  ghost predicate InOrder(requests: seq<Request>, now: int) {
    && (forall i, j :: 0 <= i < j < |requests| ==> requests[i].at <= requests[j].at)
    && (forall i :: 0 <= i < |requests| ==> requests[i].at <= now)
  }

  /** Every stored `last_request_at` is the truncated time of the domain's last request. */
  ghost predicate Remembers(rows: map<string, Limit>, requests: seq<Request>) {
    forall i :: 0 <= i < |requests| ==>
      var d := requests[i].domain;
      d in rows && LastRequest(requests, d).Some?
      && rows[d].lastRequestAt == Some(Truncate(LastRequest(requests, d).value))
  }

  /** Any two requests to one domain are more than its stored delay, less a second, apart. */
  ghost predicate Spaced(rows: map<string, Limit>, requests: seq<Request>) {
    forall i, j :: 0 <= i < j < |requests| && requests[i].domain == requests[j].domain && requests[i].domain in rows ==>
      requests[j].at - requests[i].at > rows[requests[i].domain].delay - MICROS
  }

  ghost predicate Paced(rows: map<string, Limit>, requests: seq<Request>, now: int) {
    InOrder(requests, now) && Remembers(rows, requests) && Spaced(rows, requests)
  }

  lemma {:induction false} LastRequestIsLatest(requests: seq<Request>, domain: string, i: nat)
    requires i < |requests| && requests[i].domain == domain
    requires forall i, j :: 0 <= i < j < |requests| ==> requests[i].at <= requests[j].at
    ensures LastRequest(requests, domain).Some? && requests[i].at <= LastRequest(requests, domain).value
  {
    if requests[|requests| - 1].domain != domain {
      LastRequestIsLatest(requests[..|requests| - 1], domain, i);
    }
  }

  /** A request sent to an open domain keeps the pacing, however late after the check. */
  lemma RequestKeepsPace(rows: map<string, Limit>, requests: seq<Request>, domain: string, jobDelay: int, checked: int, now: int)
    requires Paced(rows, requests, checked) && checked <= now
    requires domain in rows && Open(rows[domain], jobDelay, checked)
    ensures Paced(rows[domain := rows[domain].(lastRequestAt := Some(Truncate(now)))], requests + [Request(domain, now)], now)
  {
    var rows' := rows[domain := rows[domain].(lastRequestAt := Some(Truncate(now)))];
    var requests' := requests + [Request(domain, now)];
    assert requests'[..|requests' | - 1] == requests;
    assert LastRequest(requests', domain) == Some(now);
    forall i | 0 <= i < |requests| && requests[i].domain != domain
      ensures LastRequest(requests', requests[i].domain) == LastRequest(requests, requests[i].domain)
    {
    }
    forall i | 0 <= i < |requests| && requests[i].domain == domain
      ensures now - requests[i].at > rows[domain].delay - MICROS
    {
      LastRequestIsLatest(requests, domain, i);
      assert rows[requests[i].domain].lastRequestAt.Some?;
    }
  }

  /** Changing anything but delays and request times keeps the pacing. */
  lemma OtherWritesKeepPace(rows: map<string, Limit>, rows': map<string, Limit>, requests: seq<Request>, now: int, later: int)
    requires Paced(rows, requests, now) && now <= later
    requires rows.Keys <= rows'.Keys
    requires forall d :: d in rows ==> rows'[d].delay == rows[d].delay && rows'[d].lastRequestAt == rows[d].lastRequestAt
    ensures Paced(rows', requests, later)
  {
  }
}
