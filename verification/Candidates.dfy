/** Discovered candidates, and the engine that lands observed URLs as candidates. */
module Candidates {
  import opened Common
  import opened UrlNormalization

  datatype CandidateStatus = Fresh | Accepted | Duplicate | Rejected | UnderReview

  datatype Candidate = Candidate(
    jobId: string, entityType: string, url: string, discoveryMethod: string, fingerprint: string,
    confidence: real, status: CandidateStatus, discoveredAt: int)

  /** One URL a discovery method observed. */
  datatype Discovered = Discovered(url: string, discoveryMethod: string, stableId: Option<string>, confidence: real)

  // ---------------------------------------------------------------------
  // Queries
  // ---------------------------------------------------------------------

  function WithFingerprint(jobId: string, fingerprint: string): Candidate -> bool {
    (c: Candidate) => c.jobId == jobId && c.fingerprint == fingerprint
  }

  function CountOf(rows: seq<Candidate>, jobId: string): nat {
    if rows == [] then 0
    else CountOf(rows[..|rows| - 1], jobId) + if rows[|rows| - 1].jobId == jobId then 1 else 0
  }

  function CountStatus(rows: seq<Candidate>, jobId: string, status: CandidateStatus): nat {
    if rows == [] then 0
    else
      var last := rows[|rows| - 1];
      CountStatus(rows[..|rows| - 1], jobId, status) + if last.jobId == jobId && last.status == status then 1 else 0
  }

  /** Both count rows. */
  lemma {:induction false} CountsAre(rows: seq<Candidate>, jobId: string, status: CandidateStatus)
    ensures CountOf(rows, jobId) == |Where(rows, (c: Candidate) => c.jobId == jobId)|
    ensures CountStatus(rows, jobId, status) == |Where(rows, (c: Candidate) => c.jobId == jobId && c.status == status)|
  {
    if rows != [] {
      CountsAre(rows[..|rows| - 1], jobId, status);
      WhereNext(rows, (c: Candidate) => c.jobId == jobId);
      WhereNext(rows, (c: Candidate) => c.jobId == jobId && c.status == status);
    }
  }

  predicate IsFresh(c: Candidate, jobId: string) {
    c.jobId == jobId && c.status == Fresh
  }

  predicate ByConfidence(rows: seq<Candidate>, ids: seq<nat>) {
    forall k, l :: 0 <= k < l < |ids| && ids[k] < |rows| && ids[l] < |rows| ==>
      rows[ids[k]].confidence >= rows[ids[l]].confidence
  }

  /** `ORDER BY confidence DESC`: inserts a row's index behind every at least as confident one. */
  function Ranked(rows: seq<Candidate>, ids: seq<nat>, id: nat): (r: seq<nat>)
    requires id < |rows| && forall k :: 0 <= k < |ids| ==> ids[k] < |rows|
    ensures |r| == |ids| + 1 && multiset(r) == multiset(ids) + multiset{id}
    ensures forall k :: 0 <= k < |r| ==> r[k] < |rows|
    decreases |ids|
  {
    if ids == [] || rows[ids[|ids| - 1]].confidence >= rows[id].confidence then ids + [id]
    else
      assert ids == ids[..|ids| - 1] + [ids[|ids| - 1]];
      Ranked(rows, ids[..|ids| - 1], id) + [ids[|ids| - 1]]
  }

  lemma {:induction false} RankedSorted(rows: seq<Candidate>, ids: seq<nat>, id: nat)
    requires id < |rows| && (forall k :: 0 <= k < |ids| ==> ids[k] < |rows|) && ByConfidence(rows, ids)
    ensures ByConfidence(rows, Ranked(rows, ids, id))
    decreases |ids|
  {
    if ids != [] && rows[ids[|ids| - 1]].confidence < rows[id].confidence {
      var front := ids[..|ids| - 1];
      RankedSorted(rows, front, id);
      forall k | 0 <= k <= |front| ensures rows[Ranked(rows, front, id)[k]].confidence >= rows[ids[|ids| - 1]].confidence {
        assert Ranked(rows, front, id)[k] in multiset(Ranked(rows, front, id));
        assert Ranked(rows, front, id)[k] == id || Ranked(rows, front, id)[k] in multiset(front);
      }
    }
  }

  lemma {:induction false} RankedMember(rows: seq<Candidate>, ids: seq<nat>, id: nat, x: nat)
    requires id < |rows| && forall k :: 0 <= k < |ids| ==> ids[k] < |rows|
    ensures x in Ranked(rows, ids, id) <==> x == id || x in ids
  {
    assert x in Ranked(rows, ids, id) <==> x in multiset(Ranked(rows, ids, id));
    assert x in ids <==> x in multiset(ids);
  }

  function FreshIds(rows: seq<Candidate>, jobId: string, upTo: nat): (r: seq<nat>)
    requires upTo <= |rows|
    ensures forall k :: 0 <= k < |r| ==> r[k] < |rows|
  {
    if upTo == 0 then []
    else
      var before := FreshIds(rows, jobId, upTo - 1);
      if IsFresh(rows[upTo - 1], jobId) then Ranked(rows, before, upTo - 1) else before
  }

  lemma {:induction false} FreshIdsMember(rows: seq<Candidate>, jobId: string, upTo: nat, x: nat)
    requires upTo <= |rows|
    ensures x in FreshIds(rows, jobId, upTo) <==> x < upTo && IsFresh(rows[x], jobId)
  {
    hide Ranked;
    if upTo > 0 {
      FreshIdsMember(rows, jobId, upTo - 1, x);
      RankedMember(rows, FreshIds(rows, jobId, upTo - 1), upTo - 1, x);
    }
  }

  lemma {:induction false} FreshIdsSorted(rows: seq<Candidate>, jobId: string, upTo: nat)
    requires upTo <= |rows|
    ensures ByConfidence(rows, FreshIds(rows, jobId, upTo))
    ensures |FreshIds(rows, jobId, upTo)| == CountStatus(rows[..upTo], jobId, Fresh)
  {
    if upTo > 0 {
      FreshIdsSorted(rows, jobId, upTo - 1);
      assert rows[..upTo][..upTo - 1] == rows[..upTo - 1];
      if IsFresh(rows[upTo - 1], jobId) { RankedSorted(rows, FreshIds(rows, jobId, upTo - 1), upTo - 1); }
    }
  }

  lemma FrontSorted(rows: seq<Candidate>, ids: seq<nat>, n: nat)
    requires ByConfidence(rows, ids) && n <= |ids|
    ensures ByConfidence(rows, ids[..n])
  {
  }

  /** What is cut off is no more confident than what is kept. */
  lemma FrontConfident(rows: seq<Candidate>, ids: seq<nat>, n: nat, i: nat)
    requires ByConfidence(rows, ids) && n <= |ids| && i in ids && i !in ids[..n]
    requires forall k :: 0 <= k < |ids| ==> ids[k] < |rows|
    ensures forall k :: 0 <= k < n ==> rows[ids[k]].confidence >= rows[i].confidence
  {
    var l :| 0 <= l < |ids| && ids[l] == i;
    assert forall k :: 0 <= k < n ==> ids[..n][k] == ids[k];
    assert l >= n;
  }

  /** The most recently discovered candidate of a URL. */
  function LatestByUrl(rows: seq<Candidate>, jobId: string, url: string): (r: Option<nat>)
    ensures r.Some? ==> r.value < |rows| && rows[r.value].jobId == jobId && rows[r.value].url == url
    ensures r.Some? ==> forall i :: 0 <= i < |rows| && rows[i].jobId == jobId && rows[i].url == url ==>
      rows[i].discoveredAt <= rows[r.value].discoveredAt
    ensures r.None? ==> forall i :: 0 <= i < |rows| && rows[i].jobId == jobId ==> rows[i].url != url
  {
    if rows == [] then None
    else
      var last := |rows| - 1;
      var before := LatestByUrl(rows[..last], jobId, url);
      if rows[last].jobId == jobId && rows[last].url == url
         && (before.None? || rows[before.value].discoveredAt < rows[last].discoveredAt)
      then Some(last) else before
  }

  /** Within a job, no two candidates share a non-empty fingerprint. */
  ghost predicate UniqueFingerprints(rows: seq<Candidate>) {
    forall i, j :: 0 <= i < j < |rows| && rows[i].jobId == rows[j].jobId && rows[i].fingerprint != "" ==>
      rows[i].fingerprint != rows[j].fingerprint
  }

  /** Rows are only appended, and an old row changes in its status at most. */
  ghost predicate Grown(before: seq<Candidate>, after: seq<Candidate>) {
    && |before| <= |after|
    && forall i :: 0 <= i < |before| ==> after[i] == before[i].(status := after[i].status)
  }

  lemma {:induction false} CountAppend(rows: seq<Candidate>, more: seq<Candidate>, jobId: string)
    ensures CountOf(rows + more, jobId) == CountOf(rows, jobId) + CountOf(more, jobId)
  {
    if more == [] {
      assert rows + more == rows;
    } else {
      assert (rows + more)[..|rows + more| - 1] == rows + more[..|more| - 1];
      CountAppend(rows, more[..|more| - 1], jobId);
    }
  }

  lemma {:induction false} CountIgnoresStatus(before: seq<Candidate>, after: seq<Candidate>, jobId: string)
    requires Grown(before, after) && |before| == |after|
    ensures CountOf(after, jobId) == CountOf(before, jobId)
  {
    if before != [] {
      CountIgnoresStatus(before[..|before| - 1], after[..|after| - 1], jobId);
    }
  }

  lemma {:induction false} CountAtMost(rows: seq<Candidate>, jobId: string, status: CandidateStatus)
    ensures CountStatus(rows, jobId, status) <= CountOf(rows, jobId) <= |rows|
  {
    if rows != [] { CountAtMost(rows[..|rows| - 1], jobId, status); }
  }

  // ---------------------------------------------------------------------
  // The store
  // ---------------------------------------------------------------------

  class CandidateStore {
    var rows: seq<Candidate>

    constructor ()
      ensures rows == []
    {
      rows := [];
    }

    /** Adds a candidate unless the job already has one with this non-empty fingerprint. */
    method Add(jobId: string, entityType: string, url: string, discoveryMethod: string, fingerprint: string,
               confidence: real, now: int) returns (id: nat, created: bool)
      modifies this
      ensures id < |rows| && rows[id].jobId == jobId && rows[id].fingerprint == fingerprint
      ensures created <==> fingerprint == "" || forall i :: 0 <= i < |old(rows)| && old(rows)[i].jobId == jobId ==>
        old(rows)[i].fingerprint != fingerprint
      ensures !created ==> rows == old(rows)
      ensures created ==> id == |old(rows)|
      ensures old(UniqueFingerprints(rows)) ==> UniqueFingerprints(rows)
      ensures created ==>
        rows == old(rows) + [Candidate(jobId, entityType, url, discoveryMethod, fingerprint, confidence, Fresh, Truncate(now))]
    {
      if fingerprint != "" {
        var existing := FindFirst(rows, WithFingerprint(jobId, fingerprint));
        if existing.Some? {
          return existing.value, false;
        }
        forall i | 0 <= i < |rows| && rows[i].jobId == jobId ensures rows[i].fingerprint != fingerprint {
          assert !WithFingerprint(jobId, fingerprint)(rows[i]);
        }
      }
      id, created := |rows|, true;
      rows := rows + [Candidate(jobId, entityType, url, discoveryMethod, fingerprint, confidence, Fresh, Truncate(now))];
    }

    method SetStatus(id: nat, status: CandidateStatus)
      modifies this
      ensures |rows| == |old(rows)| && Grown(old(rows), rows)
      ensures forall i :: 0 <= i < |rows| && i != id ==> rows[i] == old(rows)[i]
      ensures id < |rows| ==> rows[id].status == status
    {
      if id < |rows| {
        rows := rows[id := rows[id].(status := status)];
      }
    }

    /** The job's fresh candidates, most confident first, at most `limit` of them. */
    method ListNew(jobId: string, limit: nat) returns (ids: seq<nat>)
      ensures |ids| <= limit && ByConfidence(rows, ids)
      ensures forall k :: 0 <= k < |ids| ==> ids[k] < |rows| && IsFresh(rows[ids[k]], jobId)
      ensures forall i: nat, k :: i < |rows| && IsFresh(rows[i], jobId) && i !in ids && 0 <= k < |ids| ==>
        rows[ids[k]].confidence >= rows[i].confidence
      ensures CountStatus(rows, jobId, Fresh) <= limit ==>
        forall i: nat :: i < |rows| && IsFresh(rows[i], jobId) ==> i in ids
    {
      hide FreshIds, ByConfidence, CountStatus;
      var all := FreshIds(rows, jobId, |rows|);
      ids := if |all| <= limit then all else all[..limit];
      FreshIdsSorted(rows, jobId, |rows|);
      assert rows[..|rows|] == rows;
      FrontSorted(rows, all, |ids|);
      forall x: nat ensures x in all <==> x < |rows| && IsFresh(rows[x], jobId) {
        FreshIdsMember(rows, jobId, |rows|, x);
      }
      forall i: nat | i < |rows| && IsFresh(rows[i], jobId) && i !in ids {
        FrontConfident(rows, all, |ids|, i);
      }
    }
  }

  // ---------------------------------------------------------------------
  // The discovery engine
  // ---------------------------------------------------------------------

  /** Real-world identity when the URL carries a stable id, otherwise the URL itself. */
  function CandidateFingerprint(entityType: string, item: Discovered, url: string): string {
    if Truthy(item.stableId) then entityType + ":" + item.stableId.value else url
  }

  /** Under one entity type, a stable id identifies whatever the URL; without one, the URL does. */
  lemma FingerprintsAgreeIff(entityType: string, a: Discovered, b: Discovered, urlA: string, urlB: string)
    requires Truthy(a.stableId) <==> Truthy(b.stableId)
    ensures CandidateFingerprint(entityType, a, urlA) == CandidateFingerprint(entityType, b, urlB)
      <==> if Truthy(a.stableId) then a.stableId == b.stableId else urlA == urlB
  {
    if Truthy(a.stableId) {
      var prefix, x, y := entityType + ":", a.stableId.value, b.stableId.value;
      assert (prefix + x)[|prefix|..] == x && (prefix + y)[|prefix|..] == y;
    }
  }

  /** Some candidate of the job stands for the observed item: under its stable id, or else its URL. */
  ghost predicate Represented(rows: seq<Candidate>, urls: UrlRules, jobId: string, entityType: string, item: Discovered) {
    var url := urls.normalize(item.url);
    url == "" || exists i :: 0 <= i < |rows| && rows[i].jobId == jobId
                             && rows[i].fingerprint == if item.stableId.Some? && item.stableId.value != ""
                                                       then entityType + ":" + item.stableId.value else url
  }

  ghost predicate AllRepresented(rows: seq<Candidate>, urls: UrlRules, jobId: string, entityType: string,
                                 found: seq<Discovered>)
  {
    forall j :: 0 <= j < |found| ==> Represented(rows, urls, jobId, entityType, found[j])
  }

  /** The new rows are the created items, in order. */
  ghost predicate Landed(rows: seq<Candidate>, created: seq<Discovered>, urls: UrlRules, jobId: string, entityType: string,
                         found: seq<Discovered>)
  {
    && |rows| == |created|
    && forall k :: 0 <= k < |created| ==>
         && created[k] in found && rows[k].jobId == jobId && rows[k].status == Fresh
         && rows[k].url == urls.normalize(created[k].url) != ""
         && rows[k].fingerprint == CandidateFingerprint(entityType, created[k], rows[k].url)
         && rows[k].entityType == entityType && rows[k].confidence == created[k].confidence
         && rows[k].discoveryMethod == created[k].discoveryMethod
  }

  /** From this position on, the rows were discovered between the two times. */
  ghost predicate DatedFrom(rows: seq<Candidate>, start: nat, early: int, late: int) {
    forall i :: start <= i < |rows| ==> early - MICROS < rows[i].discoveredAt * MICROS <= late
  }

  class DiscoveryEngine {
    const urls: UrlRules
    const candidates: CandidateStore

    constructor (urls: UrlRules, candidates: CandidateStore)
      ensures this.urls == urls && this.candidates == candidates
    {
      this.urls, this.candidates := urls, candidates;
    }

    /** Lands every observed URL as a candidate and returns exactly the genuinely new ones. */
    method SaveCandidates(jobId: string, entityType: string, found: seq<Discovered>, clock: Clock)
      returns (created: seq<Discovered>)
      modifies candidates, clock
      ensures clock.now >= old(clock.now)
      ensures old(candidates.rows) <= candidates.rows
      ensures |created| == |candidates.rows| - |old(candidates.rows)|
      ensures CountOf(candidates.rows, jobId) == CountOf(old(candidates.rows), jobId) + |created|
      ensures old(UniqueFingerprints(candidates.rows)) ==> UniqueFingerprints(candidates.rows)
      ensures AllRepresented(candidates.rows, urls, jobId, entityType, found)
      ensures Landed(candidates.rows[|old(candidates.rows)|..], created, urls, jobId, entityType, found)
      ensures DatedFrom(candidates.rows, |old(candidates.rows)|, old(clock.now), clock.now)
    {
      hide Saved, UniqueFingerprints;
      created := [];
      ghost var start := candidates.rows;
      SavedNothing(start, urls, jobId, entityType, found);
      for i := 0 to |found|
        invariant clock.now >= old(clock.now)
        invariant UniqueFingerprints(start) ==> UniqueFingerprints(candidates.rows)
        invariant Saved(start, candidates.rows, created, urls, jobId, entityType, found, i)
        invariant |start| <= |candidates.rows| && DatedFrom(candidates.rows, |start|, old(clock.now), clock.now)
      {
        var item := found[i];
        var url := urls.normalize(item.url);
        if url == "" {
          SavedStep(start, candidates.rows, candidates.rows, created, created, urls, jobId, entityType, found, i);
          continue;
        }
        var fingerprint := CandidateFingerprint(entityType, item, url);
        var now := clock.Read();
        ghost var before, createdBefore := candidates.rows, created;
        var id, isNew := candidates.Add(jobId, entityType, url, item.discoveryMethod, fingerprint, item.confidence, now);
        if isNew {
          created := created + [item];
        }
        SavedStep(start, before, candidates.rows, createdBefore, created, urls, jobId, entityType, found, i);
      }
      SavedAll(start, candidates.rows, created, urls, jobId, entityType, found);
    }
  }

  /** What the loop has achieved after the first `i` observed items. */
  ghost predicate Saved(start: seq<Candidate>, rows: seq<Candidate>, created: seq<Discovered>, urls: UrlRules,
                        jobId: string, entityType: string, found: seq<Discovered>, i: nat)
    requires i <= |found|
  {
    && start <= rows
    && CountOf(rows, jobId) == CountOf(start, jobId) + |created|
    && AllRepresented(rows, urls, jobId, entityType, found[..i])
    && Landed(rows[|start|..], created, urls, jobId, entityType, found)
  }

  lemma SavedNothing(start: seq<Candidate>, urls: UrlRules, jobId: string, entityType: string, found: seq<Discovered>)
    ensures Saved(start, start, [], urls, jobId, entityType, found, 0)
  {
  }

  lemma SavedAll(start: seq<Candidate>, rows: seq<Candidate>, created: seq<Discovered>, urls: UrlRules, jobId: string,
                 entityType: string, found: seq<Discovered>)
    requires Saved(start, rows, created, urls, jobId, entityType, found, |found|)
    ensures start <= rows && CountOf(rows, jobId) == CountOf(start, jobId) + |created| && |created| == |rows| - |start|
    ensures AllRepresented(rows, urls, jobId, entityType, found)
    ensures Landed(rows[|start|..], created, urls, jobId, entityType, found)
  {
    assert found[..|found|] == found;
  }

  lemma LandedAppend(rows: seq<Candidate>, created: seq<Discovered>, row: Candidate, item: Discovered, urls: UrlRules,
                     jobId: string, entityType: string, found: seq<Discovered>)
    requires Landed(rows, created, urls, jobId, entityType, found)
    requires Landed([row], [item], urls, jobId, entityType, found)
    ensures Landed(rows + [row], created + [item], urls, jobId, entityType, found)
  {
  }

  lemma SavedStep(start: seq<Candidate>, before: seq<Candidate>, after: seq<Candidate>, created: seq<Discovered>,
                  created': seq<Discovered>, urls: UrlRules, jobId: string, entityType: string, found: seq<Discovered>, i: nat)
    requires i < |found| && Saved(start, before, created, urls, jobId, entityType, found, i)
    requires Represented(after, urls, jobId, entityType, found[i])
    requires || (after == before && created' == created)
             || (created' == created + [found[i]] && |after| == |before| + 1 && before <= after
                 && Landed([after[|before|]], [found[i]], urls, jobId, entityType, found))
    ensures Saved(start, after, created', urls, jobId, entityType, found, i + 1)
  {
    hide AllRepresented, Represented, CountOf, Landed;
    RepresentedGrows(before, after, urls, jobId, entityType, found[..i]);
    RepresentedNext(after, urls, jobId, entityType, found, i);
    if after != before {
      var row := after[|before|];
      assert after == before + [row];
      CountAppend(before, [row], jobId);
      OneOf(row, jobId);
      assert after[|start|..] == before[|start|..] + [row];
      LandedAppend(before[|start|..], created, row, found[i], urls, jobId, entityType, found);
    }
  }

  lemma OneOf(row: Candidate, jobId: string)
    ensures CountOf([row], jobId) == if row.jobId == jobId then 1 else 0
  {
  }

  lemma RepresentedNext(rows: seq<Candidate>, urls: UrlRules, jobId: string, entityType: string, found: seq<Discovered>, i: nat)
    requires i < |found| && AllRepresented(rows, urls, jobId, entityType, found[..i])
    requires Represented(rows, urls, jobId, entityType, found[i])
    ensures AllRepresented(rows, urls, jobId, entityType, found[..i + 1])
  {
  }

  lemma RepresentedGrows(before: seq<Candidate>, after: seq<Candidate>, urls: UrlRules, jobId: string, entityType: string,
                         found: seq<Discovered>)
    requires before <= after && AllRepresented(before, urls, jobId, entityType, found)
    ensures AllRepresented(after, urls, jobId, entityType, found)
  {
  }
}
