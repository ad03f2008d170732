/** The review queue, and the outside world: fetch results, page contents and observed URLs
    reach the pipeline as arbitrary values. */
module Surroundings {
  import opened Common
  import opened Candidates
  import Entities

  datatype Reason = Captcha | Refused | ParseFailure | MissingRequiredField | DuplicateAmbiguity

  datatype ReviewRow = ReviewRow(jobId: string, reason: Reason, entityId: Option<nat>, candidateId: Option<nat>, open: bool)

  function OpenCount(rows: seq<ReviewRow>, jobId: string): nat {
    if rows == [] then 0
    else
      var last := rows[|rows| - 1];
      OpenCount(rows[..|rows| - 1], jobId) + if last.jobId == jobId && last.open then 1 else 0
  }

  lemma {:induction false} OpenCountIs(rows: seq<ReviewRow>, jobId: string)
    ensures OpenCount(rows, jobId) == |Where(rows, (r: ReviewRow) => r.jobId == jobId && r.open)|
  {
    if rows != [] {
      OpenCountIs(rows[..|rows| - 1], jobId);
      WhereNext(rows, (r: ReviewRow) => r.jobId == jobId && r.open);
    }
  }

  class ReviewQueue {
    var rows: seq<ReviewRow>

    constructor ()
      ensures rows == []
    {
      rows := [];
    }

    method Add(jobId: string, reason: Reason, entityId: Option<nat>, candidateId: Option<nat>)
      modifies this
      ensures rows == old(rows) + [ReviewRow(jobId, reason, entityId, candidateId, true)]
    {
      rows := rows + [ReviewRow(jobId, reason, entityId, candidateId, true)];
    }
  }

  /** A fetch is refused (hard block), fails, reports an unchanged page, or brings one; it may
      also raise. `retryAfter` is in microseconds. */
  datatype FetchResult =
    | Blocked(error: Option<string>)
    | NotOk(error: Option<string>, http: Option<int>, retryAfter: Option<int>)
    | NotModified
    | Page(status: Option<int>, contentHash: Option<string>, etag: Option<string>, lastModified: Option<string>)
    | FetchRaises

  /** What a page yields: the URLs observed on it, then its records unless the adapter raises. */
  datatype PageContent = PageContent(found: seq<Discovered>, extracted: Option<seq<Entities.Record>>)

  /** One answer of the outside world. */
  datatype Observation =
    | Sweep(found: seq<Discovered>)
    | Fetched(url: string, etag: Option<string>, lastModified: Option<string>, result: FetchResult)
    | Read(url: string, content: PageContent)

  class World {
    /** Every answer so far. */
    ghost var seen: seq<Observation>

    constructor ()
      ensures seen == []
    {
      seen := [];
    }

    method SeedDiscovery() returns (found: seq<Discovered>)
      modifies this
      ensures seen == old(seen) + [Sweep(found)]
    {
      found := *;
      seen := seen + [Sweep(found)];
    }

    method Fetch(url: string, etag: Option<string>, lastModified: Option<string>) returns (result: FetchResult)
      modifies this
      ensures seen == old(seen) + [Fetched(url, etag, lastModified, result)]
    {
      result := *;
      seen := seen + [Fetched(url, etag, lastModified, result)];
    }

    method ReadPage(url: string) returns (content: PageContent)
      modifies this
      ensures seen == old(seen) + [Read(url, content)]
    {
      content := *;
      seen := seen + [Read(url, content)];
    }
  }

  /** `part in text` */
  predicate Contains(text: string, part: string) {
    part <= text || (text != "" && Contains(text[1..], part))
  }

  lemma {:induction false} ContainsIff(text: string, part: string)
    ensures Contains(text, part) <==> exists front, back :: text == front + part + back
  {
    assert forall back :: text == [] + part + back ==> part <= text;
    if part <= text {
      assert text == [] + part + text[|part|..];
    } else if text != "" {
      ContainsIff(text[1..], part);
      if Contains(text[1..], part) {
        var front, back :| text[1..] == front + part + back;
        assert text == ([text[0]] + front) + part + back;
      }
      forall front, back | text == front + part + back && front != [] ensures Contains(text, part) {
        assert text[1..] == front[1..] + part + back;
      }
    }
  }
}
