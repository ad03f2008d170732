/** Decides whether a record is an entity already stored. Exact signals merge;
    a bare name match goes to review; anything else is new. */
module Deduplication {
  import opened Common
  import opened Entities
  import opened Fingerprint

  datatype Decision =
    | New(fingerprint: string)
    | Merge(entityId: nat, reason: string, fingerprint: string)
    | Review(entityId: nat, reason: string, fingerprint: string)

  function WithFingerprint(jobId: string, fingerprint: string): Entity -> bool {
    (e: Entity) => e.jobId == jobId && e.fingerprint == fingerprint
  }

  function WithUrl(jobId: string, url: Option<string>): Entity -> bool {
    (e: Entity) => e.jobId == jobId && e.columns.canonicalUrl == url
  }

  function WithName(jobId: string, name: Option<string>): Entity -> bool {
    (e: Entity) => e.jobId == jobId && e.columns.normalizedName == name
  }

  predicate Differ(a: Option<string>, b: Option<string>) {
    Truthy(a) && Truthy(b) && a != b
  }

  predicate Conflicts(existing: Columns, incoming: Columns) {
    || Differ(incoming.domain, existing.domain)
    || Differ(incoming.address, existing.address)
    || Differ(incoming.telephone, existing.telephone)
  }

  function WithNameConflicting(jobId: string, incoming: Columns): Entity -> bool {
    (e: Entity) => WithName(jobId, incoming.normalizedName)(e) && Conflicts(e.columns, incoming)
  }

  function FingerprintOf(sha: string -> string, entityType: string, c: Columns): string {
    ComputeFingerprint(sha, entityType, c.normalizedName, c.canonicalUrl, c.domain, c.externalId)
  }

  function Resolve(rows: seq<Entity>, sha: string -> string, jobId: string, entityType: string, incoming: Columns): (d: Decision)
    ensures d.fingerprint == FingerprintOf(sha, entityType, incoming)
    ensures d.Merge? || d.Review? ==> d.entityId < |rows| && rows[d.entityId].jobId == jobId
  {
    var fingerprint := FingerprintOf(sha, entityType, incoming);
    var same := if fingerprint != "" then FindFirst(rows, WithFingerprint(jobId, fingerprint)) else None;
    if same.Some? then Merge(same.value, "fingerprint match", fingerprint)
    else
      var sameUrl := if Truthy(incoming.canonicalUrl) then FindFirst(rows, WithUrl(jobId, incoming.canonicalUrl)) else None;
      if sameUrl.Some? then Merge(sameUrl.value, "canonical_url match", fingerprint)
      else if Truthy(incoming.normalizedName) then
        var conflict := FindFirst(rows, WithNameConflicting(jobId, incoming));
        var named := FindFirst(rows, WithName(jobId, incoming.normalizedName));
        if conflict.Some? then Review(conflict.value, "same name but conflicting domain/address/telephone", fingerprint)
        else if named.Some? then Review(named.value, "name matches but no strong corroborating signal", fingerprint)
        else New(fingerprint)
      else New(fingerprint)
  }

  /** A stored entity carrying one of the record's two exact signals. */
  predicate ExactMatch(e: Entity, jobId: string, fingerprint: string, url: Option<string>) {
    e.jobId == jobId && ((fingerprint != "" && e.fingerprint == fingerprint) || (Truthy(url) && e.columns.canonicalUrl == url))
  }

  predicate Namesake(e: Entity, jobId: string, name: Option<string>) {
    e.jobId == jobId && Truthy(name) && e.columns.normalizedName == name
  }

  /** Nothing merges without an exact signal; without one, a shared name is always left to a
      human, a conflicting namesake first; and only a record that matches nothing is new. */
  lemma ResolveCases(rows: seq<Entity>, sha: string -> string, jobId: string, entityType: string, incoming: Columns, d: Decision)
    requires d == Resolve(rows, sha, jobId, entityType, incoming)
    ensures d.Merge? <==> exists i :: 0 <= i < |rows| && ExactMatch(rows[i], jobId, d.fingerprint, incoming.canonicalUrl)
    ensures d.Merge? ==> ExactMatch(rows[d.entityId], jobId, d.fingerprint, incoming.canonicalUrl)
    ensures d.Review? <==> !d.Merge? && exists i :: 0 <= i < |rows| && Namesake(rows[i], jobId, incoming.normalizedName)
    ensures d.Review? ==> Namesake(rows[d.entityId], jobId, incoming.normalizedName)
    ensures d.Review? && (exists i :: 0 <= i < |rows| && Namesake(rows[i], jobId, incoming.normalizedName)
                                      && Conflicts(rows[i].columns, incoming)) ==>
      Conflicts(rows[d.entityId].columns, incoming)
  {
    var byFingerprint := WithFingerprint(jobId, d.fingerprint);
    var byUrl := WithUrl(jobId, incoming.canonicalUrl);
    var byName := WithName(jobId, incoming.normalizedName);
    var byConflict := WithNameConflicting(jobId, incoming);
    forall i | 0 <= i < |rows|
      ensures ExactMatch(rows[i], jobId, d.fingerprint, incoming.canonicalUrl)
              <==> (d.fingerprint != "" && byFingerprint(rows[i])) || (Truthy(incoming.canonicalUrl) && byUrl(rows[i]))
      ensures Namesake(rows[i], jobId, incoming.normalizedName) <==> Truthy(incoming.normalizedName) && byName(rows[i])
      ensures byConflict(rows[i]) <==> byName(rows[i]) && Conflicts(rows[i].columns, incoming)
    {
    }
  }

  /** No fingerprint means no signal at all, so such a record always counts as new. */
  lemma NoFingerprintIsNew(rows: seq<Entity>, sha: string -> string, jobId: string, entityType: string, incoming: Columns)
    requires IdealHash(sha)
    requires FingerprintOf(sha, entityType, incoming) == ""
    ensures Resolve(rows, sha, jobId, entityType, incoming) == New("")
  {
    assert IdentityOf(entityType, incoming.normalizedName, incoming.canonicalUrl, incoming.domain, incoming.externalId).None?;
  }
}
