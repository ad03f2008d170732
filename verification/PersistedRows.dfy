/** What one `persist` call writes, column by column, in terms of the record and its page alone. */
module PersistedRows {
  import opened Common
  import opened Entities
  import opened Fingerprint
  import opened Deduplication
  import opened Persistence
  import PersistenceHistory

  /** The columns that a record and its page supply: name and id as they are; name, address and telephone
      each by its own normalizer; the record's URL or the page's, normalized; and the first domain known. */
  ghost predicate Supplied(lib: Library, call: Call, c: Columns) {
    var r := call.record;
    && c.name == r.name && c.externalId == r.externalId
    && NormalizedBy(lib.normalizeName, r.name, c.normalizedName)
    && NormalizedBy(lib.normalizeAddress, r.address, c.address)
    && NormalizedBy(lib.normalizeTelephone, r.telephone, c.telephone)
    && (Truthy(r.canonicalUrl) ==> c.canonicalUrl == Some(lib.urls.normalize(r.canonicalUrl.value)))
    && (!Truthy(r.canonicalUrl) && call.sourceUrl != "" ==> c.canonicalUrl == Some(lib.urls.normalize(call.sourceUrl)))
    && (!Truthy(r.canonicalUrl) && call.sourceUrl == "" ==> c.canonicalUrl == None)
    && FirstTruthy([call.domain, r.domain, DomainOf(lib, c.canonicalUrl), DomainOf(lib, Some(call.sourceUrl))], c.domain)
  }

  ghost predicate NormalizedBy(normalize: string -> string, text: Option<string>, stored: Option<string>) {
    (Truthy(text) ==> stored == Some(normalize(text.value))) && (!Truthy(text) ==> stored == None)
  }

  ghost function DomainOf(lib: Library, url: Option<string>): Option<string> {
    if url == None || url == Some("") then None else lib.domainFromUrl(url.value)
  }

  /** Python's `a or b or ...`: the first that is neither missing nor empty, else the last. */
  ghost predicate FirstTruthy(options: seq<Option<string>>, chosen: Option<string>) {
    exists k :: 0 <= k < |options| && chosen == options[k]
      && (forall j :: 0 <= j < k ==> !Truthy(options[j])) && (Truthy(options[k]) || k == |options| - 1)
  }

  /** Exactly one set of columns is supplied. */
  lemma SuppliedIff(lib: Library, call: Call, c: Columns)
    ensures Supplied(lib, call, c) <==> c == Incoming(lib, call)
  {
    var incoming := Incoming(lib, call);
    FirstTruthyOf(call.domain, call.record.domain, DomainOf(lib, incoming.canonicalUrl), DomainOf(lib, Some(call.sourceUrl)));
    if Supplied(lib, call, c) {
      assert c.canonicalUrl == incoming.canonicalUrl;
      FirstTruthyOf(call.domain, call.record.domain, DomainOf(lib, c.canonicalUrl), DomainOf(lib, Some(call.sourceUrl)));
    }
  }

  lemma FirstTruthyOf(a: Option<string>, b: Option<string>, c: Option<string>, d: Option<string>)
    ensures forall x ::
      FirstTruthy([a, b, c, d], x) <==> x == if Truthy(a) then a else if Truthy(b) then b else if Truthy(c) then c else d
  {
    var options, k := [a, b, c, d], if Truthy(a) then 0 else if Truthy(b) then 1 else if Truthy(c) then 2 else 3;
    assert options[0] == a && options[1] == b && options[2] == c && options[3] == d;
    assert FirstTruthy(options, options[k]);
    forall x | FirstTruthy(options, x) ensures x == options[k] {
      var i :| 0 <= i < |options| && x == options[i] && (forall j :: 0 <= j < i ==> !Truthy(options[j]))
               && (Truthy(options[i]) || i == |options| - 1);
      assert i == k;
    }
  }

  // ---------------------------------------------------------------------
  // Entities
  // ---------------------------------------------------------------------

  /** The record's type, or else the one the job collects. */
  ghost predicate TypeOf(call: Call, entityType: string) {
    if call.record.entityType == None || call.record.entityType == Some("") then entityType == call.defaultType
    else entityType == call.record.entityType.value
  }

  /** A new entity has the supplied columns, the record's type and fields, and the fingerprint of its own
      columns. */
  lemma InsertedEntity(lib: Library, db: Tables, call: Call, given: Columns)
    requires Persisted(lib, db, call).1.Inserted? && Supplied(lib, call, given)
    ensures var after := Persisted(lib, db, call).0.entities;
            && |after| == |db.entities| + 1 && after[..|db.entities|] == db.entities
            && var e := after[|db.entities|];
               && e.jobId == call.jobId && TypeOf(call, e.entityType) && e.columns == given
               && e.fingerprint == ComputeFingerprint(lib.sha, e.entityType, given.normalizedName, given.canonicalUrl,
                                                      given.domain, given.externalId)
               && FieldsHeld(call.record.fields, e.data) && e.data.Keys == (set p | p in call.record.fields :: p.0)
  {
    SuppliedIff(lib, call, given);
    FieldsAreHeld(call.record.fields);
  }

  ghost predicate FieldsHeld(fields: seq<(string, Value)>, data: map<string, Value>) {
    forall p :: p in fields ==> p.0 in data && data[p.0] == p.1
  }

  lemma FieldsAreHeld(fields: Fields)
    ensures FieldsHeld(fields, AsMap(fields)) && AsMap(fields).Keys == set p | p in fields :: p.0
  {
    AsMapEntries(fields);
  }

  /** After a merge each column is the supplied one if that is worth keeping, otherwise what it was; the
      record's fields are laid over the data; and nothing else has changed. */
  lemma MergedEntity(lib: Library, db: Tables, call: Call, given: Columns, id: nat)
    requires Persisted(lib, db, call).1 == Updated(id) && Supplied(lib, call, given)
    ensures var after := Persisted(lib, db, call).0.entities;
            && id < |after| == |db.entities| && (forall i :: 0 <= i < |after| && i != id ==> after[i] == db.entities[i])
            && var old', e := db.entities[id], after[id];
               && e.jobId == old'.jobId == call.jobId && e.entityType == old'.entityType && e.fingerprint == old'.fingerprint
               && Refreshes(old'.columns.name, given.name, e.columns.name)
               && Refreshes(old'.columns.normalizedName, given.normalizedName, e.columns.normalizedName)
               && Refreshes(old'.columns.canonicalUrl, given.canonicalUrl, e.columns.canonicalUrl)
               && Refreshes(old'.columns.domain, given.domain, e.columns.domain)
               && Refreshes(old'.columns.address, given.address, e.columns.address)
               && Refreshes(old'.columns.telephone, given.telephone, e.columns.telephone)
               && Refreshes(old'.columns.externalId, given.externalId, e.columns.externalId)
               && FieldsHeld(call.record.fields, e.data)
               && (forall k :: k in old'.data && (forall p :: p in call.record.fields ==> p.0 != k) ==>
                     k in e.data && e.data[k] == old'.data[k])
               && e.data.Keys == old'.data.Keys + set p | p in call.record.fields :: p.0
  {
    SuppliedIff(lib, call, given);
    FieldsAreHeld(call.record.fields);
  }

  /** Some character that is not whitespace makes a value worth keeping. */
  ghost predicate Refreshes(before: Option<string>, given: Option<string>, after: Option<string>) {
    if given.Some? && exists i :: 0 <= i < |given.value| && !IsSpace(given.value[i]) then after == given else after == before
  }

  /** Two sets of columns that cannot be of one entity: both know a domain, an address or a telephone,
      and not the same. */
  ghost predicate Disagree(a: Columns, b: Columns) {
    exists c: Column :: (c == Domain || c == Address || c == Telephone)
      && Truthy(a.Get(c)) && Truthy(b.Get(c)) && a.Get(c) != b.Get(c)
  }

  lemma ConflictsIff(existing: Columns, incoming: Columns)
    ensures Conflicts(existing, incoming) <==> Disagree(existing, incoming)
  {
    assert existing.Get(Domain) == existing.domain && incoming.Get(Domain) == incoming.domain;
    assert existing.Get(Address) == existing.address && incoming.Get(Address) == incoming.address;
    assert existing.Get(Telephone) == existing.telephone && incoming.Get(Telephone) == incoming.telephone;
  }

  /** What deduplication makes of an admitted record: merged if some entity of the job has its fingerprint
      or its URL; otherwise left to review if one has its name, a disagreeing one first; otherwise new. */
  ghost predicate Matched(rows: seq<Entity>, jobId: string, fingerprint: string, given: Columns, outcome: Outcome) {
    var exact := exists i :: 0 <= i < |rows| && ExactMatch(rows[i], jobId, fingerprint, given.canonicalUrl);
    var named := exists i :: 0 <= i < |rows| && Namesake(rows[i], jobId, given.normalizedName);
    match outcome
    case Updated(id) => id < |rows| && ExactMatch(rows[id], jobId, fingerprint, given.canonicalUrl)
    case Ambiguous(id, _) =>
      && !exact && id < |rows| && Namesake(rows[id], jobId, given.normalizedName)
      && forall i :: 0 <= i < |rows| && Namesake(rows[i], jobId, given.normalizedName) && Disagree(rows[i].columns, given) ==>
           Disagree(rows[id].columns, given)
    case Inserted(id) => !exact && !named && id == |rows|
    case _ => false
  }

  /** Which of the outcomes it is; only an insert or a merge touches the tables. */
  lemma OutcomeCases(lib: Library, db: Tables, call: Call, given: Columns, entityType: string)
    requires Supplied(lib, call, given) && TypeOf(call, entityType)
    ensures var (after, outcome) := Persisted(lib, db, call);
            var fingerprint := ComputeFingerprint(lib.sha, entityType, given.normalizedName, given.canonicalUrl, given.domain,
                                                  given.externalId);
            && (outcome.Skipped? <==> call.record.skip)
            && (outcome.Invalid? <==> !call.record.skip && lib.validate(call.record).Bad?)
            && (outcome.Invalid? ==> lib.validate(call.record).missing == outcome.missing)
            && (!outcome.Skipped? && !outcome.Invalid? ==> Matched(db.entities, call.jobId, fingerprint, given, outcome))
            && (!outcome.Inserted? && !outcome.Updated? ==> after == db)
  {
    hide Supplied, Incoming, Resolve, ComputeFingerprint, Conflicts, Disagree;
    SuppliedIff(lib, call, given);
    ResolveCases(db.entities, lib.sha, call.jobId, entityType, given, Decide(lib, db.entities, call));
    forall i | 0 <= i < |db.entities|
      ensures Conflicts(db.entities[i].columns, given) <==> Disagree(db.entities[i].columns, given)
    {
      ConflictsIff(db.entities[i].columns, given);
    }
  }

  // ---------------------------------------------------------------------
  // Evidence
  // ---------------------------------------------------------------------

  /** The columns that are logged under their own names when the record has them. */
  ghost predicate LoggedColumn(r: Record, key: string, value: string) {
    || (key == "name" && r.name == Some(value))
    || (key == "canonical_url" && r.canonicalUrl == Some(value))
    || (key == "address" && r.address == Some(value))
    || (key == "telephone" && r.telephone == Some(value))
    || (key == "external_id" && r.externalId == Some(value))
  }

  /** An insert or merge logs, for its entity alone, each column the record has under the column's name
      and every other field under its own; the rows carry the page's URL and the record's confidence. */
  lemma EvidenceWritten(lib: Library, db: Tables, call: Call, id: nat)
    requires Persisted(lib, db, call).1 == Inserted(id) || Persisted(lib, db, call).1 == Updated(id)
    ensures var after := Persisted(lib, db, call).0.evidence;
            && db.evidence <= after
            && (forall i :: |db.evidence| <= i < |after| ==>
                  && after[i].entityId == id && after[i].sourceUrl == call.sourceUrl
                  && after[i].confidence == call.record.confidence)
            && (forall key, value :: LoggedColumn(call.record, key, value) ==> LastEvidence(after, id, key) == Some(value))
            && (forall p :: p in call.record.fields && (forall v :: !LoggedColumn(call.record, p.0, v)) ==>
                  LastEvidence(after, id, p.0) == Some(if p.1.Text? then p.1.text else p.1.json))
            && (forall e, key :: e != id ==> LastEvidence(after, e, key) == LastEvidence(db.evidence, e, key))
  {
    hide PersistenceHistory.After;
    var r, after := call.record, Persisted(lib, db, call).0.evidence;
    assert after == Logged(db.evidence, id, call);
    forall key, value | LoggedColumn(r, key, value) ensures LastEvidence(after, id, key) == Some(value) {
      assert (key, Some(value)) in CommonFields(r);
      PersistenceHistory.LoggedEvidence(db.evidence, id, call, id, key);
    }
    forall p | p in r.fields && (forall v :: !LoggedColumn(r, p.0, v)) ensures LastEvidence(after, id, p.0) == Some(Encode(p.1)) {
      forall q | q in CommonFields(r) && q.1.Some? ensures q.0 != p.0 {
        assert LoggedColumn(r, q.0, q.1.value);
      }
      FieldsAreHeld(r.fields);
      PersistenceHistory.LoggedEvidence(db.evidence, id, call, id, p.0);
    }
    forall e, key | e != id ensures LastEvidence(after, e, key) == LastEvidence(db.evidence, e, key) {
      PersistenceHistory.LoggedEvidence(db.evidence, id, call, e, key);
    }
  }
}
