/** What any history of `persist` calls keeps: identity, provenance, useful values. */
module PersistenceHistory {
  import opened Common
  import opened Entities
  import opened Fingerprint
  import opened Deduplication
  import opened Persistence
  import opened UrlNormalization

  /** The tables after a history of calls, oldest first. */
  function After(lib: Library, db: Tables, calls: seq<Call>): Tables {
    if calls == [] then db
    else Persisted(lib, After(lib, db, calls[..|calls| - 1]), calls[|calls| - 1]).0
  }

  lemma AfterNext(lib: Library, db: Tables, calls: seq<Call>, call: Call)
    ensures After(lib, db, calls + [call]) == Persisted(lib, After(lib, db, calls), call).0
  {
  }

  // ---------------------------------------------------------------------
  // Identity
  // ---------------------------------------------------------------------

  /** Within a job, no two entities share a non-empty fingerprint. */
  ghost predicate DistinctFingerprints(entities: seq<Entity>) {
    forall i, j :: 0 <= i < j < |entities| && entities[i].jobId == entities[j].jobId && entities[i].fingerprint != "" ==>
      entities[i].fingerprint != entities[j].fingerprint
  }

  /** Rows are only added, and an old row keeps its job, type and fingerprint, and every
      useful column keeps a useful value; the evidence log only grows. */
  ghost predicate Extends(before: Tables, after: Tables) {
    && |before.entities| <= |after.entities|
    && before.evidence <= after.evidence
    && forall i :: 0 <= i < |before.entities| ==>
         && after.entities[i].jobId == before.entities[i].jobId
         && after.entities[i].entityType == before.entities[i].entityType
         && after.entities[i].fingerprint == before.entities[i].fingerprint
         && before.entities[i].data.Keys <= after.entities[i].data.Keys
         && forall c :: Useful(before.entities[i].columns.Get(c)) ==> Useful(after.entities[i].columns.Get(c))
  }

  lemma RefreshKeepsUseful(old': Columns, incoming: Columns)
    ensures forall c :: Useful(old'.Get(c)) ==> Useful(RefreshedColumns(old', incoming).Get(c))
  {
  }

  lemma PersistExtends(lib: Library, db: Tables, call: Call)
    ensures Extends(db, Persisted(lib, db, call).0)
  {
    if Admitted(lib, call) {
      match Decide(lib, db.entities, call)
      case Merge(id, _, _) => RefreshKeepsUseful(db.entities[id].columns, Incoming(lib, call));
      case _ =>
    }
  }

  lemma PersistKeepsDistinct(lib: Library, db: Tables, call: Call)
    requires DistinctFingerprints(db.entities)
    ensures DistinctFingerprints(Persisted(lib, db, call).0.entities)
  {
  }

  lemma {:induction false} HistoryExtends(lib: Library, db: Tables, calls: seq<Call>)
    ensures Extends(db, After(lib, db, calls))
    ensures DistinctFingerprints(db.entities) ==> DistinctFingerprints(After(lib, db, calls).entities)
  {
    if calls != [] {
      var front := calls[..|calls| - 1];
      HistoryExtends(lib, db, front);
      var mid := After(lib, db, front);
      PersistExtends(lib, mid, calls[|calls| - 1]);
      if DistinctFingerprints(db.entities) { PersistKeepsDistinct(lib, mid, calls[|calls| - 1]); }
    }
  }

  /** Once a fingerprint belongs to an entity, every later record with that fingerprint merges
      into that entity, whatever was persisted in between. */
  lemma StableIdentity(lib: Library, db: Tables, i: nat, between: seq<Call>, call: Call)
    requires DistinctFingerprints(db.entities)
    requires i < |db.entities| && db.entities[i].fingerprint != ""
    requires Admitted(lib, call) && call.jobId == db.entities[i].jobId
    requires FingerprintOf(lib.sha, EntityTypeOf(call), Incoming(lib, call)) == db.entities[i].fingerprint
    ensures Persisted(lib, After(lib, db, between), call).1 == Updated(i)
  {
    HistoryExtends(lib, db, between);
    var now := After(lib, db, between).entities;
    var mine := WithFingerprint(call.jobId, db.entities[i].fingerprint);
    assert mine(now[i]);
    var found := FindFirst(now, mine);
    assert found.Some? && found.value <= i;
  }

  // ---------------------------------------------------------------------
  // Persisting the same record again
  // ---------------------------------------------------------------------

  /** With a fingerprint, an immediate repeat never inserts, lands on the same entity or the
      same refusal, and leaves every entity as the first call did. */
  lemma PersistAgain(lib: Library, db: Tables, call: Call)
    requires FingerprintOf(lib.sha, EntityTypeOf(call), Incoming(lib, call)) != ""
    ensures var (once, first) := Persisted(lib, db, call);
            var (twice, second) := Persisted(lib, once, call);
            && twice.entities == once.entities
            && second == if first.Inserted? then Updated(first.entityId) else first
  {
    if Admitted(lib, call) {
      match Decide(lib, db.entities, call)
      case Review(_, _, _) =>
      case New(_) => NewThenMerge(lib, db, call);
      case Merge(id, _, _) => MergeThenMerge(lib, db, call, id);
    }
  }

  /** After an insert the fingerprint finds the new row. */
  lemma NewThenMerge(lib: Library, db: Tables, call: Call)
    requires Admitted(lib, call) && Decide(lib, db.entities, call).New?
    requires FingerprintOf(lib.sha, EntityTypeOf(call), Incoming(lib, call)) != ""
    ensures var once := Persisted(lib, db, call).0;
            && Persisted(lib, once, call).0.entities == once.entities
            && Persisted(lib, once, call).1 == Updated(|db.entities|)
  {
    var rows, after := db.entities, Persisted(lib, db, call).0.entities;
    var mine := WithFingerprint(call.jobId, FingerprintOf(lib.sha, EntityTypeOf(call), Incoming(lib, call)));
    assert after[|rows|] == Entity(call.jobId, EntityTypeOf(call), Incoming(lib, call), Decide(lib, rows, call).fingerprint,
                                   AsMap(call.record.fields));
    FirstMatchIs(after, mine, |rows|);
    RepeatedMerge(after[|rows|], lib, call);
  }

  /** After a merge the same rule finds the same row: by fingerprint if that found it before,
      otherwise by the URL that the merge has just stored. */
  lemma MergeThenMerge(lib: Library, db: Tables, call: Call, id: nat)
    requires Admitted(lib, call) && Decide(lib, db.entities, call).Merge? && Decide(lib, db.entities, call).entityId == id
    requires FingerprintOf(lib.sha, EntityTypeOf(call), Incoming(lib, call)) != ""
    ensures var once := Persisted(lib, db, call).0;
            && Persisted(lib, once, call).0.entities == once.entities
            && Persisted(lib, once, call).1 == Updated(id)
  {
    var rows, incoming := db.entities, Incoming(lib, call);
    var mine := WithFingerprint(call.jobId, FingerprintOf(lib.sha, EntityTypeOf(call), incoming));
    var after := rows[id := Merged(rows[id], lib, call)];
    RepeatedMerge(rows[id], lib, call);
    if FindFirst(rows, mine).Some? {
      FirstMatchIs(after, mine, id);
    } else {
      forall k | 0 <= k < |after| ensures !mine(after[k]) {
        assert !mine(rows[k]);
      }
      FirstMatchIs(after, WithUrl(call.jobId, incoming.canonicalUrl), id);
    }
  }

  lemma FirstMatchIs<T>(rows: seq<T>, p: T -> bool, i: nat)
    requires i < |rows| && p(rows[i]) && forall k :: 0 <= k < i ==> !p(rows[k])
    ensures FindFirst(rows, p) == Some(i)
  {
  }

  lemma RepeatedMerge(e: Entity, lib: Library, call: Call)
    ensures Merged(Merged(e, lib, call), lib, call) == Merged(e, lib, call)
    ensures e.columns == Incoming(lib, call) && e.data == AsMap(call.record.fields) ==> Merged(e, lib, call) == e
  {
    var fields := AsMap(call.record.fields);
    assert e.data + fields + fields == e.data + fields;
    assert fields + fields == fields;
  }

  /** Exactly the records without any identifying signal are inserted a second time. */
  lemma RepeatInsertsIffUnidentified(lib: Library, db: Tables, call: Call)
    requires IdealHash(lib.sha)
    ensures var once := Persisted(lib, db, call).0;
            Persisted(lib, once, call).1.Inserted?
            <==> Admitted(lib, call) && FingerprintOf(lib.sha, EntityTypeOf(call), Incoming(lib, call)) == ""
  {
    var once := Persisted(lib, db, call).0;
    if FingerprintOf(lib.sha, EntityTypeOf(call), Incoming(lib, call)) != "" {
      PersistAgain(lib, db, call);
    } else {
      NoFingerprintIsNew(once.entities, lib.sha, call.jobId, EntityTypeOf(call), Incoming(lib, call));
    }
  }

  /** The record carries a signal by which it is recognized when it comes again. */
  ghost predicate Identified(lib: Library, call: Call) {
    FingerprintOf(lib.sha, EntityTypeOf(call), Incoming(lib, call)) != ""
  }

  /** A call with a source URL always has a fingerprint, so that only callers without one could
      insert a record twice. */
  lemma SourceUrlIdentifies(lib: Library, call: Call)
    requires call.sourceUrl != "" && NeverEmpties(lib.urls) && IdealHash(lib.sha)
    ensures Identified(lib, call)
  {
    assert Truthy(Incoming(lib, call).canonicalUrl);
  }

  // ---------------------------------------------------------------------
  // Provenance
  // ---------------------------------------------------------------------

  /** Every stored data value is the one its last evidence row encodes. */
  ghost predicate Provenance(db: Tables) {
    forall e: nat, k :: e < |db.entities| && k in db.entities[e].data ==>
      LastEvidence(db.evidence, e, k) == Some(Encode(db.entities[e].data[k]))
  }

  /** The data of the entity the call will merge into, before the call; none if it will insert. */
  function TargetData(lib: Library, db: Tables, call: Call): map<string, Value> {
    match Decide(lib, db.entities, call)
    case Merge(id, _, _) => db.entities[id].data
    case _ => map[]
  }

  /** No supplied common column contradicts the record's own field of that name or, if it has none,
      the stored one. */
  ghost predicate ColumnsAgree(r: Record, stored: map<string, Value>) {
    forall p :: p in CommonFields(r) && p.1.Some? ==>
      if p.0 in AsMap(r.fields) then Encode(AsMap(r.fields)[p.0]) == p.1.value
      else p.0 in stored ==> Encode(stored[p.0]) == p.1.value
  }

  lemma AgreeOnLeftData(r: Record, stored: map<string, Value>)
    ensures ColumnsAgree(r, stored) <==>
      forall p :: p in CommonFields(r) && p.1.Some? && p.0 in stored + AsMap(r.fields) ==>
        Encode((stored + AsMap(r.fields))[p.0]) == p.1.value
  {
  }

  lemma {:induction false} WithCommonMap(fields: seq<(string, Value)>, common: seq<(string, Option<string>)>)
    requires DistinctKeys(fields)
    requires forall i, j :: 0 <= i < j < |common| ==> common[i].0 != common[j].0
    ensures DistinctKeys(WithCommon(fields, common))
    ensures forall p :: p in common && p.1.Some? ==>
      p.0 in AsMap(WithCommon(fields, common)) && AsMap(WithCommon(fields, common))[p.0] == Text(p.1.value)
    ensures forall k :: (forall p :: p in common && p.1.Some? ==> p.0 != k) ==>
      (k in AsMap(WithCommon(fields, common)) <==> k in AsMap(fields)) &&
      (k in AsMap(fields) ==> AsMap(WithCommon(fields, common))[k] == AsMap(fields)[k])
  {
    if common != [] {
      var front, last := common[..|common| - 1], common[|common| - 1];
      WithCommonMap(fields, front);
      assert common == front + [last];
      if last.1.Some? { SetFieldMap(WithCommon(fields, front), last.0, Text(last.1.value)); }
    }
  }

  /** What the log says about any entity's key after the call's evidence is written. */
  lemma LoggedEvidence(evidence: seq<Evidence>, entityId: nat, call: Call, e: nat, k: string)
    ensures forall p :: p in CommonFields(call.record) && p.1.Some? && p.0 == k && e == entityId ==>
      LastEvidence(Logged(evidence, entityId, call), e, k) == Some(p.1.value)
    ensures (forall p :: p in CommonFields(call.record) && p.1.Some? ==> p.0 != k) || e != entityId ==>
      LastEvidence(Logged(evidence, entityId, call), e, k)
      == if e == entityId && k in AsMap(call.record.fields) then Some(Encode(AsMap(call.record.fields)[k]))
         else LastEvidence(evidence, e, k)
  {
    var r := call.record;
    WithCommonMap(r.fields, CommonFields(r));
    LastEvidenceAfter(evidence, entityId, EvidenceFields(r), call.sourceUrl, r.confidence, e, k);
  }

  /** A call keeps provenance exactly when its common columns agree with its own fields and with the
      data of the entity it merges into. */
  lemma ProvenanceIff(lib: Library, db: Tables, call: Call)
    requires Provenance(db) && Admitted(lib, call) && !Decide(lib, db.entities, call).Review?
    ensures Provenance(Persisted(lib, db, call).0) <==> ColumnsAgree(call.record, TargetData(lib, db, call))
  {
    var after := Persisted(lib, db, call).0;
    var decision := Decide(lib, db.entities, call);
    var id := if decision.Merge? then decision.entityId else |db.entities|;
    var data := TargetData(lib, db, call) + AsMap(call.record.fields);
    AgreeOnLeftData(call.record, TargetData(lib, db, call));
    assert after.evidence == Logged(db.evidence, id, call) && after.entities[id].data == data;
    forall e: nat, k | e < |after.entities| && k in after.entities[e].data
      ensures e != id ==> LastEvidence(after.evidence, e, k) == Some(Encode(after.entities[e].data[k]))
      ensures e == id && ColumnsAgree(call.record, TargetData(lib, db, call)) ==>
        LastEvidence(after.evidence, e, k) == Some(Encode(after.entities[e].data[k]))
    {
      LoggedEvidence(db.evidence, id, call, e, k);
    }
    forall p | p in CommonFields(call.record) && p.1.Some? && p.0 in data
      ensures Provenance(after) ==> Encode(data[p.0]) == p.1.value
    {
      LoggedEvidence(db.evidence, id, call, id, p.0);
    }
  }

  /** The sample API adapter makes such a record of the item {"id": "1", "external_id": "Z"}. */
  function SampleItem(name: string, url: string): Record {
    Record(Some(name), Some("product"), Some(url), None, None, None, Some("1"), 0.8, [("external_id", Text("Z"))], false)
  }

  /** Its stored value then contradicts its last evidence. */
  lemma ProvenanceLost(lib: Library, jobId: string, name: string, url: string, domain: string, defaultType: string)
    requires lib.validate(SampleItem(name, url)).Ok?
    ensures var after := Persisted(lib, Tables([], []), Call(jobId, SampleItem(name, url), url, Some(domain), defaultType)).0;
            && |after.entities| == 1 && "external_id" in after.entities[0].data
            && after.entities[0].data["external_id"] == Text("Z")
            && LastEvidence(after.evidence, 0, "external_id") == Some("1")
            && !Provenance(after)
  {
    var call := Call(jobId, SampleItem(name, url), url, Some(domain), defaultType);
    var fields := call.record.fields;
    assert fields[..0] == [] && AsMap(fields) == map["external_id" := Text("Z")];
    assert CommonFields(call.record)[4] == ("external_id", Some("1"));
    LoggedEvidence([], 0, call, 0, "external_id");
  }

  const COMMON_NAMES: set<string> := {"name", "canonical_url", "address", "telephone", "external_id"}

  /** Field keys that no common column uses. */
  ghost predicate FieldsApart(data: map<string, Value>) {
    data.Keys !! COMMON_NAMES
  }

  ghost predicate Traceable(db: Tables) {
    && Provenance(db)
    && (forall e :: 0 <= e < |db.entities| ==> FieldsApart(db.entities[e].data))
  }

  lemma PersistTraceable(lib: Library, db: Tables, call: Call)
    requires Traceable(db) && FieldsApart(AsMap(call.record.fields))
    ensures Traceable(Persisted(lib, db, call).0)
  {
    hide Deduplication.Resolve;
    if Admitted(lib, call) && !Decide(lib, db.entities, call).Review? {
      AgreeOnLeftData(call.record, TargetData(lib, db, call));
      assert forall p :: p in CommonFields(call.record) ==> p.0 in COMMON_NAMES;
      ProvenanceIff(lib, db, call);
    }
  }

  /** Across any mix of inserts, merges and refusals, every data value can be traced to its
      last evidence row, as long as record fields avoid the five common names. */
  lemma {:induction false} HistoryTraceable(lib: Library, db: Tables, calls: seq<Call>)
    requires Traceable(db)
    requires forall i :: 0 <= i < |calls| ==> FieldsApart(AsMap(calls[i].record.fields))
    ensures Traceable(After(lib, db, calls))
  {
    if calls != [] {
      HistoryTraceable(lib, db, calls[..|calls| - 1]);
      PersistTraceable(lib, After(lib, db, calls[..|calls| - 1]), calls[|calls| - 1]);
    }
  }
}
