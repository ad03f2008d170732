/** The one writer of entities and their evidence. */
module Persistence {
  import opened Common
  import opened Entities
  import opened Deduplication

  datatype Outcome =
    | Skipped
    | Invalid(missing: bool)
    | Inserted(entityId: nat)
    | Updated(entityId: nat)
    | Ambiguous(entityId: nat, reason: string)

  datatype Tables = Tables(entities: seq<Entity>, evidence: seq<Evidence>)

  /** One call of `persist`, everything but the tables. */
  datatype Call = Call(jobId: string, record: Record, sourceUrl: string, domain: Option<string>, defaultType: string)

  // ---------------------------------------------------------------------
  // What a call writes, as values
  // ---------------------------------------------------------------------

  function Mapped(f: string -> string, text: Option<string>): Option<string> {
    if Truthy(text) then Some(f(text.value)) else None
  }

  function DomainFrom(lib: Library, url: Option<string>): Option<string> {
    if Truthy(url) then lib.domainFromUrl(url.value) else None
  }

  function EntityTypeOf(call: Call): string {
    if Truthy(call.record.entityType) then call.record.entityType.value else call.defaultType
  }

  function Incoming(lib: Library, call: Call): Columns {
    var r := call.record;
    var rawUrl := if Truthy(r.canonicalUrl) then r.canonicalUrl.value else call.sourceUrl;
    var canonicalUrl := if rawUrl != "" then Some(lib.urls.normalize(rawUrl)) else None;
    var domain :=
      if Truthy(call.domain) then call.domain
      else if Truthy(r.domain) then r.domain
      else if Truthy(DomainFrom(lib, canonicalUrl)) then DomainFrom(lib, canonicalUrl)
      else DomainFrom(lib, Some(call.sourceUrl));
    Columns(r.name, Mapped(lib.normalizeName, r.name), canonicalUrl, domain,
            Mapped(lib.normalizeAddress, r.address), Mapped(lib.normalizeTelephone, r.telephone), r.externalId)
  }

  /** A stored column survives unless something worth keeping replaces it. */
  function Refreshed(old': Option<string>, incoming: Option<string>): Option<string> {
    if Useful(incoming) then incoming else old'
  }

  function RefreshedColumns(old': Columns, incoming: Columns): Columns {
    Columns(Refreshed(old'.name, incoming.name),
            Refreshed(old'.normalizedName, incoming.normalizedName),
            Refreshed(old'.canonicalUrl, incoming.canonicalUrl),
            Refreshed(old'.domain, incoming.domain),
            Refreshed(old'.address, incoming.address),
            Refreshed(old'.telephone, incoming.telephone),
            Refreshed(old'.externalId, incoming.externalId))
  }

  /** The record's own columns that are logged as evidence beside its fields. */
  function CommonFields(r: Record): seq<(string, Option<string>)> {
    [("name", r.name), ("canonical_url", r.canonicalUrl), ("address", r.address),
     ("telephone", r.telephone), ("external_id", r.externalId)]
  }

  function WithCommon(fields: seq<(string, Value)>, common: seq<(string, Option<string>)>): seq<(string, Value)> {
    if common == [] then fields
    else
      var before := WithCommon(fields, common[..|common| - 1]);
      var last := common[|common| - 1];
      if last.1.Some? then SetField(before, last.0, Text(last.1.value)) else before
  }

  function EvidenceFields(r: Record): seq<(string, Value)> {
    WithCommon(r.fields, CommonFields(r))
  }

  function Logged(evidence: seq<Evidence>, entityId: nat, call: Call): seq<Evidence> {
    evidence + EvidenceRows(entityId, EvidenceFields(call.record), call.sourceUrl, call.record.confidence)
  }

  function Merged(e: Entity, lib: Library, call: Call): Entity {
    e.(data := e.data + AsMap(call.record.fields),
       columns := RefreshedColumns(e.columns, Incoming(lib, call)))
  }

  function Decide(lib: Library, entities: seq<Entity>, call: Call): Decision {
    Resolve(entities, lib.sha, call.jobId, EntityTypeOf(call), Incoming(lib, call))
  }

  /** Whether the record gets as far as deduplication. */
  predicate Admitted(lib: Library, call: Call) {
    !call.record.skip && lib.validate(call.record).Ok?
  }

  /** The tables and the outcome after one call. */
  function Persisted(lib: Library, db: Tables, call: Call): (Tables, Outcome) {
    if call.record.skip then (db, Skipped)
    else match lib.validate(call.record)
      case Bad(missing) => (db, Invalid(missing))
      case Ok =>
        match Decide(lib, db.entities, call)
        case Review(id, reason, _) => (db, Ambiguous(id, reason))
        case New(fingerprint) =>
          var id := |db.entities|;
          var e := Entity(call.jobId, EntityTypeOf(call), Incoming(lib, call), fingerprint, AsMap(call.record.fields));
          (Tables(db.entities + [e], Logged(db.evidence, id, call)), Inserted(id))
        case Merge(id, _, _) =>
          (Tables(db.entities[id := Merged(db.entities[id], lib, call)], Logged(db.evidence, id, call)), Updated(id))
  }

  // ---------------------------------------------------------------------
  // The service
  // ---------------------------------------------------------------------

  class PersistenceService {
    const lib: Library
    const entities: EntityStore
    const evidence: EvidenceStore

    constructor (lib: Library, entities: EntityStore, evidence: EvidenceStore)
      ensures this.lib == lib && this.entities == entities && this.evidence == evidence
    {
      this.lib, this.entities, this.evidence := lib, entities, evidence;
    }

    method Persist(call: Call) returns (outcome: Outcome)
      modifies entities, evidence
      ensures (Tables(entities.rows, evidence.rows), outcome)
           == Persisted(lib, Tables(old(entities.rows), old(evidence.rows)), call)
    {
      if call.record.skip {
        return Skipped;
      }
      var validation := lib.validate(call.record);
      if validation.Bad? {
        return Invalid(validation.missing);
      }
      var decision := Decide(lib, entities.rows, call);
      match decision {
        case Review(id, reason, _) =>
          return Ambiguous(id, reason);
        case New(fingerprint) =>
          var id := entities.Create(call.jobId, EntityTypeOf(call), Incoming(lib, call), fingerprint, AsMap(call.record.fields));
          RecordEvidence(id, call);
          return Inserted(id);
        case Merge(id, _, _) =>
          entities.MergeData(id, AsMap(call.record.fields));
          UpdateCommonFields(id, Incoming(lib, call));
          RecordEvidence(id, call);
          assert entities.rows == old(entities.rows)[id := Merged(old(entities.rows)[id], lib, call)];
          return Updated(id);
      }
    }

    /** Never erases a useful value with a missing or blank one. */
    method UpdateCommonFields(entityId: nat, values: Columns)
      modifies entities
      ensures entityId >= |old(entities.rows)| ==> entities.rows == old(entities.rows)
      ensures entityId < |old(entities.rows)| ==>
        entities.rows == old(entities.rows)[entityId := old(entities.rows)[entityId].(
          columns := RefreshedColumns(old(entities.rows)[entityId].columns, values))]
    {
      if entityId >= |entities.rows| {
        return;
      }
      var current := entities.rows[entityId];
      var updates: map<Column, string> := map[];
      for i := 0 to |COLUMNS|
        invariant forall j :: 0 <= j < i ==> (COLUMNS[j] in updates <==>
          Useful(values.Get(COLUMNS[j])) && current.columns.Get(COLUMNS[j]) != values.Get(COLUMNS[j]))
        invariant forall j :: 0 <= j < i && COLUMNS[j] in updates ==>
          Some(updates[COLUMNS[j]]) == values.Get(COLUMNS[j])
        invariant forall j :: i <= j < |COLUMNS| ==> COLUMNS[j] !in updates
      {
        var value := values.Get(COLUMNS[i]);
        if value.None? {
          continue;
        }
        if Blank(value.value) {
          continue;
        }
        if current.columns.Get(COLUMNS[i]) != value {
          updates := updates[COLUMNS[i] := value.value];
        }
      }

      ghost var refreshed := RefreshedColumns(current.columns, values);
      forall c
        ensures refreshed.Get(c) == if c in updates then Some(updates[c]) else current.columns.Get(c)
      {
        assert COLUMNS[ColumnIndex(c)] == c;
      }
      if updates != map[] {
        entities.Update(entityId, updates);
      }
      ColumnsEqual(entities.rows[entityId].columns, refreshed);
    }

    method RecordEvidence(entityId: nat, call: Call)
      modifies evidence
      ensures evidence.rows == Logged(old(evidence.rows), entityId, call)
    {
      var fields: seq<(string, Value)> := call.record.fields;
      var common := CommonFields(call.record);
      for i := 0 to |common|
        invariant fields == WithCommon(call.record.fields, common[..i])
      {
        assert common[..i + 1][..i] == common[..i];
        if common[i].1.Some? {
          fields := SetField(fields, common[i].0, Text(common[i].1.value));
        }
      }
      assert common[..|common|] == common;
      evidence.RecordMany(entityId, fields, call.sourceUrl, call.record.confidence);
    }
  }
}
