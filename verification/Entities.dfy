/** The entity table, its evidence log, and the records that adapters hand over. */
module Entities {
  import opened Common
  import opened UrlNormalization

  // ---------------------------------------------------------------------
  // Values
  // ---------------------------------------------------------------------

  /** A field value: a text, or any other JSON value, represented by its dump. */
  datatype Value = Text(text: string) | Other(json: string)

  /** `json.dumps(value) if not isinstance(value, str) else value` */
  function Encode(v: Value): string {
    match v
    case Text(text) => text
    case Other(json) => json
  }

  datatype Column = Name | NormalizedName | CanonicalUrl | Domain | Address | Telephone | ExternalId

  const COLUMNS: seq<Column> := [Name, NormalizedName, CanonicalUrl, Domain, Address, Telephone, ExternalId]

  datatype Columns = Columns(
    name: Option<string>, normalizedName: Option<string>, canonicalUrl: Option<string>,
    domain: Option<string>, address: Option<string>, telephone: Option<string>, externalId: Option<string>)
  {
    function Get(c: Column): Option<string> {
      match c
      case Name => name
      case NormalizedName => normalizedName
      case CanonicalUrl => canonicalUrl
      case Domain => domain
      case Address => address
      case Telephone => telephone
      case ExternalId => externalId
    }

    function Put(c: Column, v: Option<string>): (r: Columns)
      ensures r.Get(c) == v && forall d :: d != c ==> r.Get(d) == Get(d)
    {
      match c
      case Name => this.(name := v)
      case NormalizedName => this.(normalizedName := v)
      case CanonicalUrl => this.(canonicalUrl := v)
      case Domain => this.(domain := v)
      case Address => this.(address := v)
      case Telephone => this.(telephone := v)
      case ExternalId => this.(externalId := v)
    }
  }

  /** Field dictionaries in insertion order. */
  ghost predicate DistinctKeys(fields: seq<(string, Value)>) {
    forall i, j :: 0 <= i < j < |fields| ==> fields[i].0 != fields[j].0
  }

  type Fields = fields: seq<(string, Value)> | DistinctKeys(fields) witness []

  function AsMap(fields: seq<(string, Value)>): map<string, Value> {
    if fields == [] then map[]
    else AsMap(fields[..|fields| - 1])[fields[|fields| - 1].0 := fields[|fields| - 1].1]
  }

  /** `fields[key] = value` on a dictionary. */
  function SetField(fields: seq<(string, Value)>, key: string, value: Value): seq<(string, Value)> {
    if fields == [] then [(key, value)]
    else if fields[0].0 == key then [(key, value)] + fields[1..]
    else [fields[0]] + SetField(fields[1..], key, value)
  }

  datatype Record = Record(
    name: Option<string>, entityType: Option<string>, canonicalUrl: Option<string>, domain: Option<string>,
    address: Option<string>, telephone: Option<string>, externalId: Option<string>,
    confidence: real, fields: Fields, skip: bool)

  datatype Entity = Entity(jobId: string, entityType: string, columns: Columns, fingerprint: string,
                           data: map<string, Value>)

  datatype Evidence = Evidence(entityId: nat, field: string, value: string, sourceUrl: string, confidence: real)

  /** The library code that persistence calls: opaque to the model. `missing` says whether
      an invalid record lacks a required field. */
  datatype Validation = Ok | Bad(missing: bool)

  datatype Library = Library(
    urls: UrlRules,
    sha: string -> string,
    normalizeName: string -> string,
    normalizeAddress: string -> string,
    normalizeTelephone: string -> string,
    domainFromUrl: string -> Option<string>,
    validate: Record -> Validation)

  // ---------------------------------------------------------------------
  // Entity store
  // ---------------------------------------------------------------------

  function CountFor(rows: seq<Entity>, jobId: string): nat {
    if rows == [] then 0
    else CountFor(rows[..|rows| - 1], jobId) + if rows[|rows| - 1].jobId == jobId then 1 else 0
  }

  lemma {:induction false} CountForIs(rows: seq<Entity>, jobId: string)
    ensures CountFor(rows, jobId) == |Where(rows, (e: Entity) => e.jobId == jobId)|
  {
    if rows != [] {
      CountForIs(rows[..|rows| - 1], jobId);
      WhereNext(rows, (e: Entity) => e.jobId == jobId);
    }
  }

  /** An entity's id is its position: rows are only ever appended. */
  class EntityStore {
    var rows: seq<Entity>

    constructor ()
      ensures rows == []
    {
      rows := [];
    }

    method Create(jobId: string, entityType: string, columns: Columns, fingerprint: string, data: map<string, Value>)
      returns (entityId: nat)
      modifies this
      ensures entityId == |old(rows)|
      ensures rows == old(rows) + [Entity(jobId, entityType, columns, fingerprint, data)]
    {
      entityId := |rows|;
      rows := rows + [Entity(jobId, entityType, columns, fingerprint, data)];
    }

    /** Writes the named columns of one row. */
    method Update(entityId: nat, updates: map<Column, string>)
      modifies this
      ensures |rows| == |old(rows)|
      ensures forall i :: 0 <= i < |rows| && i != entityId ==> rows[i] == old(rows[i])
      ensures entityId < |rows| ==>
        && rows[entityId] == old(rows[entityId]).(columns := rows[entityId].columns)
        && forall c :: rows[entityId].columns.Get(c) ==
             if c in updates then Some(updates[c]) else old(rows[entityId]).columns.Get(c)
    {
      if entityId < |rows| {
        var columns := rows[entityId].columns;
        for i := 0 to |COLUMNS|
          invariant forall j :: i <= j < |COLUMNS| ==> columns.Get(COLUMNS[j]) == rows[entityId].columns.Get(COLUMNS[j])
          invariant forall j :: 0 <= j < i ==>
            columns.Get(COLUMNS[j])
            == if COLUMNS[j] in updates then Some(updates[COLUMNS[j]]) else rows[entityId].columns.Get(COLUMNS[j])
        {
          if COLUMNS[i] in updates {
            columns := columns.Put(COLUMNS[i], Some(updates[COLUMNS[i]]));
          }
        }
        forall c ensures columns.Get(c) == if c in updates then Some(updates[c]) else rows[entityId].columns.Get(c) {
          var j := ColumnIndex(c);
          assert COLUMNS[j] == c;
        }
        rows := rows[entityId := rows[entityId].(columns := columns)];
      }
    }

    method MergeData(entityId: nat, newData: map<string, Value>)
      modifies this
      ensures entityId >= |old(rows)| ==> rows == old(rows)
      ensures entityId < |old(rows)| ==>
        rows == old(rows)[entityId := old(rows)[entityId].(data := old(rows)[entityId].data + newData)]
    {
      if entityId < |rows| {
        rows := rows[entityId := rows[entityId].(data := rows[entityId].data + newData)];
      }
    }
  }

  function ColumnIndex(c: Column): (i: nat)
    ensures i < |COLUMNS| && COLUMNS[i] == c
  {
    match c
    case Name => 0
    case NormalizedName => 1
    case CanonicalUrl => 2
    case Domain => 3
    case Address => 4
    case Telephone => 5
    case ExternalId => 6
  }

  lemma ColumnsEqual(a: Columns, b: Columns)
    requires forall c :: a.Get(c) == b.Get(c)
    ensures a == b
  {
    assert a.Get(Name) == b.Get(Name) && a.Get(NormalizedName) == b.Get(NormalizedName);
    assert a.Get(CanonicalUrl) == b.Get(CanonicalUrl) && a.Get(Domain) == b.Get(Domain);
    assert a.Get(Address) == b.Get(Address) && a.Get(Telephone) == b.Get(Telephone);
    assert a.Get(ExternalId) == b.Get(ExternalId);
  }

  // ---------------------------------------------------------------------
  // Evidence store
  // ---------------------------------------------------------------------

  function EvidenceRows(entityId: nat, fields: seq<(string, Value)>, sourceUrl: string, confidence: real): (rows: seq<Evidence>)
    ensures |rows| == |fields|
    ensures forall i :: 0 <= i < |rows| ==>
      rows[i] == Evidence(entityId, fields[i].0, Encode(fields[i].1), sourceUrl, confidence)
  {
    seq(|fields|, i requires 0 <= i < |fields| =>
      Evidence(entityId, fields[i].0, Encode(fields[i].1), sourceUrl, confidence))
  }

  class EvidenceStore {
    var rows: seq<Evidence>

    constructor ()
      ensures rows == []
    {
      rows := [];
    }

    method Record(entityId: nat, field: string, value: Value, sourceUrl: string, confidence: real)
      modifies this
      ensures rows == old(rows) + [Evidence(entityId, field, Encode(value), sourceUrl, confidence)]
    {
      rows := rows + [Evidence(entityId, field, Encode(value), sourceUrl, confidence)];
    }

    /** One row per field, in dictionary order. */
    method RecordMany(entityId: nat, fields: seq<(string, Value)>, sourceUrl: string, confidence: real)
      modifies this
      ensures rows == old(rows) + EvidenceRows(entityId, fields, sourceUrl, confidence)
    {
      for i := 0 to |fields|
        invariant rows == old(rows) + EvidenceRows(entityId, fields[..i], sourceUrl, confidence)
      {
        Record(entityId, fields[i].0, fields[i].1, sourceUrl, confidence);
        assert EvidenceRows(entityId, fields[..i + 1], sourceUrl, confidence)
            == EvidenceRows(entityId, fields[..i], sourceUrl, confidence)
               + [Evidence(entityId, fields[i].0, Encode(fields[i].1), sourceUrl, confidence)];
      }
      assert fields[..|fields|] == fields;
    }
  }

  /** The value of the last evidence row inserted for an entity's field. */
  function LastEvidence(rows: seq<Evidence>, entityId: nat, field: string): Option<string> {
    if rows == [] then None
    else
      var last := rows[|rows| - 1];
      if last.entityId == entityId && last.field == field then Some(last.value)
      else LastEvidence(rows[..|rows| - 1], entityId, field)
  }

  /** Recording a dictionary makes its entries the last evidence of that entity, and nothing else. */
  lemma {:induction false} LastEvidenceAfter(rows: seq<Evidence>, entityId: nat, fields: seq<(string, Value)>,
                                             sourceUrl: string, confidence: real, e: nat, key: string)
    ensures LastEvidence(rows + EvidenceRows(entityId, fields, sourceUrl, confidence), e, key) ==
            if e == entityId && key in AsMap(fields) then Some(Encode(AsMap(fields)[key]))
            else LastEvidence(rows, e, key)
  {
    var added := EvidenceRows(entityId, fields, sourceUrl, confidence);
    if fields == [] {
      assert rows + added == rows;
    } else {
      var front := fields[..|fields| - 1];
      assert (rows + added)[..|rows + added| - 1] == rows + EvidenceRows(entityId, front, sourceUrl, confidence);
      LastEvidenceAfter(rows, entityId, front, sourceUrl, confidence, e, key);
    }
  }

  lemma {:induction false} SetFieldMembers(fields: seq<(string, Value)>, key: string, value: Value)
    requires DistinctKeys(fields)
    ensures DistinctKeys(SetField(fields, key, value))
    ensures (key, value) in SetField(fields, key, value)
    ensures forall p :: p in SetField(fields, key, value) <==> p == (key, value) || (p in fields && p.0 != key)
  {
    var after := SetField(fields, key, value);
    if fields != [] {
      var rest := fields[1..];
      assert forall p :: p in fields <==> p == fields[0] || p in rest;
      if fields[0].0 == key {
        assert after == [(key, value)] + rest;
      } else {
        SetFieldMembers(rest, key, value);
        assert after == [fields[0]] + SetField(rest, key, value);
        forall j | 0 < j < |after| ensures after[j].0 != fields[0].0 {
          assert after[j] in SetField(rest, key, value);
        }
      }
    }
  }

  lemma {:induction false} AsMapEntries(fields: seq<(string, Value)>)
    requires DistinctKeys(fields)
    ensures forall p :: p in fields ==> p.0 in AsMap(fields) && AsMap(fields)[p.0] == p.1
    ensures forall k :: k in AsMap(fields) ==> (k, AsMap(fields)[k]) in fields
  {
    if fields != [] {
      var front := fields[..|fields| - 1];
      AsMapEntries(front);
      assert fields == front + [fields[|fields| - 1]];
    }
  }

  lemma SetFieldMap(fields: seq<(string, Value)>, key: string, value: Value)
    requires DistinctKeys(fields)
    ensures DistinctKeys(SetField(fields, key, value))
    ensures AsMap(SetField(fields, key, value)) == AsMap(fields)[key := value]
  {
    SetFieldMembers(fields, key, value);
    AsMapEntries(fields);
    AsMapEntries(SetField(fields, key, value));
    var before, after := AsMap(fields)[key := value], AsMap(SetField(fields, key, value));
    forall k | k in after ensures k in before && before[k] == after[k] {
      assert (k, after[k]) in SetField(fields, key, value);
    }
    forall k | k in before ensures k in after {
      if k != key { assert (k, before[k]) in SetField(fields, key, value); }
    }
  }
}
