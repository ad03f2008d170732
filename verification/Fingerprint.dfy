/** The entity fingerprint: a hash of the strongest identifying signal a record carries. */
module Fingerprint {
  import opened Common

  /** The signal that is hashed, strongest first. */
  datatype Identity =
    | ByExternalId(entityType: string, externalId: string)
    | ByUrl(entityType: string, url: string)
    | ByNameAndDomain(entityType: string, name: string, domain: string)
    | ByName(entityType: string, name: string)

  function IdentityOf(entityType: string, normalizedName: Option<string>, canonicalUrl: Option<string>,
                      domain: Option<string>, externalId: Option<string>): Option<Identity>
  {
    if Truthy(externalId) then Some(ByExternalId(entityType, externalId.value))
    else if Truthy(canonicalUrl) then Some(ByUrl(entityType, canonicalUrl.value))
    else if Truthy(normalizedName) && Truthy(domain) then
      Some(ByNameAndDomain(entityType, normalizedName.value, domain.value))
    else if Truthy(normalizedName) then Some(ByName(entityType, normalizedName.value))
    else None
  }

  function Parts(id: Identity): seq<string> {
    match id
    case ByExternalId(t, x) => ["external_id", t, x]
    case ByUrl(t, u) => ["url", t, u]
    case ByNameAndDomain(t, n, d) => ["name_domain", t, n, d]
    case ByName(t, n) => ["name", t, n]
  }

  /** `"|".join(p for p in parts if p)` */
  function Joined(parts: seq<string>): string {
    if parts == [] then ""
    else if parts[0] == "" then Joined(parts[1..])
    else var rest := Joined(parts[1..]);
      if rest == "" then parts[0] else parts[0] + "|" + rest
  }

  /** The empty fingerprint means that the record carries no identifying signal. */
  function ComputeFingerprint(sha: string -> string, entityType: string, normalizedName: Option<string>,
                              canonicalUrl: Option<string>, domain: Option<string>, externalId: Option<string>): string
  {
    match IdentityOf(entityType, normalizedName, canonicalUrl, domain, externalId)
    case Some(id) => sha(Joined(Parts(id)))
    case None => ""
  }

  predicate BarFree(text: string) {
    forall i :: 0 <= i < |text| ==> text[i] != '|'
  }

  /** The identities the join can tell apart: a non-empty bar-free entity type and, where a
      domain follows the name, a bar-free domain. Ids, URLs and names may contain bars. */
  predicate Separable(id: Identity) {
    && id.entityType != "" && BarFree(id.entityType)
    && match id
       case ByExternalId(_, x) => x != ""
       case ByUrl(_, u) => u != ""
       case ByNameAndDomain(_, n, d) => n != "" && d != "" && BarFree(d)
       case ByName(_, n) => n != ""
  }

  lemma FirstBar(a: string, x: string, b: string, y: string)
    requires BarFree(a) && BarFree(b) && a + "|" + x == b + "|" + y
    ensures a == b && x == y
  {
    var text := a + "|" + x;
    assert text[|a|] == '|' && text[|b|] == '|';
    assert forall k :: 0 <= k < |a| ==> text[k] == a[k] != '|';
    assert forall k :: 0 <= k < |b| ==> text[k] == b[k] != '|';
    assert text[..|a|] == a && text[..|b|] == b;
    assert text[|a| + 1..] == x && text[|b| + 1..] == y;
  }

  lemma LastBar(a: string, x: string, b: string, y: string)
    requires BarFree(x) && BarFree(y) && a + "|" + x == b + "|" + y
    ensures a == b && x == y
  {
    var text := a + "|" + x;
    assert text[|a|] == '|' && text[|b|] == '|';
    assert forall k :: |a| < k < |text| ==> text[k] == x[k - |a| - 1] != '|';
    assert forall k :: |b| < k < |text| ==> text[k] == y[k - |b| - 1] != '|';
    assert text[..|a|] == a && text[..|b|] == b;
    assert text[|a| + 1..] == x && text[|b| + 1..] == y;
  }

  /** What follows the kind and the entity type in the joined text. */
  function Tail(id: Identity): string {
    match id
    case ByExternalId(_, x) => x
    case ByUrl(_, u) => u
    case ByNameAndDomain(_, n, d) => n + "|" + d
    case ByName(_, n) => n
  }

  lemma JoinedForm(id: Identity)
    requires Separable(id)
    ensures Joined(Parts(id)) == Parts(id)[0] + "|" + (id.entityType + "|" + Tail(id))
  {
    var p := Parts(id);
    assert p[1..][1..] == p[2..];
    assert p[2..][1..] == p[3..];
    match id
    case ByNameAndDomain(_, n, d) =>
      assert p[3..][1..] == [] && Joined(p[3..]) == d && Joined(p[2..]) == Tail(id);
    case _ =>
      assert p[3..] == [] && Joined(p[2..]) == Tail(id);
  }

  /** The text that is hashed determines the identity. */
  lemma JoinedInjective(a: Identity, b: Identity)
    requires Separable(a) && Separable(b)
    requires Joined(Parts(a)) == Joined(Parts(b))
    ensures a == b
  {
    hide Joined;
    JoinedForm(a);
    JoinedForm(b);
    FirstBar(Parts(a)[0], a.entityType + "|" + Tail(a), Parts(b)[0], b.entityType + "|" + Tail(b));
    FirstBar(a.entityType, Tail(a), b.entityType, Tail(b));
    if a.ByNameAndDomain? && b.ByNameAndDomain? {
      LastBar(a.name, a.domain, b.name, b.domain);
    }
  }

  /** SHA-256 idealised: no collisions, never the empty text. */
  ghost predicate IdealHash(sha: string -> string) {
    && (forall x, y :: sha(x) == sha(y) ==> x == y)
    && (forall x :: sha(x) != "")
  }

  /** Two records have the same non-empty fingerprint exactly when they carry the same identity. */
  lemma SameFingerprintIffSameIdentity(
    sha: string -> string,
    type1: string, name1: Option<string>, url1: Option<string>, domain1: Option<string>, ext1: Option<string>,
    type2: string, name2: Option<string>, url2: Option<string>, domain2: Option<string>, ext2: Option<string>)
    requires IdealHash(sha)
    requires type1 != "" && BarFree(type1) && type2 != "" && BarFree(type2)
    requires domain1.Some? ==> BarFree(domain1.value)
    requires domain2.Some? ==> BarFree(domain2.value)
    ensures var f1 := ComputeFingerprint(sha, type1, name1, url1, domain1, ext1);
            var f2 := ComputeFingerprint(sha, type2, name2, url2, domain2, ext2);
            f1 == f2 <==> IdentityOf(type1, name1, url1, domain1, ext1) == IdentityOf(type2, name2, url2, domain2, ext2)
  {
    hide Joined, Parts;
    var id1 := IdentityOf(type1, name1, url1, domain1, ext1);
    var id2 := IdentityOf(type2, name2, url2, domain2, ext2);
    if id1.Some? && id2.Some? && Joined(Parts(id1.value)) == Joined(Parts(id2.value)) {
      JoinedInjective(id1.value, id2.value);
    }
  }

  /** Two records of one type are the same thing if their ids agree, when either has one; failing that
      their URLs, when either has one; failing that their names, with their domains when either has one.
      Weaker signals are not looked at. */
  ghost predicate SameSignal(name1: Option<string>, url1: Option<string>, domain1: Option<string>, ext1: Option<string>,
                             name2: Option<string>, url2: Option<string>, domain2: Option<string>, ext2: Option<string>)
  {
    if Truthy(ext1) || Truthy(ext2) then ext1 == ext2
    else if Truthy(url1) || Truthy(url2) then url1 == url2
    else Truthy(name1) && name1 == name2 && (domain1 == domain2 || (!Truthy(domain1) && !Truthy(domain2)))
  }

  lemma SameIdentityIff(
    type1: string, name1: Option<string>, url1: Option<string>, domain1: Option<string>, ext1: Option<string>,
    type2: string, name2: Option<string>, url2: Option<string>, domain2: Option<string>, ext2: Option<string>)
    ensures var id1, id2 := IdentityOf(type1, name1, url1, domain1, ext1), IdentityOf(type2, name2, url2, domain2, ext2);
            id1.Some? && id1 == id2 <==> type1 == type2 && SameSignal(name1, url1, domain1, ext1, name2, url2, domain2, ext2)
  {
  }

  /** So two records share a non-empty fingerprint. */
  lemma SharedFingerprintIff(
    sha: string -> string,
    type1: string, name1: Option<string>, url1: Option<string>, domain1: Option<string>, ext1: Option<string>,
    type2: string, name2: Option<string>, url2: Option<string>, domain2: Option<string>, ext2: Option<string>)
    requires IdealHash(sha)
    requires type1 != "" && BarFree(type1) && type2 != "" && BarFree(type2)
    requires domain1.Some? ==> BarFree(domain1.value)
    requires domain2.Some? ==> BarFree(domain2.value)
    ensures var f1 := ComputeFingerprint(sha, type1, name1, url1, domain1, ext1);
            var f2 := ComputeFingerprint(sha, type2, name2, url2, domain2, ext2);
            f1 == f2 != "" <==> type1 == type2 && SameSignal(name1, url1, domain1, ext1, name2, url2, domain2, ext2)
  {
    hide Joined, Parts, IdentityOf, SameSignal;
    SameFingerprintIffSameIdentity(sha, type1, name1, url1, domain1, ext1, type2, name2, url2, domain2, ext2);
    SameIdentityIff(type1, name1, url1, domain1, ext1, type2, name2, url2, domain2, ext2);
  }

  /** A bar in the entity type does break the join: two identities, one hashed text. */
  lemma BarsCollide()
    ensures ByName("shop|a", "b") != ByName("shop", "a|b")
    ensures Joined(Parts(ByName("shop|a", "b"))) == Joined(Parts(ByName("shop", "a|b")))
  {
  }
}
