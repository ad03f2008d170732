/** Canonical URLs. The standard library's splitting and joining of URL text is a
    `Codec` parameter; everything `normalize_url` itself does to the parts is here. */
module UrlNormalization {
  import opened Common

  type Pair = (string, string)

  datatype ParsedUrl = ParsedUrl(scheme: string, netloc: string, path: string, query: seq<Pair>, fragment: string)

  const TRACKING: set<string> := {
    "utm_source", "utm_medium", "utm_campaign", "utm_term", "utm_content",
    "gclid", "fbclid", "yclid", "mc_cid", "mc_eid"
  }

  function LowerChar(c: char): char {
    if 'A' <= c <= 'Z' then c + 32 as char else c
  }

  function Lower(s: string): (r: string)
    ensures |r| == |s|
    ensures forall i :: 0 <= i < |s| ==> r[i] == LowerChar(s[i])
  {
    seq(|s|, i requires 0 <= i < |s| => LowerChar(s[i]))
  }

  predicate EndsWithSlash(path: string) {
    path != "" && path[|path| - 1] == '/'
  }

  /** `rstrip("/")` */
  function StripSlashes(path: string): (r: string)
    ensures r <= path && !EndsWithSlash(r)
    ensures !EndsWithSlash(path) ==> r == path
  {
    if EndsWithSlash(path) then StripSlashes(path[..|path| - 1]) else path
  }

  function NormalizePath(path: string): string {
    var p := if path == "" then "/" else path;
    if |p| > 1 && EndsWithSlash(p) then
      var stripped := StripSlashes(p);
      if stripped == "" then "/" else stripped
    else p
  }

  function KeepPairs(query: seq<Pair>): (kept: seq<Pair>)
    ensures forall i :: 0 <= i < |kept| ==> kept[i] in query && Lower(kept[i].0) !in TRACKING
  {
    if query == [] then []
    else if Lower(query[0].0) in TRACKING then KeepPairs(query[1..])
    else [query[0]] + KeepPairs(query[1..])
  }

  // Strings compare by code point, pairs by key and then value.

  predicate StringLeq(a: string, b: string) {
    a == "" || (b != "" && (a[0] < b[0] || (a[0] == b[0] && StringLeq(a[1..], b[1..]))))
  }

  predicate PairLeq(p: Pair, q: Pair) {
    if p.0 == q.0 then StringLeq(p.1, q.1) else StringLeq(p.0, q.0)
  }

  ghost predicate Sorted(pairs: seq<Pair>) {
    forall i, j :: 0 <= i < j < |pairs| ==> PairLeq(pairs[i], pairs[j])
  }

  function Insert(p: Pair, pairs: seq<Pair>): seq<Pair> {
    if pairs == [] || PairLeq(p, pairs[0]) then [p] + pairs else [pairs[0]] + Insert(p, pairs[1..])
  }

  /** `list.sort()` */
  function Sort(pairs: seq<Pair>): seq<Pair> {
    if pairs == [] then [] else Insert(pairs[0], Sort(pairs[1..]))
  }

  function Normalize(url: ParsedUrl): ParsedUrl {
    ParsedUrl(
      Lower(if url.scheme == "" then "http" else url.scheme),
      Lower(url.netloc),
      NormalizePath(url.path),
      Sort(KeepPairs(url.query)),
      "")
  }

  // ---------------------------------------------------------------------
  // The order is total, so a sorted list is determined by its contents
  // ---------------------------------------------------------------------

  lemma {:induction false} StringOrder(a: string, b: string)
    ensures StringLeq(a, b) || StringLeq(b, a)
    ensures StringLeq(a, b) && StringLeq(b, a) ==> a == b
  {
    if a != "" && b != "" {
      StringOrder(a[1..], b[1..]);
      assert a == [a[0]] + a[1..] && b == [b[0]] + b[1..];
    }
  }

  lemma {:induction false} StringTransitive(a: string, b: string, c: string)
    requires StringLeq(a, b) && StringLeq(b, c)
    ensures StringLeq(a, c)
  {
    if a != "" && a[0] == b[0] == c[0] {
      StringTransitive(a[1..], b[1..], c[1..]);
    }
  }

  lemma PairOrder(p: Pair, q: Pair)
    ensures PairLeq(p, q) || PairLeq(q, p)
    ensures PairLeq(p, q) && PairLeq(q, p) ==> p == q
  {
    StringOrder(p.0, q.0);
    StringOrder(p.1, q.1);
  }

  lemma PairTransitive(p: Pair, q: Pair, r: Pair)
    requires PairLeq(p, q) && PairLeq(q, r)
    ensures PairLeq(p, r)
  {
    if p.0 == q.0 == r.0 {
      StringTransitive(p.1, q.1, r.1);
    } else {
      StringOrder(p.0, q.0);
      StringOrder(q.0, r.0);
      StringOrder(p.0, p.0);
      StringTransitive(p.0, q.0, r.0);
    }
  }

  lemma {:induction false} InsertSorts(p: Pair, pairs: seq<Pair>)
    requires Sorted(pairs)
    ensures Sorted(Insert(p, pairs))
    ensures multiset(Insert(p, pairs)) == multiset{p} + multiset(pairs)
  {
    if pairs == [] {
    } else if PairLeq(p, pairs[0]) {
      forall j | 0 <= j < |pairs| ensures PairLeq(p, pairs[j]) {
        if j > 0 { PairTransitive(p, pairs[0], pairs[j]); }
      }
    } else {
      var rest := Insert(p, pairs[1..]);
      InsertSorts(p, pairs[1..]);
      assert pairs == [pairs[0]] + pairs[1..];
      PairOrder(p, pairs[0]);
      forall j | 0 <= j < |rest| ensures PairLeq(pairs[0], rest[j]) {
        assert rest[j] in multiset(rest);
      }
    }
  }

  lemma {:induction false} SortSorts(pairs: seq<Pair>)
    ensures Sorted(Sort(pairs)) && multiset(Sort(pairs)) == multiset(pairs)
  {
    if pairs != [] {
      SortSorts(pairs[1..]);
      InsertSorts(pairs[0], Sort(pairs[1..]));
      assert pairs == [pairs[0]] + pairs[1..];
    }
  }

  lemma FirstIsLeast(pairs: seq<Pair>, p: Pair)
    requires Sorted(pairs) && p in multiset(pairs)
    ensures PairLeq(pairs[0], p)
  {
    PairOrder(pairs[0], pairs[0]);
  }

  lemma {:induction false} SortedUnique(a: seq<Pair>, b: seq<Pair>)
    requires Sorted(a) && Sorted(b) && multiset(a) == multiset(b)
    ensures a == b
  {
    assert |multiset(a)| == |a| && |multiset(b)| == |b|;
    if a != [] {
      assert b[0] in multiset(b) && a[0] in multiset(a);
      FirstIsLeast(a, b[0]);
      FirstIsLeast(b, a[0]);
      PairOrder(a[0], b[0]);
      assert a == [a[0]] + a[1..] && b == [b[0]] + b[1..];
      assert multiset(a[1..]) == multiset(a) - multiset{a[0]};
      assert multiset(b[1..]) == multiset(b) - multiset{b[0]};
      SortedUnique(a[1..], b[1..]);
    }
  }

  // ---------------------------------------------------------------------
  // What two URLs must share to have the same canonical form
  // ---------------------------------------------------------------------

  /** Same scheme and host up to case (a missing scheme is http), same path up to
      trailing slashes, same non-tracking query pairs in any order; any fragments. */
  ghost predicate SameResource(a: ParsedUrl, b: ParsedUrl) {
    && Lower(if a.scheme == "" then "http" else a.scheme) == Lower(if b.scheme == "" then "http" else b.scheme)
    && Lower(a.netloc) == Lower(b.netloc)
    && StripSlashes(a.path) == StripSlashes(b.path)
    && multiset(KeepPairs(a.query)) == multiset(KeepPairs(b.query))
  }

  lemma {:induction false} PathForm(path: string)
    ensures NormalizePath(path) == if StripSlashes(path) == "" then "/" else StripSlashes(path)
  {
  }

  /** The canonical form decides exactly that relation, in both directions. */
  lemma SameFormIffSameResource(a: ParsedUrl, b: ParsedUrl)
    ensures Normalize(a) == Normalize(b) <==> SameResource(a, b)
  {
    PathForm(a.path);
    PathForm(b.path);
    var p, q := KeepPairs(a.query), KeepPairs(b.query);
    SortSorts(p);
    SortSorts(q);
    if multiset(p) == multiset(q) { SortedUnique(Sort(p), Sort(q)); }
    assert EndsWithSlash("/");
  }

  lemma LowerIdempotent(s: string)
    ensures Lower(Lower(s)) == Lower(s)
  {
  }

  lemma {:induction false} KeepAll(query: seq<Pair>)
    requires forall i :: 0 <= i < |query| ==> Lower(query[i].0) !in TRACKING
    ensures KeepPairs(query) == query
  {
    if query != [] { KeepAll(query[1..]); }
  }

  /** Normalizing twice is normalizing once. */
  lemma NormalizeIdempotent(url: ParsedUrl)
    ensures Normalize(Normalize(url)) == Normalize(url)
  {
    var once := Normalize(url);
    LowerIdempotent(if url.scheme == "" then "http" else url.scheme);
    LowerIdempotent(url.netloc);
    PathForm(url.path);
    PathForm(once.path);
    var kept := KeepPairs(url.query);
    SortSorts(kept);
    forall i | 0 <= i < |once.query| ensures Lower(once.query[i].0) !in TRACKING {
      assert once.query[i] in multiset(kept);
    }
    KeepAll(once.query);
    SortSorts(once.query);
    SortedUnique(Sort(once.query), once.query);
  }

  lemma {:induction false} KeepConcat(a: seq<Pair>, b: seq<Pair>)
    ensures KeepPairs(a + b) == KeepPairs(a) + KeepPairs(b)
  {
    if a == [] {
      assert a + b == b;
    } else {
      assert (a + b)[1..] == a[1..] + b;
      KeepConcat(a[1..], b);
    }
  }

  lemma {:induction false} KeepNone(query: seq<Pair>)
    requires forall i :: 0 <= i < |query| ==> Lower(query[i].0) in TRACKING
    ensures KeepPairs(query) == []
  {
    if query != [] { KeepNone(query[1..]); }
  }

  lemma {:induction false} KeepCounts(query: seq<Pair>, p: Pair)
    ensures multiset(KeepPairs(query))[p] == if Lower(p.0) in TRACKING then 0 else multiset(query)[p]
  {
    if query != [] {
      KeepCounts(query[1..], p);
      assert query == [query[0]] + query[1..];
    }
  }

  lemma QueryParts(query: seq<Pair>, p: Pair)
    ensures var kept := Sort(KeepPairs(query));
            && Sorted(kept) && (p in kept <==> p in query && Lower(p.0) !in TRACKING)
            && multiset(kept)[p] == if p in kept then multiset(query)[p] else 0
  {
    SortSorts(KeepPairs(query));
    KeepCounts(query, p);
    assert p in Sort(KeepPairs(query)) <==> p in multiset(Sort(KeepPairs(query)));
    assert p in query <==> p in multiset(query);
  }

  ghost predicate LowerOf(c: char, lower: char) {
    lower == if 'A' <= c <= 'Z' then c - 'A' + 'a' else c
  }

  lemma {:induction false} OnlySlashesCut(path: string)
    ensures forall i :: |StripSlashes(path)| <= i < |path| ==> path[i] == '/'
  {
    if EndsWithSlash(path) {
      OnlySlashesCut(path[..|path| - 1]);
    }
  }

  /** What the canonical form is, part by part: scheme and host in lower case; the path without its trailing
      slashes, or the root; in order, the query pairs that no tracking parameter names; no fragment. */
  lemma NormalizedParts(url: ParsedUrl, p: Pair)
    ensures var n := Normalize(url);
            && |n.scheme| == (if url.scheme == "" then 4 else |url.scheme|) && (url.scheme == "" ==> n.scheme == "http")
            && (url.scheme != "" ==> forall i :: 0 <= i < |n.scheme| ==> LowerOf(url.scheme[i], n.scheme[i]))
            && |n.netloc| == |url.netloc| && (forall i :: 0 <= i < |n.netloc| ==> LowerOf(url.netloc[i], n.netloc[i]))
            && (if forall i :: 0 <= i < |url.path| ==> url.path[i] == '/' then n.path == "/"
                else n.path != "" && n.path <= url.path && n.path[|n.path| - 1] != '/'
                     && forall i :: |n.path| <= i < |url.path| ==> url.path[i] == '/')
            && Sorted(n.query) && n.fragment == ""
            && (p in n.query <==> p in url.query && Lower(p.0) !in {
                  "utm_source", "utm_medium", "utm_campaign", "utm_term", "utm_content", "gclid", "fbclid", "yclid",
                  "mc_cid", "mc_eid"})
            && multiset(n.query)[p] == if p in n.query then multiset(url.query)[p] else 0
  {
    hide KeepPairs, Sort, NormalizePath, StripSlashes;
    assert url.scheme == "" ==> Lower("http") == "http";
    PathForm(url.path);
    OnlySlashesCut(url.path);
    QueryParts(url.query, p);
  }

  lemma KeepPermuted(a: seq<Pair>, b: seq<Pair>)
    requires multiset(a) == multiset(b)
    ensures multiset(KeepPairs(a)) == multiset(KeepPairs(b))
  {
    forall p: Pair ensures multiset(KeepPairs(a))[p] == multiset(KeepPairs(b))[p] {
      KeepCounts(a, p);
      KeepCounts(b, p);
    }
  }

  /** Reordering the query, adding tracking pairs anywhere, and changing the fragment
      or the trailing slashes never change the canonical form. */
  lemma CosmeticChangesVanish(url: ParsedUrl, shuffled: seq<Pair>, before: seq<Pair>, after: seq<Pair>,
                              slashes: string, fragment: string)
    requires multiset(shuffled) == multiset(url.query)
    requires forall i :: 0 <= i < |before| ==> Lower(before[i].0) in TRACKING
    requires forall i :: 0 <= i < |after| ==> Lower(after[i].0) in TRACKING
    requires forall i :: 0 <= i < |slashes| ==> slashes[i] == '/'
    ensures Normalize(url.(query := before + shuffled + after, path := url.path + slashes, fragment := fragment))
         == Normalize(url)
  {
    KeepPermuted(shuffled, url.query);
    KeepNone(before);
    KeepNone(after);
    KeepConcat(before, shuffled);
    KeepConcat(before + shuffled, after);
    StripAppended(url.path, slashes);
    SameFormIffSameResource(
      url.(query := before + shuffled + after, path := url.path + slashes, fragment := fragment), url);
  }

  lemma {:induction false} StripAppended(path: string, slashes: string)
    requires forall i :: 0 <= i < |slashes| ==> slashes[i] == '/'
    ensures StripSlashes(path + slashes) == StripSlashes(path)
  {
    if slashes == "" {
      assert path + slashes == path;
    } else {
      assert (path + slashes)[..|path + slashes| - 1] == path + slashes[..|slashes| - 1];
      StripAppended(path, slashes[..|slashes| - 1]);
    }
  }

  // ---------------------------------------------------------------------
  // URL text
  // ---------------------------------------------------------------------

  /** Splitting separates the fragment and decodes the query pairs; joining encodes them again.
      Both are the standard library's. */
  datatype Codec = Codec(split: string -> ParsedUrl, join: ParsedUrl -> string)

  /** `str.strip` */
  function Strip(text: string): (r: string)
    ensures r != "" ==> !IsSpace(r[0]) && !IsSpace(r[|r| - 1])
    ensures r == text || |r| < |text|
  {
    if text == "" then ""
    else if IsSpace(text[0]) then Strip(text[1..])
    else if IsSpace(text[|text| - 1]) then Strip(text[..|text| - 1])
    else text
  }

  function CanonicalForm(codec: Codec, url: string): ParsedUrl {
    Normalize(codec.split(Strip(url)))
  }

  function NormalizeText(codec: Codec, url: string): string {
    if url == "" then "" else codec.join(CanonicalForm(codec, url))
  }

  /** `extract_domain` */
  function ExtractDomain(codec: Codec, url: string): string {
    Lower(codec.split(url).netloc)
  }

  /** Texts of one resource are paced as one domain: the host in lower case. */
  lemma SameResourceSameDomain(codec: Codec, a: string, b: string)
    requires SameResource(codec.split(a), codec.split(b))
    ensures ExtractDomain(codec, a) == ExtractDomain(codec, b)
    ensures var host, domain := codec.split(a).netloc, ExtractDomain(codec, a);
            |domain| == |host| && forall i :: 0 <= i < |host| ==> LowerOf(host[i], domain[i])
  {
  }

  /** URL handling as the stores see it: two functions on text. */
  datatype UrlRules = UrlRules(normalize: string -> string, domain: string -> string)

  function UrlText(codec: Codec): UrlRules {
    UrlRules((url: string) => NormalizeText(codec, url), (url: string) => ExtractDomain(codec, url))
  }

  /** Normalizing this text a second time changes nothing. */
  ghost predicate Stable(urls: UrlRules, url: string) {
    urls.normalize(urls.normalize(url)) == urls.normalize(url)
  }

  ghost predicate NeverEmpties(urls: UrlRules) {
    forall url :: url != "" ==> urls.normalize(url) != ""
  }

  // ---------------------------------------------------------------------
  // When normalizing twice is normalizing once
  // ---------------------------------------------------------------------

  /** The canonical text, stripped and split again, is the same resource. */
  ghost predicate SplitsBack(codec: Codec, url: string) {
    SameResource(codec.split(Strip(NormalizeText(codec, url))), CanonicalForm(codec, url))
  }

  /** A text is stable exactly when its canonical text splits back, where joining tells the two
      canonical forms apart. */
  lemma TextIdempotentIff(codec: Codec, url: string)
    requires NormalizeText(codec, url) != ""
    requires var once, twice := CanonicalForm(codec, url), CanonicalForm(codec, NormalizeText(codec, url));
             codec.join(once) == codec.join(twice) ==> once == twice
    ensures Stable(UrlText(codec), url) <==> SplitsBack(codec, url)
  {
    SameCanonicalForm(codec, url);
  }

  /** Without any assumption on joining, splitting back is enough. */
  lemma TextIdempotent(codec: Codec, url: string)
    requires SplitsBack(codec, url)
    ensures Stable(UrlText(codec), url)
  {
    SameCanonicalForm(codec, url);
  }

  lemma SameCanonicalForm(codec: Codec, url: string)
    ensures SplitsBack(codec, url)
      <==> CanonicalForm(codec, NormalizeText(codec, url)) == CanonicalForm(codec, url)
  {
    hide SameResource, Normalize;
    NormalizeIdempotent(codec.split(Strip(url)));
    SameFormIffSameResource(codec.split(Strip(NormalizeText(codec, url))), CanonicalForm(codec, url));
  }

  /** A path that `urlsplit` would take for a host when nothing else stands in front of it. */
  predicate LooksLikeHost(path: string) {
    "//" <= path
  }

  /** The form `shown` is joined by concatenation, whatever its path, as long as the path starts the same
      and does not look like a host that the URL lacks; and an encoded query does not end in whitespace.
      `lead` stands for what comes in front: scheme and host, or the scheme alone. */
  ghost predicate JoinsPlainly(codec: Codec, encode: seq<Pair> -> string, lead: string, shown: ParsedUrl) {
    && lead != "" && !IsSpace(lead[0]) && shown.path != ""
    && (forall path, query :: path != "" && path[0] == shown.path[0] && (shown.netloc != "" || !LooksLikeHost(path)) ==>
          codec.join(shown.(path := path, query := query)) == PlainText(encode, lead, path, query))
    && (forall query :: query != [] ==> encode(query) != "" && !IsSpace(encode(query)[|encode(query)| - 1]))
  }

  function PlainText(encode: seq<Pair> -> string, lead: string, path: string, query: seq<Pair>): string {
    lead + path + if query == [] then "" else "?" + encode(query)
  }

  /** The canonical form as its text shows it: some libraries put the missing slash in front of the path
      of a URL without a host. */
  ghost predicate ShownAs(codec: Codec, form: ParsedUrl, shown: ParsedUrl) {
    && shown.path != "" && !IsSpace(shown.path[0]) && (shown.netloc != "" || !LooksLikeHost(shown.path))
    && (shown == form
        || (!("/" <= form.path) && shown == form.(path := "/" + form.path) && codec.join(form) == codec.join(shown)))
  }

  /** Splitting what was joined leads back to the same resource. */
  ghost predicate RoundTrips(codec: Codec, url: ParsedUrl) {
    SameResource(codec.split(codec.join(url)), url)
  }

  function TrimRight(text: string): (r: string)
    ensures r <= text && (r != "" ==> !IsSpace(r[|r| - 1]))
    ensures text != "" && !IsSpace(text[|text| - 1]) ==> r == text
  {
    if text != "" && IsSpace(text[|text| - 1]) then TrimRight(text[..|text| - 1]) else text
  }

  function Trimmed(url: ParsedUrl): ParsedUrl {
    url.(path := TrimRight(url.path))
  }

  lemma {:induction false} StripIsTrimRight(text: string)
    requires text != "" && !IsSpace(text[0])
    ensures Strip(text) == TrimRight(text)
  {
    if IsSpace(text[|text| - 1]) {
      StripIsTrimRight(text[..|text| - 1]);
    }
  }

  lemma {:induction false} TrimRightConcat(front: string, text: string)
    requires TrimRight(text) != ""
    ensures TrimRight(front + text) == front + TrimRight(text)
  {
    if IsSpace(text[|text| - 1]) {
      assert (front + text)[..|front + text| - 1] == front + text[..|text| - 1];
      TrimRightConcat(front, text[..|text| - 1]);
    }
  }

  lemma {:induction false} TrimRightKeepsFirst(text: string)
    requires text != "" && !IsSpace(text[0])
    ensures TrimRight(text) != "" && TrimRight(text)[0] == text[0]
  {
    if IsSpace(text[|text| - 1]) { TrimRightKeepsFirst(text[..|text| - 1]); }
  }

  /** What is left of the path once its trailing slashes are gone ends in whitespace, and nothing
      follows it in the canonical text. */
  predicate EndsBlank(url: ParsedUrl) {
    var path := StripSlashes(url.path);
    KeepPairs(url.query) == [] && path != "" && IsSpace(path[|path| - 1])
  }

  /** The exact condition, on the URL as it is split the first time: with or without a host, a URL is
      stable unless its path, without trailing slashes, ends in whitespace and no query pair is kept. */
  lemma StableIff(codec: Codec, encode: seq<Pair> -> string, lead: string, url: string, shown: ParsedUrl)
    requires url != "" && ShownAs(codec, CanonicalForm(codec, url), shown) && JoinsPlainly(codec, encode, lead, shown)
    requires RoundTrips(codec, shown) && RoundTrips(codec, Trimmed(shown))
    ensures Stable(UrlText(codec), url) <==> !EndsBlank(codec.split(Strip(url)))
  {
    hide SameResource, RoundTrips, JoinsPlainly, EndsBlank, Normalize;
    ShownCanonical(codec, url, shown);
    ShownEnds(codec, url, shown);
    if EndsBlank(codec.split(Strip(url))) {
      BlankIsUnstable(codec, encode, lead, url, shown);
    } else {
      TidyIsStable(codec, encode, lead, url, shown);
    }
  }

  /** How the shown form ends can be read off the first split. */
  lemma ShownEnds(codec: Codec, url: string, shown: ParsedUrl)
    requires ShownAs(codec, CanonicalForm(codec, url), shown)
    ensures EndsBlank(codec.split(Strip(url))) <==> shown.query == [] && IsSpace(shown.path[|shown.path| - 1])
  {
    hide KeepPairs, Sort, NormalizePath, Strip;
    var parsed, form := codec.split(Strip(url)), CanonicalForm(codec, url);
    PathForm(parsed.path);
    SortedEmptyIff(KeepPairs(parsed.query));
    assert shown.path[|shown.path| - 1] == form.path[|form.path| - 1];
  }

  lemma SortedEmptyIff(pairs: seq<Pair>)
    ensures Sort(pairs) == [] <==> pairs == []
  {
    SortSorts(pairs);
    assert |multiset(Sort(pairs))| == |Sort(pairs)| && |multiset(pairs)| == |pairs|;
  }

  /** What is shown is canonical itself. */
  lemma ShownCanonical(codec: Codec, url: string, shown: ParsedUrl)
    requires url != "" && ShownAs(codec, CanonicalForm(codec, url), shown)
    ensures Normalize(shown) == shown && NormalizeText(codec, url) == codec.join(shown)
  {
    hide KeepPairs, Sort;
    var form := CanonicalForm(codec, url);
    NormalizeIdempotent(codec.split(Strip(url)));
    if shown != form {
      PathForm(form.path);
      PathForm(shown.path);
      PathForm(codec.split(Strip(url)).path);
      assert !EndsWithSlash(form.path);
    }
  }

  lemma TidyIsStable(codec: Codec, encode: seq<Pair> -> string, lead: string, url: string, shown: ParsedUrl)
    requires NormalizeText(codec, url) == codec.join(shown) && Normalize(shown) == shown && RoundTrips(codec, shown)
    requires JoinsPlainly(codec, encode, lead, shown) && shown.path != ""
    requires shown.netloc != "" || !LooksLikeHost(shown.path)
    requires shown.query != [] || !IsSpace(shown.path[|shown.path| - 1])
    ensures Stable(UrlText(codec), url)
  {
    hide Normalize, SameResource;
    var text := NormalizeText(codec, url);
    assert shown.(path := shown.path, query := shown.query) == shown;
    assert text == PlainText(encode, lead, shown.path, shown.query) && !IsSpace(text[0]) && !IsSpace(text[|text| - 1]);
    assert Strip(text) == text;
    SameFormIffSameResource(codec.split(text), shown);
  }

  /** The second pass works on the trimmed path and yields a shorter text. */
  lemma BlankIsUnstable(codec: Codec, encode: seq<Pair> -> string, lead: string, url: string, shown: ParsedUrl)
    requires NormalizeText(codec, url) == codec.join(shown) && Normalize(shown) == shown && RoundTrips(codec, Trimmed(shown))
    requires JoinsPlainly(codec, encode, lead, shown) && shown.path != "" && !IsSpace(shown.path[0])
    requires shown.netloc != "" || !LooksLikeHost(shown.path)
    requires shown.query == [] && IsSpace(shown.path[|shown.path| - 1])
    ensures !Stable(UrlText(codec), url)
  {
    hide SameResource;
    var text, trimmed := NormalizeText(codec, url), Trimmed(shown);
    TrimRightKeepsFirst(shown.path);
    assert shown.(path := shown.path, query := []) == shown && text == lead + shown.path;
    StripIsTrimRight(text);
    TrimRightConcat(lead, shown.path);
    assert shown.(path := trimmed.path, query := []) == trimmed && Strip(text) == codec.join(trimmed);
    SameFormIffSameResource(codec.split(Strip(text)), trimmed);
    var again := Normalize(trimmed);
    PathForm(trimmed.path);
    PrefixFirst(trimmed.path);
    assert shown.(path := again.path, query := []) == again;
    assert |again.path| <= |trimmed.path| < |shown.path|;
    assert codec.join(again) == lead + again.path;
  }

  /** Cutting trailing slashes off a path leaves its beginning. */
  lemma PrefixFirst(path: string)
    requires path != ""
    ensures NormalizePath(path) <= path && NormalizePath(path) != "" && NormalizePath(path)[0] == path[0]
  {
    PathForm(path);
    AllSlashes(path);
  }

  lemma {:induction false} AllSlashes(path: string)
    ensures StripSlashes(path) == "" && path != "" ==> path[0] == '/'
  {
    if |path| > 1 && EndsWithSlash(path) {
      AllSlashes(path[..|path| - 1]);
    }
  }

  // Texts that fail it. `strip` runs before the fragment, the tracking parameters and the trailing
  // slashes are cut off, so the space in front of them survives the first pass and not the second.

  /** The library on the texts of the following lemmas. */
  ghost predicate SplitsSpaces(codec: Codec) {
    && codec.split("http://x/a #f") == ParsedUrl("http", "x", "/a ", [], "f")
    && codec.split("http://x/a /") == ParsedUrl("http", "x", "/a /", [], "")
    && codec.split("http://x/a ?utm_source=b") == ParsedUrl("http", "x", "/a ", [("utm_source", "b")], "")
    && codec.split("http://x/a") == ParsedUrl("http", "x", "/a", [], "")
    && codec.join(ParsedUrl("http", "x", "/a ", [], "")) == "http://x/a "
    && codec.join(ParsedUrl("http", "x", "/a", [], "")) == "http://x/a"
  }

  lemma SpaceBeforeFragment(codec: Codec)
    requires SplitsSpaces(codec)
    ensures NormalizeText(codec, "http://x/a #f") == "http://x/a "
    ensures !Stable(UrlText(codec), "http://x/a #f") && !SplitsBack(codec, "http://x/a #f")
  {
    assert Strip("http://x/a #f") == "http://x/a #f";
    Unchanged("http", "x", "/a ", "f");
    SpaceLost(codec, "http://x/a #f");
  }

  lemma SpaceBeforeSlash(codec: Codec)
    requires SplitsSpaces(codec)
    ensures NormalizeText(codec, "http://x/a /") == "http://x/a "
    ensures !Stable(UrlText(codec), "http://x/a /") && !SplitsBack(codec, "http://x/a /")
  {
    assert Strip("http://x/a /") == "http://x/a /";
    assert StripSlashes("/a /") == "/a ";
    assert Normalize(ParsedUrl("http", "x", "/a /", [], "")) == ParsedUrl("http", "x", "/a ", [], "") by {
      Unchanged("http", "x", "/a ", "");
    }
    SpaceLost(codec, "http://x/a /");
  }

  lemma SpaceBeforeTracking(codec: Codec)
    requires SplitsSpaces(codec)
    ensures NormalizeText(codec, "http://x/a ?utm_source=b") == "http://x/a "
    ensures !Stable(UrlText(codec), "http://x/a ?utm_source=b") && !SplitsBack(codec, "http://x/a ?utm_source=b")
  {
    assert Strip("http://x/a ?utm_source=b") == "http://x/a ?utm_source=b";
    Unchanged("http", "x", "/a ", "");
    assert Lower("utm_source") == "utm_source" && KeepPairs([("utm_source", "b")]) == [];
    SpaceLost(codec, "http://x/a ?utm_source=b");
  }

  lemma SpaceLost(codec: Codec, url: string)
    requires SplitsSpaces(codec) && NormalizeText(codec, url) == "http://x/a "
    ensures NormalizeText(codec, "http://x/a ") == "http://x/a"
    ensures !Stable(UrlText(codec), url) && !SplitsBack(codec, url)
  {
    hide KeepPairs, Sort;
    assert Strip("http://x/a ") == Strip("http://x/a") == "http://x/a";
    Unchanged("http", "x", "/a", "");
    if SplitsBack(codec, url) {
      TextIdempotent(codec, url);
    }
  }

  /** Another cause, in libraries that join an empty host and a path of two slashes to a text that reads
      as a URL with a host, whose case is then folded. */
  lemma HostAppears(codec: Codec)
    requires codec.split("http:////A/b") == ParsedUrl("http", "", "//A/b", [], "")
    requires codec.join(ParsedUrl("http", "", "//A/b", [], "")) == "http://A/b"
    requires codec.split("http://A/b") == ParsedUrl("http", "A", "/b", [], "")
    requires codec.join(ParsedUrl("http", "a", "/b", [], "")) == "http://a/b"
    ensures NormalizeText(codec, "http:////A/b") == "http://A/b" && NormalizeText(codec, "http://A/b") == "http://a/b"
    ensures !Stable(UrlText(codec), "http:////A/b")
  {
    assert Strip("http:////A/b") == "http:////A/b" && Strip("http://A/b") == "http://A/b";
    Unchanged("http", "", "//A/b", "");
    assert Lower("A") == "a" && Lower("http") == "http";
  }

  /** Lower-case parts without a query or a trailing slash only lose their fragment. */
  lemma Unchanged(scheme: string, netloc: string, path: string, fragment: string)
    requires scheme != "" && Lower(scheme) == scheme && Lower(netloc) == netloc
    requires path != "" && !EndsWithSlash(path)
    ensures Normalize(ParsedUrl(scheme, netloc, path, [], fragment)) == ParsedUrl(scheme, netloc, path, [], "")
  {
  }

  lemma JoinedNeverEmpties(codec: Codec)
    requires forall url :: codec.join(url) != ""
    ensures NeverEmpties(UrlText(codec))
  {
  }
}
