/** The balanced-object scanner: given the text after `dataLayer.push(`, cut out
    the `{...}` argument, honouring nested braces and quoted strings. */
module DataLayerScanner {
  import opened Common

  // ---------------------------------------------------------------------
  // Reference: the string-aware brace depth of a text
  // ---------------------------------------------------------------------

  datatype Mode = Code | InString(quote: char) | Escaped(quote: char)

  datatype Scan = Scan(depth: int, mode: Mode)

  const START := Scan(0, Code)

  function Step(s: Scan, ch: char): Scan {
    match s.mode
    case Escaped(q) => s.(mode := InString(q))
    case InString(q) =>
      if ch == '\\' then s.(mode := Escaped(q)) else if ch == q then s.(mode := Code) else s
    case Code =>
      if ch == '"' || ch == '\'' then s.(mode := InString(ch))
      else if ch == '{' then s.(depth := s.depth + 1)
      else if ch == '}' then s.(depth := s.depth - 1)
      else s
  }

  function Run(s: Scan, text: string): Scan {
    if text == [] then s else Step(Run(s, text[..|text| - 1]), text[|text| - 1])
  }

  /** An object literal whose braces close: non-empty, opens with a brace, ends at depth zero. */
  predicate Balanced(text: string) {
    text != [] && text[0] == '{' && Run(START, text).depth == 0
  }

  /** `prefix` is the shortest balanced prefix of `text`. */
  ghost predicate ShortestBalanced(text: string, prefix: string) {
    && prefix <= text
    && Balanced(prefix)
    && forall n :: 0 <= n < |prefix| ==> !Balanced(text[..n])
  }

  predicate IsJsonSpace(c: char) {
    c == ' ' || c == '\t' || c == '\r' || c == '\n'
  }

  predicate AllJsonSpace(text: string) {
    forall i :: 0 <= i < |text| ==> IsJsonSpace(text[i])
  }

  /** `arg` is `text` from `start` on with its leading JSON whitespace removed. */
  ghost predicate Argument(text: string, start: nat, arg: string) {
    && start + |arg| <= |text|
    && arg == text[|text| - |arg|..]
    && AllJsonSpace(text[start..|text| - |arg|])
    && (arg == [] || !IsJsonSpace(arg[0]))
  }

  /** What the scanner promises about its result, on any text. */
  ghost predicate Extracts(text: string, start: nat, result: Option<string>) {
    forall arg :: Argument(text, start, arg) ==>
      match result
      case Some(found) => ShortestBalanced(arg, found)
      case None => forall n :: 0 <= n <= |arg| ==> !Balanced(arg[..n])
  }

  // ---------------------------------------------------------------------
  // The scanner itself
  // ---------------------------------------------------------------------

  /** The scanner's four variables, read as one reference state. */
  function Abstract(depth: int, inString: bool, stringChar: char, escape: bool): Scan {
    Scan(depth, if !inString then Code else if escape then Escaped(stringChar) else InString(stringChar))
  }

  /** The scan of the first `n` characters, none of whose prefixes is balanced. */
  ghost predicate Scanned(arg: string, n: nat, scan: Scan) {
    && n <= |arg| && scan == Run(START, arg[..n])
    && forall m :: 0 <= m <= n ==> !Balanced(arg[..m])
  }

  method ExtractBalancedObject(text: string, start: nat) returns (result: Option<string>)
    ensures start > |text| ==> result == None
    ensures Extracts(text, start, result)
  {
    hide Run, Balanced, ShortestBalanced, Argument, Scanned;
    var i := start;
    while i < |text| && IsJsonSpace(text[i])
      invariant start <= i
      invariant i <= Max(start, |text|)
      invariant start <= |text| ==> AllJsonSpace(text[start..i])
    {
      assert text[start..i + 1] == text[start..i] + [text[i]];
      i := i + 1;
    }
    ghost var arg := if i <= |text| then text[i..] else [];
    if start <= |text| { ArgumentUnique(text, start, i - start); } else { NoArgument(text, start); }
    if i >= |text| || text[i] != '{' {
      NothingOpens(arg);
      return None;
    }

    var depth := 0;
    var inString, stringChar, escape := false, '"', false;
    ghost var scan := START;
    NothingScanned(arg);
    for j := i to |text|
      invariant Abstract(depth, inString, stringChar, escape) == scan && Scanned(arg, j - i, scan)
      invariant !inString ==> !escape
      invariant if i < j then depth >= 1 else scan == START
    {
      var ch := text[j];
      assert ch == arg[j - i];
      ScanOn(arg, j - i, scan);
      scan := Step(scan, ch);
      if inString {
        if escape {
          escape := false;
        } else if ch == '\\' {
          escape := true;
        } else if ch == stringChar {
          inString := false;
        }
        continue;
      }
      if ch == '"' || ch == '\'' {
        inString := true;
        stringChar := ch;
        continue;
      }
      if ch == '{' {
        depth := depth + 1;
      } else if ch == '}' {
        depth := depth - 1;
        if depth == 0 {
          assert text[i..j + 1] == arg[..j + 1 - i];
          return Some(text[i..j + 1]);
        }
      }
    }
    AllScanned(arg, scan);
    return None;
  }

  lemma NoArgument(text: string, start: nat)
    requires start > |text|
    ensures forall arg :: !Argument(text, start, arg)
  {
  }

  lemma NothingOpens(arg: string)
    requires arg == [] || arg[0] != '{'
    ensures forall n :: 0 <= n <= |arg| ==> !Balanced(arg[..n])
  {
  }

  lemma NothingScanned(arg: string)
    ensures Scanned(arg, 0, START)
  {
  }

  /** One more character: it completes the shortest balanced prefix or leaves none. */
  lemma ScanOn(arg: string, n: nat, scan: Scan)
    requires Scanned(arg, n, scan) && n < |arg| && arg[0] == '{'
    ensures var next := Step(scan, arg[n]);
            if next.depth == 0 then ShortestBalanced(arg, arg[..n + 1]) else Scanned(arg, n + 1, next)
  {
    assert arg[..n + 1][..n] == arg[..n];
  }

  lemma AllScanned(arg: string, scan: Scan)
    requires Scanned(arg, |arg|, scan)
    ensures forall n :: 0 <= n <= |arg| ==> !Balanced(arg[..n])
  {
  }

  lemma SpaceAt(text: string, start: nat, stop: nat)
    requires start <= stop <= |text| && AllJsonSpace(text[start..stop])
    ensures forall k :: start <= k < stop ==> IsJsonSpace(text[k])
  {
  }

  lemma ArgumentUnique(text: string, start: nat, pad: nat)
    requires start + pad <= |text| && AllJsonSpace(text[start..start + pad])
    requires start + pad < |text| ==> !IsJsonSpace(text[start + pad])
    ensures forall arg :: Argument(text, start, arg) <==> arg == text[start + pad..]
  {
    assert text[start..start + pad] + text[start + pad..] == text[start..];
    assert Argument(text, start, text[start + pad..]);
    forall arg | Argument(text, start, arg) ensures arg == text[start + pad..] {
      var other := |text| - |arg| - start;
      SpaceAt(text, start, start + other);
      SpaceAt(text, start, start + pad);
    }
  }

  // ---------------------------------------------------------------------
  // Every JSON text, as a concrete syntax tree (RFC 8259, sections 2 to 7)
  // ---------------------------------------------------------------------

  /** One character of a JSON string: itself, a two-character escape, or \uXXXX. */
  datatype JsonChar = Plain(c: char) | Short(c: char) | Unicode(hex: string)

  /** A JSON value together with the whitespace its writer chose. `Scalar` is a
      number or one of the three literal names. */
  datatype Json =
    | Scalar(text: string)
    | Str(chars: seq<JsonChar>)
    | Array(items: Items)
    | Object(items: Items)

  /** The items of an array (no key) or the members of an object (a key each). */
  datatype Items =
    | End(pad: string)
    | Item(pad: string, key: Option<Key>, value: Json, after: string, rest: Items)

  datatype Key = Key(chars: seq<JsonChar>, beforeColon: string, afterColon: string)

  predicate IsHex(c: char) {
    '0' <= c <= '9' || 'a' <= c <= 'f' || 'A' <= c <= 'F'
  }

  predicate ValidChar(ch: JsonChar) {
    match ch
    case Plain(c) => ' ' <= c && c != '"' && c != '\\'
    case Short(c) => c in "\"\\/bfnrt"
    case Unicode(hex) => |hex| == 4 && forall i :: 0 <= i < 4 ==> IsHex(hex[i])
  }

  predicate ValidChars(chars: seq<JsonChar>) {
    forall i :: 0 <= i < |chars| ==> ValidChar(chars[i])
  }

  /** Numbers and literal names: letters, digits, sign, point. */
  predicate ScalarText(text: string) {
    forall i :: 0 <= i < |text| ==>
      'a' <= text[i] <= 'z' || text[i] == 'E' || '0' <= text[i] <= '9' || text[i] in "+-."
  }

  predicate Valid(v: Json) {
    match v
    case Scalar(text) => text != "" && ScalarText(text)
    case Str(chars) => ValidChars(chars)
    case Array(items) => ValidItems(items, false)
    case Object(items) => ValidItems(items, true)
  }

  predicate ValidItems(items: Items, keyed: bool) {
    match items
    case End(pad) => AllJsonSpace(pad)
    case Item(pad, key, value, after, rest) =>
      && AllJsonSpace(pad) && AllJsonSpace(after)
      && key.Some? == keyed
      && (key.Some? ==> ValidKey(key.value))
      && Valid(value) && ValidItems(rest, keyed)
  }

  predicate ValidKey(key: Key) {
    ValidChars(key.chars) && AllJsonSpace(key.beforeColon) && AllJsonSpace(key.afterColon)
  }

  function PrintChar(ch: JsonChar): string {
    match ch
    case Plain(c) => [c]
    case Short(c) => ['\\', c]
    case Unicode(hex) => "\\u" + hex
  }

  function PrintChars(chars: seq<JsonChar>): string {
    if chars == [] then "" else PrintChar(chars[0]) + PrintChars(chars[1..])
  }

  function PrintString(chars: seq<JsonChar>): string {
    "\"" + PrintChars(chars) + "\""
  }

  function PrintKey(key: Option<Key>): string {
    match key
    case None => ""
    case Some(k) => PrintString(k.chars) + k.beforeColon + ":" + k.afterColon
  }

  function Print(v: Json): string {
    match v
    case Scalar(text) => text
    case Str(chars) => PrintString(chars)
    case Array(items) => "[" + PrintItems(items, true) + "]"
    case Object(items) => "{" + PrintItems(items, true) + "}"
  }

  function PrintItems(items: Items, first: bool): string {
    match items
    case End(pad) => pad
    case Item(pad, key, value, after, rest) =>
      (if first then "" else ",") + pad + PrintKey(key) + Print(value) + after + PrintItems(rest, false)
  }

  // ---------------------------------------------------------------------
  // Scanning a printed value
  // ---------------------------------------------------------------------

  lemma {:induction false} RunConcat(s: Scan, a: string, b: string)
    ensures Run(s, a + b) == Run(Run(s, a), b)
  {
    if b == [] {
      assert a + b == a;
    } else {
      assert (a + b)[..|a + b| - 1] == a + b[..|b| - 1];
      RunConcat(s, a, b[..|b| - 1]);
    }
  }

  /** `text` never dips below depth `floor` when scanned from `s`. */
  ghost predicate Stays(s: Scan, text: string, floor: int) {
    forall n :: 0 <= n <= |text| ==> Run(s, text[..n]).depth >= floor
  }

  lemma StaysConcat(s: Scan, a: string, b: string, floor: int)
    requires Stays(s, a, floor) && Stays(Run(s, a), b, floor)
    ensures Stays(s, a + b, floor)
  {
    forall n | 0 <= n <= |a + b| ensures Run(s, (a + b)[..n]).depth >= floor {
      if n <= |a| {
        assert (a + b)[..n] == a[..n];
      } else {
        assert (a + b)[..n] == a + b[..n - |a|];
        RunConcat(s, a, b[..n - |a|]);
      }
    }
  }

  /** Scanned in code at depth `d`, `text` comes back to `d` and never went below it. */
  ghost predicate Quiet(text: string, d: int) {
    Run(Scan(d, Code), text) == Scan(d, Code) && Stays(Scan(d, Code), text, d)
  }

  lemma QuietConcat(a: string, b: string, d: int)
    requires Quiet(a, d) && Quiet(b, d)
    ensures Quiet(a + b, d)
  {
    RunConcat(Scan(d, Code), a, b);
    StaysConcat(Scan(d, Code), a, b, d);
  }

  /** A character that means nothing to the scanner outside strings. */
  predicate Inert(c: char) {
    c != '"' && c != '\'' && c != '{' && c != '}'
  }

  lemma {:induction false} InertQuiet(text: string, d: int)
    requires forall i :: 0 <= i < |text| ==> Inert(text[i])
    ensures Quiet(text, d)
  {
    if text != [] {
      var front := text[..|text| - 1];
      InertQuiet(front, d);
      forall n | 0 <= n <= |text| ensures Run(Scan(d, Code), text[..n]).depth >= d {
        if n < |text| { assert text[..n] == front[..n]; } else { assert text[..n] == text; }
      }
    }
  }

  /** Inside a double-quoted string no printed character ends it or changes the depth. */
  lemma {:induction false} CharsScan(chars: seq<JsonChar>, d: int)
    requires ValidChars(chars)
    ensures Run(Scan(d, InString('"')), PrintChars(chars)) == Scan(d, InString('"'))
    ensures Stays(Scan(d, InString('"')), PrintChars(chars), d)
  {
    if chars != [] {
      CharScan(chars[0], d);
      CharsScan(chars[1..], d);
      RunConcat(Scan(d, InString('"')), PrintChar(chars[0]), PrintChars(chars[1..]));
      StaysConcat(Scan(d, InString('"')), PrintChar(chars[0]), PrintChars(chars[1..]), d);
    }
  }

  lemma CharScan(ch: JsonChar, d: int)
    requires ValidChar(ch)
    ensures Run(Scan(d, InString('"')), PrintChar(ch)) == Scan(d, InString('"'))
    ensures Stays(Scan(d, InString('"')), PrintChar(ch), d)
  {
    var s := Scan(d, InString('"'));
    RunPrefixes(s, PrintChar(ch));
    match ch
    case Plain(c) =>
      assert Run(s, PrintChar(ch)[..1]) == s;
    case Short(c) =>
      assert Run(s, PrintChar(ch)[..1]) == Scan(d, Escaped('"'));
      assert Run(s, PrintChar(ch)[..2]) == s;
    case Unicode(hex) =>
      assert Run(s, PrintChar(ch)[..1]) == Scan(d, Escaped('"'));
      assert Run(s, PrintChar(ch)[..2]) == s;
      assert forall i :: 0 <= i < 4 ==> PrintChar(ch)[i + 2] == hex[i];
      assert Run(s, PrintChar(ch)[..3]) == s;
      assert Run(s, PrintChar(ch)[..4]) == s;
      assert Run(s, PrintChar(ch)[..5]) == s;
      assert Run(s, PrintChar(ch)[..6]) == s;
  }

  /** Unfolds a scan of at most six characters. */
  lemma RunPrefixes(s: Scan, text: string)
    requires |text| <= 6
    ensures Run(s, []) == s
    ensures forall n :: 0 <= n < |text| ==> Run(s, text[..n + 1]) == Step(Run(s, text[..n]), text[n])
    ensures text[..|text|] == text
  {
    forall n | 0 <= n < |text| ensures Run(s, text[..n + 1]) == Step(Run(s, text[..n]), text[n]) {
      assert text[..n + 1][..n] == text[..n];
    }
  }

  lemma StringQuiet(chars: seq<JsonChar>, d: int)
    requires ValidChars(chars)
    ensures Quiet(PrintString(chars), d)
  {
    var body := PrintChars(chars);
    CharsScan(chars, d);
    RunPrefixes(Scan(d, Code), "\"");
    RunPrefixes(Scan(d, InString('"')), "\"");
    RunConcat(Scan(d, Code), "\"", body);
    StaysConcat(Scan(d, Code), "\"", body, d);
    RunConcat(Scan(d, Code), "\"" + body, "\"");
    StaysConcat(Scan(d, Code), "\"" + body, "\"", d);
  }

  lemma KeyQuiet(key: Option<Key>, d: int)
    requires key.Some? ==> ValidKey(key.value)
    ensures Quiet(PrintKey(key), d)
  {
    match key
    case None => InertQuiet("", d);
    case Some(k) =>
      StringQuiet(k.chars, d);
      InertQuiet(k.beforeColon, d);
      InertQuiet(":", d);
      InertQuiet(k.afterColon, d);
      QuietConcat(PrintString(k.chars), k.beforeColon, d);
      QuietConcat(PrintString(k.chars) + k.beforeColon, ":", d);
      QuietConcat(PrintString(k.chars) + k.beforeColon + ":", k.afterColon, d);
  }

  /** Wrapping quiet text in braces: back to depth `d`, and strictly above it in between. */
  lemma BracesScan(inner: string, d: int)
    requires Quiet(inner, d + 1)
    ensures Quiet("{" + inner + "}", d)
    ensures Stays(Scan(d + 1, Code), inner, d + 1)
    ensures forall n :: 1 <= n <= |inner| + 1 ==>
      Run(Scan(d, Code), ("{" + inner + "}")[..n]).depth >= d + 1
  {
    var s := Scan(d, Code);
    RunPrefixes(s, "{");
    RunPrefixes(Scan(d + 1, Code), "}");
    RunConcat(s, "{", inner);
    StaysConcat(s, "{", inner, d);
    RunConcat(s, "{" + inner, "}");
    StaysConcat(s, "{" + inner, "}", d);
    forall n | 1 <= n <= |inner| + 1 ensures Run(s, ("{" + inner + "}")[..n]).depth >= d + 1 {
      assert ("{" + inner + "}")[..n] == "{" + inner[..n - 1];
      RunConcat(s, "{", inner[..n - 1]);
    }
  }

  lemma {:induction false} ValueQuiet(v: Json, d: int)
    requires Valid(v)
    ensures Quiet(Print(v), d)
    decreases v
  {
    match v
    case Scalar(text) => InertQuiet(text, d);
    case Str(chars) => StringQuiet(chars, d);
    case Array(items) =>
      ItemsQuiet(items, false, true, d);
      InertQuiet("[", d);
      InertQuiet("]", d);
      QuietConcat("[", PrintItems(items, true), d);
      QuietConcat("[" + PrintItems(items, true), "]", d);
    case Object(items) =>
      ItemsQuiet(items, true, true, d + 1);
      BracesScan(PrintItems(items, true), d);
  }

  lemma {:induction false} ItemsQuiet(items: Items, keyed: bool, first: bool, d: int)
    requires ValidItems(items, keyed)
    ensures Quiet(PrintItems(items, first), d)
    decreases items
  {
    match items
    case End(pad) => InertQuiet(pad, d);
    case Item(pad, key, value, after, rest) =>
      var comma := if first then "" else ",";
      InertQuiet(comma, d);
      InertQuiet(pad, d);
      KeyQuiet(key, d);
      ValueQuiet(value, d);
      InertQuiet(after, d);
      ItemsQuiet(rest, keyed, false, d);
      QuietConcat(comma, pad, d);
      QuietConcat(comma + pad, PrintKey(key), d);
      QuietConcat(comma + pad + PrintKey(key), Print(value), d);
      QuietConcat(comma + pad + PrintKey(key) + Print(value), after, d);
      QuietConcat(comma + pad + PrintKey(key) + Print(value) + after, PrintItems(rest, false), d);
  }

  /** A printed object is its own shortest balanced prefix, whatever follows it. */
  lemma PrintedObjectIsShortest(v: Json, suffix: string)
    requires v.Object? && Valid(v)
    ensures ShortestBalanced(Print(v) + suffix, Print(v))
  {
    var inner, printed := PrintItems(v.items, true), Print(v);
    ItemsQuiet(v.items, true, true, 1);
    BracesScan(inner, 0);
    forall n | 0 <= n < |printed| ensures !Balanced((printed + suffix)[..n]) {
      assert (printed + suffix)[..n] == printed[..n];
    }
  }

  /** Round trip: any valid JSON object, printed with any escapes and spacing, after
      any JSON whitespace and before any suffix, is extracted exactly. */
  lemma RoundTrip(before: string, pad: string, v: Json, suffix: string)
    requires v.Object? && Valid(v) && AllJsonSpace(pad)
    ensures forall result ::
      Extracts(before + pad + Print(v) + suffix, |before|, result) <==> result == Some(Print(v))
  {
    var text, arg := before + pad + Print(v) + suffix, Print(v) + suffix;
    PrintedArgument(before, pad, v, suffix);
    PrintedObjectIsShortest(v, suffix);
    assert text[|before| + |pad|..] == arg;
    ArgumentUnique(text, |before|, |pad|);
    forall result ensures Extracts(text, |before|, result) <==> result == Some(Print(v)) {
      assert arg[..|Print(v)|] == Print(v);
      if Extracts(text, |before|, result) {
        ShortestUnique(arg, Print(v), result.value);
      }
    }
  }

  lemma PrintedArgument(before: string, pad: string, v: Json, suffix: string)
    requires v.Object? && AllJsonSpace(pad)
    ensures Argument(before + pad + Print(v) + suffix, |before|, Print(v) + suffix)
  {
    var text := before + pad + Print(v) + suffix;
    assert text == before + pad + (Print(v) + suffix);
    assert text[|before|..|before| + |pad|] == pad;
  }

  lemma ShortestUnique(text: string, p: string, q: string)
    requires ShortestBalanced(text, p) && ShortestBalanced(text, q)
    ensures p == q
  {
    assert text[..|p|] == p && text[..|q|] == q;
  }
}
