/** Values shared by every component: optional columns, the clock's two
    resolutions and the two notions of an "absent" text column. */
module Common {

  datatype Option<+T> = None | Some(value: T)

  /** The clock is read in microseconds; every stored timestamp is an ISO
      string cut to whole seconds, modelled as that number of seconds. */
  const MICROS: int := 1_000_000

  /** The stored form of an instant: microseconds are dropped. */
  function Truncate(micros: int): (seconds: int)
    ensures seconds * MICROS <= micros < (seconds + 1) * MICROS
  {
    micros / MICROS
  }

  /** The wall clock: it moves by unknown amounts, but never backwards. */
  class Clock {
    var now: int

    constructor ()
    {
      now := *;
    }

    method Read() returns (micros: int)
      modifies this
      ensures micros == now >= old(now)
    {
      var t: int := *;
      now := Max(now, t);
      return now;
    }

    method Sleep(micros: int)
      modifies this
      ensures now >= old(now) + Max(0, micros)
    {
      var late: int := *;
      now := now + Max(0, micros) + Max(0, late);
    }
  }

  function Min(a: int, b: int): int { if a <= b then a else b }

  function Max(a: int, b: int): int { if a <= b then b else a }

  /** `SELECT ... LIMIT 1` over rows in insertion order. */
  function FindFirst<T>(rows: seq<T>, p: T -> bool): (found: Option<nat>)
    ensures found.Some? ==> found.value < |rows| && p(rows[found.value])
    ensures found.Some? ==> forall i :: 0 <= i < found.value ==> !p(rows[i])
    ensures found.None? ==> forall i :: 0 <= i < |rows| ==> !p(rows[i])
  {
    if rows == [] then None
    else if p(rows[0]) then Some(0)
    else match FindFirst(rows[1..], p)
      case Some(i) =>
        assert forall k :: 0 < k < |rows| ==> rows[k] == rows[1..][k - 1];
        Some(i + 1)
      case None =>
        assert forall k :: 0 < k < |rows| ==> rows[k] == rows[1..][k - 1];
        None
  }

  /** The positions of the rows that satisfy a condition. */
  ghost function Where<T>(rows: seq<T>, p: T -> bool): set<int> {
    set i | 0 <= i < |rows| && p(rows[i])
  }

  /** One more row, one more position if it satisfies the condition. */
  lemma WhereNext<T>(rows: seq<T>, p: T -> bool)
    requires rows != []
    ensures |Where(rows, p)| == |Where(rows[..|rows| - 1], p)| + if p(rows[|rows| - 1]) then 1 else 0
  {
    var last := |rows| - 1;
    assert Where(rows, p) == Where(rows[..last], p) + if p(rows[last]) then {last} else {};
  }

  /** A text column that Python's `if column:` accepts. */
  predicate Truthy(text: Option<string>) {
    text.Some? && text.value != ""
  }

  /** The characters `str.strip` removes. */
  predicate IsSpace(c: char) {
    || '\t' <= c <= '\r' || '\U{001C}' <= c <= ' ' || c == '\U{0085}' || c == '\U{00A0}'
    || c == '\U{1680}' || '\U{2000}' <= c <= '\U{200A}' || c == '\U{2028}' || c == '\U{2029}'
    || c == '\U{202F}' || c == '\U{205F}' || c == '\U{3000}'
  }

  /** A text that `strip` leaves empty. */
  predicate Blank(text: string) {
    forall i :: 0 <= i < |text| ==> IsSpace(text[i])
  }

  /** A column holding something worth keeping. */
  predicate Useful(text: Option<string>) {
    text.Some? && !Blank(text.value)
  }
}
