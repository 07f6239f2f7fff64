/**
 * Identifiers of packaging types: the part of `Ramsey\Uuid\Uuid` the client
 * relies on, namely `fromString` and `toString`.
 */
module Uuids {

  import opened Wrappers

  /** A UUID, held in the lower-case form that `toString()` returns. */
  datatype Uuid = Uuid(text: string)

  predicate IsHex(c: char)
  {
    '0' <= c <= '9' || 'a' <= c <= 'f' || 'A' <= c <= 'F'
  }

  predicate IsDashPosition(i: int)
  {
    i == 8 || i == 13 || i == 18 || i == 23
  }

  /** The 8-4-4-4-12 hexadecimal form, letters in either case. */
  predicate WellFormed(s: string)
  {
    |s| == 36 &&
    forall i :: 0 <= i < |s| ==> if IsDashPosition(i) then s[i] == '-' else IsHex(s[i])
  }

  predicate IsUpperHex(c: char)
  {
    'A' <= c <= 'F'
  }

  /** The form `toString()` produces: well formed, no upper-case letter. */
  predicate Canonical(s: string)
  {
    WellFormed(s) && forall i :: 0 <= i < |s| ==> !IsUpperHex(s[i])
  }

  function LowerHex(c: char): char
  {
    if IsUpperHex(c) then ((c as int) + 32) as char else c
  }

  function ToLower(s: string): (r: string)
    ensures |r| == |s|
    ensures forall i :: 0 <= i < |s| ==> r[i] == LowerHex(s[i])
  {
    seq(|s|, i requires 0 <= i < |s| => LowerHex(s[i]))
  }

  /**
   * `Uuid::fromString($s)`: None is the exception thrown for a string that is
   * not a UUID.
   */
  function FromString(s: string): (r: Option<Uuid>)
    ensures r.Some? <==> WellFormed(s)
    ensures r.Some? ==> Canonical(r.value.text)
    ensures r.Some? ==> forall i :: 0 <= i < |s| ==> r.value.text[i] == LowerHex(s[i])
  {
    if WellFormed(s) then Some(Uuid(ToLower(s))) else None
  }

  /** Parsing the string form of a UUID gives that UUID back. */
  lemma FromStringOfCanonical(t: string)
    requires Canonical(t)
    ensures FromString(t) == Some(Uuid(t))
  {
    assert ToLower(t) == t;
  }
}
