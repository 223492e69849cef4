/**
 * Release version ordering (scripts/atomic_local_update.py, `_release_version_key`
 * and `_assert_not_downgrade`).
 */
module Versions {
  import opened Wrappers
  import opened Texts

  // ---------------------------------------------------------------- keys

  datatype Identifier = Number(n: nat) | Text(t: string)

  datatype Key = Key(core: seq<nat>, final: bool, identifiers: seq<Identifier>)

  predicate NumericParts(parts: seq<string>)
  {
    forall i :: 0 <= i < |parts| ==> parts[i] != "" && AllDigits(parts[i])
  }

  function Padding(n: nat): (zeros: seq<nat>)
    ensures |zeros| == if n < 4 then 4 - n else 0
  {
    seq(if n < 4 then 4 - n else 0, _ => 0)
  }

  function CoreOf(parts: seq<string>): seq<nat>
    requires NumericParts(parts)
  {
    seq(|parts|, i requires 0 <= i < |parts| => Decimal(parts[i])) + Padding(|parts|)
  }

  /** `(0, int(item)) if item.isdigit() else (1, item.lower())`. */
  function IdentifierOf(item: string): Identifier
  {
    if item != "" && AllDigits(item) then Number(Decimal(item)) else Text(LowerText(item))
  }

  function IdentifiersOf(items: seq<string>): seq<Identifier>
  {
    seq(|items|, i requires 0 <= i < |items| => IdentifierOf(items[i]))
  }

  /** The key of `digits(.digits)*` with an optional `-prerelease`. */
  function HeadKey(head: string): Option<Key>
  {
    var dash := IndexOf(head, '-');
    var parts := Split(head[..dash], '.');
    if !NumericParts(parts) then None
    else if dash == |head| then Some(Key(CoreOf(parts), true, []))
    else if dash + 1 == |head| || !AllLabelChars(head[dash + 1..]) then None
    else Some(Key(CoreOf(parts), false, IdentifiersOf(Split(head[dash + 1..], '.'))))
  }

  /**
   * `_release_version_key`: `digits(.digits)*`, an optional `-prerelease` and an optional
   * `+build`. The three charsets make the decomposition unique: it splits at the first `+`
   * and then at the first `-`. `None` is the "not safely comparable" refusal.
   */
  function VersionKey(value: string): Option<Key>
  {
    var plus := IndexOf(value, '+');
    if plus < |value| && (plus + 1 == |value| || !AllLabelChars(value[plus + 1..])) then None
    else HeadKey(value[..plus])
  }

  // ---------------------------------------------------------------- order

  function CompareIdentifier(a: Identifier, b: Identifier): int
  {
    match (a, b)
    case (Number(m), Number(n)) => m - n
    case (Number(_), Text(_)) => -1
    case (Text(_), Number(_)) => 1
    case (Text(s), Text(t)) => CompareText(s, t)
  }

  /** Python's comparison of the key tuples. */
  function CompareKey(a: Key, b: Key): int
  {
    if Lex(CompareNat, a.core, b.core) != 0 then Lex(CompareNat, a.core, b.core)
    else if a.final != b.final then (if b.final then -1 else 1)
    else Lex(CompareIdentifier, a.identifiers, b.identifiers)
  }

  /**
   * `_assert_not_downgrade` lets the candidate through: no active release, the same version
   * text, or both texts comparable and the candidate's key not below the active one.
   */
  predicate NotDowngrade(active: Option<string>, candidate: string)
  {
    || active.None?
    || active.value == candidate
    || (&& VersionKey(active.value).Some?
        && VersionKey(candidate).Some?
        && CompareKey(VersionKey(candidate).value, VersionKey(active.value).value) >= 0)
  }
}
