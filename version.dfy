/**
 * Adaptive Card schema versions "major.minor": parsing, printing, and the
 * comparison the version validator uses to decide whether a card version
 * supports a field.
 */
module Versions {
  import opened Wrappers
  import opened Text

  datatype Version = Version(major: Int64, minor: Int64)

  /** Go's `Version{}`, returned alongside every parse error. */
  const ZeroVersion := Version(0, 0)

  datatype VersionError =
    | InvalidFormat(input: string)
    | InvalidMajor(part: string)
    | InvalidMinor(part: string)

  /**
   * Parse "major.minor". The string must contain exactly one dot; each side
   * must be an `Atoi` integer (sign allowed, leading zeros allowed).
   */
  function ParseVersion(v: string): (r: Result<Version, VersionError>)
    ensures (r.Failure? && r.error.InvalidFormat?) <==> Count(v, '.') != 1
    ensures r.Failure? && r.error.InvalidFormat? ==> r.error.input == v
  {
    var parts := Split(v, '.');
    if |parts| != 2 then Failure(InvalidFormat(v))
    else
      match Atoi(parts[0])
      case None => Failure(InvalidMajor(parts[0]))
      case Some(major) =>
        match Atoi(parts[1])
        case None => Failure(InvalidMinor(parts[1]))
        case Some(minor) => Success(Version(major, minor))
  }

  /**
   * What a parse result says about the input: a version is read from the
   * integers on either side of the single dot, and an invalid part is the
   * side that failed to parse.
   */
  lemma ParseVersionParts(v: string)
    ensures var r := ParseVersion(v);
      && (r.Success? ==>
        exists a: string, b: string ::
          v == a + "." + b && '.' !in a && Atoi(a) == Some(r.value.major) && Atoi(b) == Some(r.value.minor))
      && (r.Failure? && r.error.InvalidMajor? ==>
        exists b: string :: v == r.error.part + "." + b && '.' !in r.error.part && Atoi(r.error.part) == None)
      && (r.Failure? && r.error.InvalidMinor? ==>
        exists a: string :: v == a + "." + r.error.part && '.' !in a && Atoi(a).Some? && Atoi(r.error.part) == None)
  {
    var parts := Split(v, '.');
    if |parts| == 2 {
      assert parts[1..] == [parts[1]];
      assert Join(parts, '.') == parts[0] + "." + parts[1];
      assert '.' !in parts[0];
    }
  }

  /** `Version.String`: "%d.%d". */
  function VersionString(v: Version): (s: string)
    ensures Count(s, '.') == 1
  {
    var a, b := FormatInt(v.major), FormatInt(v.minor);
    SplitJoin([a, b], '.');
    assert Join([a, b], '.') == a + "." + b;
    a + "." + b
  }

  /** Printing then parsing gives the version back. */
  lemma ParsePrinted(v: Version)
    ensures ParseVersion(VersionString(v)) == Success(v)
  {
    var a, b := FormatInt(v.major), FormatInt(v.minor);
    SplitJoin([a, b], '.');
    assert Join([a, b], '.') == a + "." + b;
    AtoiFormatInt(v.major);
    AtoiFormatInt(v.minor);
  }

  /**
   * Leading zeros are accepted: "1.05" is version 1.5, which prints as "1.5"
   * (`PrintedWithoutLeadingZero`), so parsing is not injective.
   */
  lemma LeadingZerosCollapse()
    ensures ParseVersion("1.05") == Success(Version(1, 5))
  {
    AtoiExamples();
    ParseOfParts("1", "05");
    assert "1" + "." + "05" == "1.05";
  }

  lemma AtoiExamples()
    ensures Atoi("1") == Some(1) && Atoi("5") == Some(5) && Atoi("05") == Some(5)
  {
    assert "1"[..0] == "";
    assert "5"[..0] == "";
    assert "05"[..1] == "0" && "0"[..0] == "";
  }

  /** Printing never restores a leading zero: `Version{1, 5}` prints as "1.5". */
  lemma PrintedWithoutLeadingZero()
    ensures VersionString(Version(1, 5)) == "1.5"
  {
    assert FormatInt(1) == "1";
    assert FormatInt(5) == "5";
  }

  lemma ParseOfParts(a: string, b: string)
    requires '.' !in a && '.' !in b && Atoi(a).Some? && Atoi(b).Some?
    ensures ParseVersion(a + "." + b) == Success(Version(Atoi(a).value, Atoi(b).value))
  {
    SplitJoin([a, b], '.');
    assert Join([a, b], '.') == a + "." + b;
  }

  /** The reference order: lexicographic on (major, minor). */
  predicate Before(v: Version, w: Version)
  {
    v.major < w.major || (v.major == w.major && v.minor < w.minor)
  }

  /** `Version.Compare`: -1, 0 or 1 as `v` is before, equal to or after `other`. */
  function Compare(v: Version, other: Version): (r: int)
    ensures r == -1 || r == 0 || r == 1
    ensures r == 0 <==> v == other
    ensures r == -1 <==> Before(v, other)
    ensures r == 1 <==> Before(other, v)
  {
    if v.major < other.major then -1
    else if v.major > other.major then 1
    else if v.minor < other.minor then -1
    else if v.minor > other.minor then 1
    else 0
  }

  lemma CompareAntisymmetric(v: Version, w: Version)
    ensures Compare(v, w) == -Compare(w, v)
  {
  }

  /** `Version.SupportsVersion`: the card version is not older than the required one. */
  predicate Supports(card: Version, required: Version)
  {
    Compare(card, required) >= 0
  }

  lemma SupportsIsNotBefore(card: Version, required: Version)
    ensures Supports(card, required) <==> !Before(card, required)
  {
  }

  lemma SupportsReflexive(v: Version)
    ensures Supports(v, v)
  {
  }

  lemma SupportsTransitive(a: Version, b: Version, c: Version)
    requires Supports(a, b) && Supports(b, c)
    ensures Supports(a, c)
  {
  }

  lemma SupportsTotal(a: Version, b: Version)
    ensures Supports(a, b) || Supports(b, a)
  {
  }
}
