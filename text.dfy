/**
 * The pieces of Go's `strings` and `strconv` packages that the core relies
 * on, over `string` = `seq<char>`: prefix and suffix tests, `TrimPrefix`,
 * `Split` on a one-character separator, `Atoi` and decimal printing (`%d`).
 */
module Text {
  import opened Wrappers

  const INT64_MIN: int := -0x8000_0000_0000_0000
  const INT64_MAX: int := 0x7fff_ffff_ffff_ffff

  /** Go's `int` on the 64-bit platforms the service is built for. */
  type Int64 = x: int | INT64_MIN <= x <= INT64_MAX

  predicate HasPrefix(s: string, p: string) { |p| <= |s| && s[..|p|] == p }

  predicate HasSuffix(s: string, p: string) { |p| <= |s| && s[|s| - |p|..] == p }

  /** `strings.TrimPrefix`: `s` without the leading `p`, or `s` unchanged when it does not start with `p`. */
  function TrimPrefix(s: string, p: string): (r: string)
    ensures HasPrefix(s, p) ==> s == p + r
    ensures !HasPrefix(s, p) ==> r == s
  {
    if HasPrefix(s, p) then s[|p|..] else s
  }

  /** Trimming changes the string exactly when the (non-empty) prefix is there. */
  lemma TrimPrefixChanges(s: string, p: string)
    requires p != []
    ensures TrimPrefix(s, p) != s <==> HasPrefix(s, p)
  {
    if HasPrefix(s, p) {
      assert |TrimPrefix(s, p)| < |s|;
    }
  }

  function Count(s: string, c: char): nat
  {
    if s == [] then 0 else (if s[0] == c then 1 else 0) + Count(s[1..], c)
  }

  /** The inverse of `Split`: the parts with the separator between each two. */
  function Join(parts: seq<string>, c: char): string
    requires parts != []
  {
    if |parts| == 1 then parts[0] else parts[0] + [c] + Join(parts[1..], c)
  }

  /**
   * `strings.Split(s, string(c))`: the maximal runs of `s` between separators,
   * one more part than there are separators (so `""` splits into `[""]`).
   */
  function Split(s: string, c: char): (parts: seq<string>)
    ensures |parts| == Count(s, c) + 1
    ensures forall k :: 0 <= k < |parts| ==> c !in parts[k]
    ensures Join(parts, c) == s
  {
    if s == [] then [""]
    else
      var rest := Split(s[1..], c);
      if s[0] == c then [""] + rest
      else
        assert s == [s[0]] + s[1..];
        [[s[0]] + rest[0]] + rest[1..]
  }

  /** Splitting undoes joining when no part contains the separator. */
  lemma {:induction false} SplitJoin(parts: seq<string>, c: char)
    requires parts != []
    requires forall k :: 0 <= k < |parts| ==> c !in parts[k]
    ensures Split(Join(parts, c), c) == parts
    decreases |parts|, |parts[0]|
  {
    if |parts| == 1 {
      SplitNoSeparator(parts[0], c);
    } else if parts[0] == [] {
      var tail := Join(parts[1..], c);
      assert Join(parts, c) == [c] + tail;
      assert ([c] + tail)[1..] == tail;
      SplitJoin(parts[1..], c);
      assert parts == [""] + parts[1..];
    } else {
      var s := Join(parts, c);
      var shorter := [parts[0][1..]] + parts[1..];
      assert Join(shorter, c) == s[1..] by {
        assert s == [parts[0][0]] + (parts[0][1..] + [c] + Join(parts[1..], c));
      }
      assert forall k :: 0 <= k < |shorter| ==> c !in shorter[k] by {
        assert shorter[1..] == parts[1..];
      }
      SplitJoin(shorter, c);
      assert s[0] == parts[0][0] && s[0] != c;
      assert [s[0]] + parts[0][1..] == parts[0];
      assert parts == [parts[0]] + shorter[1..];
    }
  }

  lemma {:induction false} SplitNoSeparator(s: string, c: char)
    requires c !in s
    ensures Split(s, c) == [s]
  {
    if s != [] {
      assert s[0] != c;
      assert c !in s[1..];
      SplitNoSeparator(s[1..], c);
      assert [s[0]] + s[1..] == s;
    }
  }

  /** `strings.IndexByte`: the first position of `c` in `s`, or -1. */
  function IndexOf(s: string, c: char): (i: int)
    ensures -1 <= i < |s|
  {
    if s == [] then -1
    else if s[0] == c then 0
    else
      var k := IndexOf(s[1..], c);
      if k == -1 then -1 else k + 1
  }

  /** `IndexOf` finds the first occurrence, and -1 means there is none. */
  lemma {:induction false} IndexOfFirst(s: string, c: char)
    ensures IndexOf(s, c) == -1 <==> c !in s
    ensures IndexOf(s, c) >= 0 ==> s[IndexOf(s, c)] == c && c !in s[..IndexOf(s, c)]
  {
    if s != [] && s[0] != c {
      IndexOfFirst(s[1..], c);
      var k := IndexOf(s[1..], c);
      assert s == [s[0]] + s[1..];
      if k != -1 {
        assert s[..k + 1] == [s[0]] + s[1..][..k];
      }
    }
  }

  /** Splitting at the first separator: the text before it, then the split of the rest. */
  lemma {:induction false} SplitAtFirst(s: string, c: char)
    requires IndexOf(s, c) >= 0
    ensures Split(s, c) == [s[..IndexOf(s, c)]] + Split(s[IndexOf(s, c) + 1..], c)
  {
    if s[0] != c {
      SplitAtFirst(s[1..], c);
      var k := IndexOf(s[1..], c);
      assert s[1..][k + 1..] == s[k + 2..];
      assert s[..k + 1] == [s[0]] + s[1..][..k];
    }
  }

  /** Without a separator, `Split` yields the whole string. */
  lemma SplitWhole(s: string, c: char)
    requires IndexOf(s, c) == -1
    ensures Split(s, c) == [s]
  {
    IndexOfFirst(s, c);
    SplitNoSeparator(s, c);
  }

  predicate IsDigit(ch: char) { '0' <= ch <= '9' }

  predicate AllDigits(s: string) { forall k :: 0 <= k < |s| ==> IsDigit(s[k]) }

  function DigitValue(ch: char): nat
    requires IsDigit(ch)
  {
    (ch as int) - ('0' as int)
  }

  function DigitChar(d: nat): (ch: char)
    requires d < 10
    ensures IsDigit(ch) && DigitValue(ch) == d
  {
    ('0' as int + d) as char
  }

  /** The number a run of decimal digits denotes (leading zeros allowed). */
  function DigitsValue(s: string): nat
    requires AllDigits(s)
  {
    if s == [] then 0 else 10 * DigitsValue(s[..|s| - 1]) + DigitValue(s[|s| - 1])
  }

  /**
   * `strconv.Atoi` for a 64-bit `int`: an optional `+` or `-`, then at least one
   * decimal digit and nothing else, with the value inside the `int64` range.
   */
  function Atoi(s: string): (r: Option<Int64>)
    ensures r.Some? ==> s != [] && (IsDigit(s[0]) || s[0] == '+' || s[0] == '-')
    ensures r.Some? && s[0] == '-' ==> r.value <= 0
    ensures r.Some? && s[0] != '-' ==> r.value >= 0
  {
    if s == [] then None
    else
      var signed := s[0] == '+' || s[0] == '-';
      var digits := if signed then s[1..] else s;
      if digits == [] || !AllDigits(digits) then None
      else
        var n: int := DigitsValue(digits);
        var v: int := if s[0] == '-' then -n else n;
        if INT64_MIN <= v <= INT64_MAX then Some(v) else None
  }

  /** Decimal digits of a natural number, most significant first, no leading zero. */
  function NatDigits(n: nat): (s: string)
    ensures s != [] && AllDigits(s)
    ensures |s| > 1 ==> s[0] != '0'
    ensures DigitsValue(s) == n
  {
    if n < 10 then [DigitChar(n)]
    else
      var s := NatDigits(n / 10) + [DigitChar(n % 10)];
      assert s[..|s| - 1] == NatDigits(n / 10);
      s
  }

  /** `%d` formatting of an integer: a minus sign for negatives, then its digits. */
  function FormatInt(n: int): (s: string)
    ensures n < 0 <==> (s != [] && s[0] == '-')
    ensures '.' !in s && ',' !in s
  {
    if n < 0 then "-" + NatDigits(-n) else NatDigits(n)
  }

  /** Parsing what `%d` printed gives the number back. */
  lemma AtoiFormatInt(n: Int64)
    ensures Atoi(FormatInt(n)) == Some(n)
  {
    var m: int := n;
    var s := FormatInt(m);
    if m < 0 {
      assert s[1..] == NatDigits(-m);
    }
  }
}
