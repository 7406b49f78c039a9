// The pieces of the .NET base library that the application's rules lean on:
// string.Trim, string.IsNullOrEmpty, ordinal Contains, string.Split on one
// character, long.TryParse / int.Parse with NumberStyles.Integer, and
// long.ToString in the invariant format.
module DotNetText {
  import opened Wrappers

  const LongMin: int := -0x8000_0000_0000_0000
  const LongMax: int := 0x7FFF_FFFF_FFFF_FFFF
  const IntMin: int := -0x8000_0000
  const IntMax: int := 0x7FFF_FFFF

  predicate InLongRange(n: int)
  {
    LongMin <= n <= LongMax
  }

  /** string.IsNullOrEmpty; None stands for a null reference. */
  predicate IsNullOrEmpty(s: Option<string>)
  {
    s.None? || s.value == ""
  }

  /** `s ?? ""` */
  function OrEmpty(s: Option<string>): string
  {
    s.GetOr("")
  }

  /** char.IsWhiteSpace: the Unicode space separators, line and paragraph
      separators, and U+0009..U+000D, U+0085, U+00A0. */
  predicate IsWhiteSpace(c: char)
  {
    ('\U{9}' <= c <= '\U{D}') || c == ' ' || c == '\U{85}' || c == '\U{A0}'
    || c == '\U{1680}' || ('\U{2000}' <= c <= '\U{200A}') || c == '\U{2028}'
    || c == '\U{2029}' || c == '\U{202F}' || c == '\U{205F}' || c == '\U{3000}'
  }

  /** Number of white-space characters at the start of s. */
  function LeadingWhite(s: string): (n: nat)
    ensures n <= |s|
    ensures forall i :: 0 <= i < n ==> IsWhiteSpace(s[i])
    ensures n == |s| || !IsWhiteSpace(s[n])
  {
    if s == [] || !IsWhiteSpace(s[0]) then 0 else 1 + LeadingWhite(s[1..])
  }

  /** Number of white-space characters at the end of s. */
  function TrailingWhite(s: string): (n: nat)
    ensures n <= |s|
    ensures forall i :: |s| - n <= i < |s| ==> IsWhiteSpace(s[i])
    ensures n == |s| || !IsWhiteSpace(s[|s| - n - 1])
  {
    if s == [] || !IsWhiteSpace(s[|s| - 1]) then 0
    else 1 + TrailingWhite(s[..|s| - 1])
  }

  /** string.Trim(): the longest slice of s that neither starts nor ends with
      white space, obtained by dropping white space at both ends. */
  function Trim(s: string): (r: string)
    ensures |r| <= |s| - LeadingWhite(s)
    ensures r == s[LeadingWhite(s)..LeadingWhite(s) + |r|]
    ensures forall i :: LeadingWhite(s) + |r| <= i < |s| ==> IsWhiteSpace(s[i])
    ensures r == [] || (!IsWhiteSpace(r[0]) && !IsWhiteSpace(r[|r| - 1]))
    ensures r == [] <==> forall i :: 0 <= i < |s| ==> IsWhiteSpace(s[i])
  {
    var rest := s[LeadingWhite(s)..];
    rest[..|rest| - TrailingWhite(rest)]
  }

  lemma TrimIdempotent(s: string)
    ensures Trim(Trim(s)) == Trim(s)
  {
    var t := Trim(s);
    assert LeadingWhite(t) == 0;
    assert TrailingWhite(t) == 0;
  }

  /** Ordinal string.Contains(string). */
  predicate Contains(s: string, sub: string)
  {
    exists i :: 0 <= i <= |s| && IsPrefix(sub, s[i..])
  }

  predicate IsPrefix(p: string, t: string)
  {
    |p| <= |t| && t[..|p|] == p
  }

  lemma ContainsEmpty(s: string)
    ensures Contains(s, "")
  {
    assert IsPrefix("", s[0..]);
  }

  /** A per-character case mapping applied to a whole string, as
      string.ToLower() does; the mapping itself is culture data. */
  function MapChars(f: char -> char, s: string): (r: string)
    ensures |r| == |s|
    ensures forall i :: 0 <= i < |s| ==> r[i] == f(s[i])
  {
    seq(|s|, i requires 0 <= i < |s| => f(s[i]))
  }

  // ---------------------------------------------------------------------
  // string.Split(char)

  function CountChar(s: string, c: char): nat
  {
    if s == [] then 0 else (if s[0] == c then 1 else 0) + CountChar(s[1..], c)
  }

  /** string.Split(sep): the pieces between separators, empty pieces kept. */
  function Split(s: string, sep: char): (parts: seq<string>)
    ensures |parts| == CountChar(s, sep) + 1
    ensures forall k :: 0 <= k < |parts| ==> sep !in parts[k]
  {
    if s == [] then [""]
    else
      var tail := Split(s[1..], sep);
      if s[0] == sep then [""] + tail
      else [[s[0]] + tail[0]] + tail[1..]
  }

  function Join(parts: seq<string>, sep: char): string
    requires |parts| >= 1
  {
    if |parts| == 1 then parts[0] else parts[0] + [sep] + Join(parts[1..], sep)
  }

  lemma {:induction false} JoinSplit(s: string, sep: char)
    ensures Join(Split(s, sep), sep) == s
  {
    if s != [] {
      JoinSplit(s[1..], sep);
      var tail := Split(s[1..], sep);
      if s[0] == sep {
        assert Split(s, sep)[1..] == tail;
      } else {
        var parts := Split(s, sep);
        if |tail| == 1 {
          assert parts == [[s[0]] + tail[0]];
        } else {
          assert parts[1..] == tail[1..];
          assert Join(tail, sep) == tail[0] + [sep] + Join(tail[1..], sep);
        }
      }
    }
  }

  // ---------------------------------------------------------------------
  // long.TryParse / int.Parse with NumberStyles.Integer:
  //   [ws][sign]digits[ws], ws one of U+0009..U+000D or U+0020.

  predicate IsNumberSpace(c: char)
  {
    '\U{9}' <= c <= '\U{D}' || c == ' '
  }

  predicate IsDigit(c: char)
  {
    '0' <= c <= '9'
  }

  predicate AllDigits(s: string)
  {
    forall i :: 0 <= i < |s| ==> IsDigit(s[i])
  }

  function DigitValue(c: char): nat
    requires IsDigit(c)
  {
    c as int - '0' as int
  }

  function DigitChar(d: nat): (c: char)
    requires d < 10
    ensures IsDigit(c) && DigitValue(c) == d
  {
    ('0' as int + d) as char
  }

  /** The value of a run of decimal digits, most significant first. */
  function DigitsValue(ds: string): nat
    requires AllDigits(ds)
  {
    if ds == [] then 0
    else DigitsValue(ds[..|ds| - 1]) * 10 + DigitValue(ds[|ds| - 1])
  }

  function LeadingNumberSpace(s: string): (n: nat)
    ensures n <= |s|
    ensures forall i :: 0 <= i < n ==> IsNumberSpace(s[i])
    ensures n == |s| || !IsNumberSpace(s[n])
  {
    if s == [] || !IsNumberSpace(s[0]) then 0 else 1 + LeadingNumberSpace(s[1..])
  }

  function TrailingNumberSpace(s: string): (n: nat)
    ensures n <= |s|
    ensures forall i :: |s| - n <= i < |s| ==> IsNumberSpace(s[i])
    ensures n == |s| || !IsNumberSpace(s[|s| - n - 1])
  {
    if s == [] || !IsNumberSpace(s[|s| - 1]) then 0
    else 1 + TrailingNumberSpace(s[..|s| - 1])
  }

  /** The signed value written by `body` (white space already removed):
      an optional '+' or '-' followed by at least one digit. */
  function SignedDigits(body: string): (r: Option<int>)
    ensures r.Some? ==> body != [] && (body[0] == '-' || body[0] == '+' || IsDigit(body[0]))
  {
    if body == [] then None
    else if body[0] == '-' || body[0] == '+' then
      var ds := body[1..];
      if ds != [] && AllDigits(ds) then
        var v: int := DigitsValue(ds);
        Some(if body[0] == '-' then -v else v)
      else None
    else if AllDigits(body) then Some(DigitsValue(body))
    else None
  }

  /** s without the white space NumberStyles.Integer allows around a number. */
  function NumberBody(s: string): string
  {
    var rest := s[LeadingNumberSpace(s)..];
    rest[..|rest| - TrailingNumberSpace(rest)]
  }

  /** Integer parsing of s into [lo, hi]; None where .NET's TryParse returns
      false (and where int.Parse throws). */
  function TryParseInteger(s: string, lo: int, hi: int): (r: Option<int>)
    ensures r.Some? ==> lo <= r.value <= hi
  {
    match SignedDigits(NumberBody(s))
    case Some(v) => if lo <= v <= hi then Some(v) else None
    case None => None
  }

  function TryParseLong(s: string): (r: Option<int>)
    ensures r.Some? ==> InLongRange(r.value)
  {
    TryParseInteger(s, LongMin, LongMax)
  }

  function TryParseInt(s: string): (r: Option<int>)
    ensures r.Some? ==> IntMin <= r.value <= IntMax
  {
    TryParseInteger(s, IntMin, IntMax)
  }

  /** `long.TryParse(s, out v) ? v : 0` */
  function ParseLongOrZero(s: string): int
  {
    TryParseLong(s).GetOr(0)
  }

  // ---------------------------------------------------------------------
  // long.ToString()

  /** Decimal digits of n without leading zeros. */
  function NatToDigits(n: nat): (ds: string)
    ensures ds != [] && AllDigits(ds)
    ensures DigitsValue(ds) == n
    decreases n
  {
    if n < 10 then [DigitChar(n)]
    else
      var ds := NatToDigits(n / 10) + [DigitChar(n % 10)];
      assert ds[..|ds| - 1] == NatToDigits(n / 10);
      ds
  }

  function LongToString(n: int): (s: string)
  {
    if n < 0 then "-" + NatToDigits(-n) else NatToDigits(n)
  }

  lemma NumberBodyUnpadded(s: string)
    requires s != [] && !IsNumberSpace(s[0]) && !IsNumberSpace(s[|s| - 1])
    ensures NumberBody(s) == s
  {
    assert LeadingNumberSpace(s) == 0;
    assert s[0..] == s;
    assert TrailingNumberSpace(s) == 0;
  }

  lemma SignedDigitsOfString(n: int)
    ensures SignedDigits(LongToString(n)) == Some(n)
  {
    var s := LongToString(n);
    if n < 0 {
      assert s[1..] == NatToDigits(-n);
    }
  }

  /** long.TryParse reads back what long.ToString wrote. */
  lemma ParseLongToString(n: int)
    requires InLongRange(n)
    ensures TryParseLong(LongToString(n)) == Some(n)
  {
    var s := LongToString(n);
    NumberBodyUnpadded(s);
    SignedDigitsOfString(n);
  }
}
