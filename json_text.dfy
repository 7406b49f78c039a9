// The string layer of SimpleJSON: JSONNode.Escape, which writes a string's
// contents between quotes, and JSONString.UnEscape, which reads them back,
// including the `\uXXXX` form read through Convert.ToInt32(hex, 16).
module JsonText {
  import opened Wrappers

  // Error messages of the exceptions the C# code throws.
  const IndexOutOfRange: string := "index out of range"
  const SubstringOutOfRange: string := "substring out of range"
  const BadHexEscape: string := "bad hexadecimal escape"
  const SurrogateCodeUnit: string := "surrogate code unit"

  const Backspace: char := '\U{8}'
  const FormFeed: char := '\U{C}'

  /** The seven characters Escape rewrites. */
  predicate IsEscaped(c: char)
  {
    c == '\\' || c == '"' || c == '\n' || c == '\r' || c == '\t' || c == Backspace || c == FormFeed
  }

  /** The letter that follows the backslash in the escape of c. */
  function EscapeLetter(c: char): (l: char)
    requires IsEscaped(c)
    ensures l != 'u'
  {
    if c == '\n' then 'n'
    else if c == '\r' then 'r'
    else if c == '\t' then 't'
    else if c == Backspace then 'b'
    else if c == FormFeed then 'f'
    else c
  }

  /** What Escape writes for one character. */
  function EscapeChar(c: char): (r: string)
    ensures IsEscaped(c) ==> r == ['\\', EscapeLetter(c)]
    ensures !IsEscaped(c) ==> r == [c]
  {
    if IsEscaped(c) then ['\\', EscapeLetter(c)] else [c]
  }

  /** The text Escape produces: each character's escape, in order. */
  function Escaped(s: string): string
  {
    if s == [] then [] else EscapeChar(s[0]) + Escaped(s[1..])
  }

  lemma {:induction false} EscapedConcat(a: string, b: string)
    ensures Escaped(a + b) == Escaped(a) + Escaped(b)
  {
    if a == [] {
      assert a + b == b;
    } else {
      assert (a + b)[1..] == a[1..] + b;
      EscapedConcat(a[1..], b);
    }
  }

  /** JSONNode.Escape: one pass over the text appending to a builder. */
  method Escape(text: string) returns (r: string)
    ensures r == Escaped(text)
  {
    r := "";
    var i := 0;
    while i < |text|
      invariant 0 <= i <= |text|
      invariant r == Escaped(text[..i])
    {
      EscapedConcat(text[..i], [text[i]]);
      assert text[..i + 1] == text[..i] + [text[i]];
      r := r + EscapeChar(text[i]);
      i := i + 1;
    }
    assert text[..i] == text;
  }

  /** Escape never lets a bare quote through: every quote it writes is the
      second character of a two-character escape, so the reader's scan for the
      closing quote cannot stop inside escaped text. */
  lemma {:induction false} EscapedHasNoBareQuote(s: string)
    ensures StringEnd(Escaped(s) + ['"'], 0) == Some(|Escaped(s)|)
  {
    if s != [] {
      var head, tail := EscapeChar(s[0]), Escaped(s[1..]);
      assert Escaped(s) == head + tail;
      EscapedHasNoBareQuote(s[1..]);
      StringEndShift(head, tail + ['"']);
      assert Escaped(s) + ['"'] == head + (tail + ['"']);
    }
  }

  // ---------------------------------------------------------------------
  // The scan in JSONString.Parse

  /** The index of the first quote at or after i that is not skipped by a
      backslash, as JSONString.Parse's loop finds it; None when the text ends
      first (the parser then throws). */
  function StringEnd(text: string, i: nat): (r: Option<nat>)
    ensures r.Some? ==> i <= r.value < |text| && text[r.value] == '"'
    decreases |text| - i
  {
    if i >= |text| then None
    else if text[i] == '\\' then StringEnd(text, i + 2)
    else if text[i] == '"' then Some(i)
    else StringEnd(text, i + 1)
  }

  /** One character's escape, as the scan sees it: a plain character other
      than a quote or backslash, or a backslash and the character it skips. */
  predicate IsToken(head: string)
  {
    (|head| == 1 && head[0] != '"' && head[0] != '\\') || (|head| == 2 && head[0] == '\\')
  }

  /** A token scanned without stopping moves the scan forward by its length. */
  lemma StringEndShift(head: string, rest: string)
    requires IsToken(head)
    ensures StringEnd(head + rest, 0) ==
      match StringEnd(rest, 0)
      case Some(j) => Some(j + |head|)
      case None => None
  {
    var text := head + rest;
    assert text[|head|..] == rest;
    StringEndAt(text, |head|, |head|);
  }

  lemma {:induction false} StringEndAt(text: string, k: nat, i: nat)
    requires k <= i <= |text|
    ensures StringEnd(text, i) ==
      match StringEnd(text[k..], i - k)
      case Some(j) => Some(j + k)
      case None => None
    decreases |text| - i
  {
    var t := text[k..];
    if i < |text| {
      assert t[i - k] == text[i];
      if text[i] == '\\' {
        if i + 2 <= |text| {
          StringEndAt(text, k, i + 2);
        } else {
          assert StringEnd(text, i + 2) == None;
          assert StringEnd(t, i - k + 2) == None;
        }
      } else if text[i] != '"' {
        StringEndAt(text, k, i + 1);
      }
    }
  }

  /** Text after the closing quote does not change where the scan stops. */
  lemma {:induction false} StringEndPrefix(u: string, w: string, i: nat)
    requires StringEnd(u, i).Some?
    ensures StringEnd(u + w, i) == StringEnd(u, i)
    decreases |u| - i
  {
    var t := u + w;
    assert t[i] == u[i];
    if u[i] == '\\' {
      StringEndPrefix(u, w, i + 2);
    } else if u[i] != '"' {
      StringEndPrefix(u, w, i + 1);
    }
  }

  /** A token whose closing quote the scan finds is found the same way
      inside a longer text. */
  lemma StringEndInside(text: string, p: nat, u: string)
    requires p + |u| <= |text| && text[p..p + |u|] == u
    requires StringEnd(u, 0).Some?
    ensures StringEnd(text, p) == Some(p + StringEnd(u, 0).value)
  {
    var w := text[p + |u|..];
    assert text[p..] == u + w;
    StringEndPrefix(u, w, 0);
    StringEndAt(text, p, p);
  }

  /** Where a text holds Escaped(s) and a quote from index p on, the scan from
      p stops at that quote. */
  lemma StringEndOfEscaped(text: string, p: nat, s: string, q: nat)
    requires q == p + |Escaped(s)| && q < |text|
    requires text[p..q + 1] == Escaped(s) + ['"']
    ensures StringEnd(text, p) == Some(q)
  {
    EscapedHasNoBareQuote(s);
    StringEndInside(text, p, Escaped(s) + ['"']);
  }

  // ---------------------------------------------------------------------
  // UnEscape

  predicate IsHexDigit(c: char)
  {
    '0' <= c <= '9' || 'a' <= c <= 'f' || 'A' <= c <= 'F'
  }

  function HexDigitValue(c: char): (v: nat)
    requires IsHexDigit(c)
    ensures v < 16
  {
    if '0' <= c <= '9' then c as int - '0' as int
    else if 'a' <= c <= 'f' then c as int - 'a' as int + 10
    else c as int - 'A' as int + 10
  }

  function HexValue(ds: string): nat
    requires forall i :: 0 <= i < |ds| ==> IsHexDigit(ds[i])
  {
    if ds == [] then 0 else HexValue(ds[..|ds| - 1]) * 16 + HexDigitValue(ds[|ds| - 1])
  }

  lemma {:induction false} HexValueBound(ds: string)
    requires forall i :: 0 <= i < |ds| ==> IsHexDigit(ds[i])
    ensures HexValue(ds) < Pow16(|ds|)
  {
    if ds != [] {
      HexValueBound(ds[..|ds| - 1]);
    }
  }

  function Pow16(n: nat): nat
  {
    if n == 0 then 1 else 16 * Pow16(n - 1)
  }

  /** Convert.ToInt32(hex, 16): an optional '+' (a '-' throws), an optional
      "0x"/"0X", then one or more hexadecimal digits and nothing else. */
  function HexToInt(hex: string): (r: Option<nat>)
    ensures r.Some? ==> r.value < Pow16(|hex|)
  {
    if hex != [] && hex[0] == '-' then None
    else
      var afterSign := if hex != [] && hex[0] == '+' then hex[1..] else hex;
      var digits :=
        if |afterSign| >= 2 && afterSign[0] == '0' && (afterSign[1] == 'x' || afterSign[1] == 'X')
        then afterSign[2..] else afterSign;
      if digits != [] && forall i :: 0 <= i < |digits| ==> IsHexDigit(digits[i]) then
        HexValueBound(digits);
        PowMonotone(|digits|, |hex|);
        Some(HexValue(digits))
      else None
  }

  lemma {:induction false} PowMonotone(a: nat, b: nat)
    requires a <= b
    ensures Pow16(a) <= Pow16(b)
    decreases b
  {
    if a < b {
      PowMonotone(a, b - 1);
    }
  }

  /** The code unit a `\u` escape names, as a char; a surrogate code unit has
      no char of its own here. */
  function CodeUnit(v: nat): Option<char>
  {
    if v < 0xD800 || (0xDFFF < v < 0x11_0000) then Some(v as char) else None
  }

  /** The character an escape letter stands for (other than 'u'): the letters
      of Escape map back, and any other character stands for itself. */
  function UnEscapeLetter(l: char): char
  {
    if l == 'n' then '\n'
    else if l == 'r' then '\r'
    else if l == 't' then '\t'
    else if l == 'b' then Backspace
    else if l == 'f' then FormFeed
    else l
  }

  function Prepend(p: string, r: Result<string>): Result<string>
  {
    match r
    case Ok(s) => Ok(p + s)
    case Err(e) => Err(e)
  }

  /** JSONString.UnEscape from index i: Err where the C# code throws (a
      backslash at the very end, a `\u` with fewer than four characters after
      it, four characters Convert.ToInt32 rejects). */
  function UnEscapeFrom(t: string, i: nat): Result<string>
    decreases |t| - i
  {
    if i >= |t| then Ok("")
    else if t[i] != '\\' then Prepend([t[i]], UnEscapeFrom(t, i + 1))
    else if i + 1 >= |t| then Err(IndexOutOfRange)
    else if t[i + 1] != 'u' then Prepend([UnEscapeLetter(t[i + 1])], UnEscapeFrom(t, i + 2))
    else if i + 6 > |t| then Err(SubstringOutOfRange)
    else
      match HexToInt(t[i + 2..i + 6])
      case None => Err(BadHexEscape)
      case Some(v) =>
        match CodeUnit(v)
        case None => Err(SurrogateCodeUnit)
        case Some(c) => Prepend([c], UnEscapeFrom(t, i + 6))
  }

  function UnEscaped(t: string): Result<string>
  {
    UnEscapeFrom(t, 0)
  }

  /** JSONString.UnEscape: the loop over the text with a builder. */
  method UnEscape(t: string) returns (r: Result<string>)
    ensures r == UnEscaped(t)
  {
    var sb := "";
    var i := 0;
    if UnEscapeFrom(t, 0).Ok? {
      assert "" + UnEscapeFrom(t, 0).value == UnEscapeFrom(t, 0).value;
    }
    while i < |t|
      invariant 0 <= i <= |t|
      invariant UnEscapeFrom(t, 0) == Prepend(sb, UnEscapeFrom(t, i))
      decreases |t| - i
    {
      var ch := t[i];
      if ch == '\\' {
        if i + 1 >= |t| {
          return Err(IndexOutOfRange);
        }
        ch := t[i + 1];
        if ch == 'u' {
          if i + 6 > |t| {
            return Err(SubstringOutOfRange);
          }
          var v := HexToInt(t[i + 2..i + 6]);
          if v.None? {
            return Err(BadHexEscape);
          }
          var c := CodeUnit(v.value);
          if c.None? {
            return Err(SurrogateCodeUnit);
          }
          PrependTwice(sb, [c.value], UnEscapeFrom(t, i + 6));
          sb := sb + [c.value];
          i := i + 6;
        } else {
          PrependTwice(sb, [UnEscapeLetter(ch)], UnEscapeFrom(t, i + 2));
          sb := sb + [UnEscapeLetter(ch)];
          i := i + 2;
        }
      } else {
        PrependTwice(sb, [ch], UnEscapeFrom(t, i + 1));
        sb := sb + [ch];
        i := i + 1;
      }
    }
    r := Ok(sb);
    assert sb + "" == sb;
  }

  lemma PrependTwice(a: string, b: string, r: Result<string>)
    ensures Prepend(a, Prepend(b, r)) == Prepend(a + b, r)
  {
    if r.Ok? {
      assert a + (b + r.value) == (a + b) + r.value;
    }
  }

  /** Reading from index i of a text that starts with Escaped(s) at i. */
  lemma {:induction false} UnEscapeEscapedAt(s: string, t: string, i: nat)
    requires i + |Escaped(s)| == |t| && t[i..] == Escaped(s)
    ensures UnEscapeFrom(t, i) == Ok(s)
    decreases |s|
  {
    if s == [] {
    } else {
      var head := EscapeChar(s[0]);
      assert Escaped(s) == head + Escaped(s[1..]);
      var j := i + |head|;
      assert t[j..] == Escaped(s[1..]);
      UnEscapeEscapedAt(s[1..], t, j);
      assert t[i] == head[0];
      if IsEscaped(s[0]) {
        assert t[i + 1] == EscapeLetter(s[0]);
        assert UnEscapeLetter(EscapeLetter(s[0])) == s[0];
      }
      assert [s[0]] + s[1..] == s;
    }
  }

  /** UnEscape inverts Escape on every string. */
  lemma UnEscapeEscape(s: string)
    ensures UnEscaped(Escaped(s)) == Ok(s)
  {
    UnEscapeEscapedAt(s, Escaped(s), 0);
  }
}
