// SimpleJSON's node tree as a value, its writer (SaveToStream in the compact
// and the indented mode) and its reader (ParseElement and the Parse methods of
// JSONObject, JSONArray, JSONString, JSONNumber, JSONBool and JSONNull), read
// as functions of the text and the offset the C# code passes by reference.
module Json {
  import opened Wrappers
  import opened JsonText

  // Error messages of the exceptions the C# code throws.
  const ExpectedQuote: string := "Expected '\"' in JSON string"
  const ExpectedColon: string := "Expected ':' in JSON string"
  const ExpectedNull: string := "Expected 'null' in JSON string"
  const ExpectedBool: string := "Expected 'true' or 'false' in JSON string"
  const InvalidCharacter: string := "Invalid character encountered in JSON string"

  /** A JSONNode tree. Objects list their members in enumeration order. */
  datatype Json =
    | JNull
    | JBool(b: bool)
    | JNumber(n: real)
    | JString(s: string)
    | JArray(items: seq<Json>)
    | JObject(members: seq<Member>)

  datatype Member = Member(key: string, value: Json)

  datatype Mode = Compact | Indent

  /** JSONNumber holds a double: `show` is its Value getter
      (double.ToString with the invariant culture) and `read` the parse its
      Value setter performs (double.TryParse with NumberStyles.Float). Binary
      floating point itself is not modelled; a real stands for the double. */
  datatype NumberFormat = NumberFormat(show: real -> string, read: string -> Option<real>)

  // ---------------------------------------------------------------------
  // Object members

  function Keys(members: seq<Member>): (ks: seq<string>)
    ensures |ks| == |members|
    ensures forall i :: 0 <= i < |members| ==> ks[i] == members[i].key
  {
    seq(|members|, i requires 0 <= i < |members| => members[i].key)
  }

  function MaxLength(keys: seq<string>): (m: nat)
    ensures forall i :: 0 <= i < |keys| ==> |keys[i]| <= m
  {
    if keys == [] then 0
    else
      var rest := MaxLength(keys[1..]);
      assert forall i :: 1 <= i < |keys| ==> keys[i] == keys[1..][i - 1];
      if |keys[0]| > rest then |keys[0]| else rest
  }

  /** Stands for Guid.NewGuid().ToString(), which JSONObject.Add uses as the
      key of a member added under an empty key: a key of no member yet. */
  function FreshKey(keys: seq<string>): (k: string)
    ensures k != "" && k !in keys
  {
    seq(MaxLength(keys) + 1, _ => '#')
  }

  /** The indexer's setter: an existing key keeps its position and gets the
      new value, a new key is appended. */
  function SetMember(members: seq<Member>, key: string, v: Json): seq<Member>
  {
    if members == [] then [Member(key, v)]
    else if members[0].key == key then [Member(key, v)] + members[1..]
    else [members[0]] + SetMember(members[1..], key, v)
  }

  /** JSONObject.Add(key, item) on an object with no removals yet. */
  function AddMember(members: seq<Member>, key: string, v: Json): seq<Member>
  {
    SetMember(members, if key == "" then FreshKey(Keys(members)) else key, v)
  }

  /** Setting a key no member has appends a member; the others keep their
      order. */
  lemma {:induction false} SetMemberNew(members: seq<Member>, key: string, v: Json)
    requires key !in Keys(members)
    ensures SetMember(members, key, v) == members + [Member(key, v)]
  {
    if members != [] {
      assert Keys(members[1..]) == Keys(members)[1..];
      SetMemberNew(members[1..], key, v);
      assert members == [members[0]] + members[1..];
    }
  }

  /** Setting the key of member p replaces that member's value in place. */
  lemma {:induction false} SetMemberExisting(members: seq<Member>, p: nat, v: Json)
    requires p < |members|
    requires forall q :: 0 <= q < p ==> members[q].key != members[p].key
    ensures SetMember(members, members[p].key, v) == members[p := Member(members[p].key, v)]
  {
    if p > 0 {
      var rest := members[1..];
      assert rest[p - 1] == members[p];
      SetMemberExisting(rest, p - 1, v);
      assert members[p := Member(members[p].key, v)] == [members[0]] + rest[p - 1 := Member(members[p].key, v)];
    }
  }

  /** Add keeps every earlier key and adds at most the new one, so the
      members of an object built by Add have distinct keys. */
  lemma {:induction false} AddMemberKeys(members: seq<Member>, key: string, v: Json)
    requires forall a, b :: 0 <= a < b < |members| ==> members[a].key != members[b].key
    ensures var r := AddMember(members, key, v);
      forall a, b :: 0 <= a < b < |r| ==> r[a].key != r[b].key
    ensures key != "" ==> key in Keys(AddMember(members, key, v))
    ensures forall k :: k in Keys(members) ==> k in Keys(AddMember(members, key, v))
  {
    var k := if key == "" then FreshKey(Keys(members)) else key;
    if k in Keys(members) {
      var p :| 0 <= p < |members| && members[p].key == k;
      SetMemberExisting(members, p, v);
      assert Keys(members[p := Member(k, v)]) == Keys(members);
    } else {
      SetMemberNew(members, k, v);
      assert Keys(members + [Member(k, v)]) == Keys(members) + [k];
    }
  }

  // ---------------------------------------------------------------------
  // SaveToStream

  function NewLine(mode: Mode): string
  {
    if mode == Indent then "\n" else ""
  }

  /** WriteIndent(aWriter, 1): one tab, whatever the depth. */
  function Tab(mode: Mode): string
  {
    if mode == Indent then "\t" else ""
  }

  /** What comes before an entry: a comma and a line break after the first,
      then the indent. */
  function Separator(mode: Mode, first: bool): string
  {
    (if first then "" else "," + NewLine(mode)) + Tab(mode)
  }

  function Save(n: Json, mode: Mode, fmt: NumberFormat): string
    decreases n
  {
    match n
    case JNull => "null"
    case JBool(b) => if b then "true" else "false"
    case JNumber(x) => fmt.show(x)
    case JString(s) => "\"" + Escaped(s) + "\""
    case JArray(items) => "[" + NewLine(mode) + SaveItems(items, mode, fmt, true) + "]"
    case JObject(members) => "{" + NewLine(mode) + SaveMembers(members, mode, fmt, true) + "}"
  }

  function SaveItems(items: seq<Json>, mode: Mode, fmt: NumberFormat, first: bool): string
    decreases items
  {
    if items == [] then ""
    else Separator(mode, first) + Save(items[0], mode, fmt) + SaveItems(items[1..], mode, fmt, false)
  }

  /** WriteLabel: the escaped key in quotes and a colon. */
  function Label(key: string): string
  {
    "\"" + Escaped(key) + "\":"
  }

  function SaveMembers(members: seq<Member>, mode: Mode, fmt: NumberFormat, first: bool): string
    decreases members
  {
    if members == [] then ""
    else
      Separator(mode, first) + Label(members[0].key) + Save(members[0].value, mode, fmt)
      + SaveMembers(members[1..], mode, fmt, false)
  }

  // ---------------------------------------------------------------------
  // Parsing

  /** The white space ParseElement and the container parsers skip. */
  predicate IsJsonSpace(c: char)
  {
    c == ' ' || c == '\t' || c == '\r' || c == '\n'
  }

  predicate IsDigit(c: char)
  {
    '0' <= c <= '9'
  }

  /** The characters JSONNumber.Parse takes into a number. */
  predicate IsNumberChar(c: char)
  {
    IsDigit(c) || c == '.' || c == '-' || c == '+' || c == 'e' || c == 'E'
  }

  function LowerAscii(c: char): char
  {
    if 'A' <= c <= 'Z' then (c as int + 32) as char else c
  }

  /** `text.Substring(i, |word|).ToLower() == word` for a lower-case ASCII
      word, false when the text is too short. */
  predicate WordAt(text: string, i: nat, word: string)
  {
    i + |word| <= |text| && forall j :: 0 <= j < |word| ==> LowerAscii(text[i + j]) == word[j]
  }

  /** JSONNumber.Parse: the longest run of number characters from i; the
      node's value is whatever double.TryParse makes of it, 0 when it fails. */
  function NumberEnd(text: string, i: nat): (e: nat)
    ensures i <= e
    ensures i < |text| && IsNumberChar(text[i]) ==> i < e
    ensures e <= |text| || e == i
    ensures forall j :: i <= j < e ==> j < |text| && IsNumberChar(text[j])
    ensures e < |text| ==> !IsNumberChar(text[e])
    decreases |text| - i
  {
    if i < |text| && IsNumberChar(text[i]) then NumberEnd(text, i + 1) else i
  }

  function ParseNumber(text: string, i: nat, fmt: NumberFormat): (r: (Json, nat))
    ensures r.0.JNumber? && i <= r.1
  {
    var e := NumberEnd(text, i);
    var lexeme := if e <= |text| then text[i..e] else "";
    (JNumber(fmt.read(lexeme).GetOr(0.0)), e)
  }

  /** JSONString.Parse: skips the character at i (the opening quote), reads
      up to the closing quote and unescapes what lies between. */
  function ParseString(text: string, i: nat): (r: Result<(string, nat)>)
    ensures r.Ok? ==> i + 2 <= r.value.1 <= |text|
  {
    match StringEnd(text, i + 1)
    case None => Err(ExpectedQuote)
    case Some(e) =>
      match UnEscaped(text[i + 1..e])
      case Ok(s) => Ok((s, e + 1))
      case Err(msg) => Err(msg)
  }

  /** The loop in JSONObject.Parse that looks for the colon after a key. */
  function ColonAt(text: string, i: nat): (r: Result<nat>)
    ensures r.Ok? ==> i <= r.value < |text| && text[r.value] == ':'
    decreases |text| - i
  {
    if i >= |text| then Err(IndexOutOfRange)
    else if text[i] == ':' then Ok(i)
    else if IsJsonSpace(text[i]) then ColonAt(text, i + 1)
    else Err(ExpectedColon)
  }

  /** JSONBool.Parse and JSONNull.Parse: the words are matched ignoring
      case, "true" before "false". */
  function ParseWord(text: string, i: nat): (r: Result<(Json, nat)>)
    ensures r.Ok? ==> i < r.value.1 <= |text|
  {
    if i < |text| && text[i] == 'n' then
      if WordAt(text, i, "null") then Ok((JNull, i + 4))
      else Err(ExpectedNull)
    else if WordAt(text, i, "true") then Ok((JBool(true), i + 4))
    else if WordAt(text, i, "false") then Ok((JBool(false), i + 5))
    else Err(ExpectedBool)
  }

  /** The first character of an element, as ParseElement dispatches on it. */
  predicate StartsElement(c: char)
  {
    c == '{' || c == '[' || c == '"' || c == '-' || IsDigit(c) || c == 't' || c == 'f' || c == 'n'
  }

  /** The white space ParseElement skips before an element. */
  function SkipSpace(text: string, i: nat): (k: nat)
    ensures i <= k
    ensures k < |text| ==> !IsJsonSpace(text[k])
    decreases |text| - i
  {
    if i < |text| && IsJsonSpace(text[i]) then SkipSpace(text, i + 1) else i
  }

  /** What the loops of JSONObject.Parse and JSONArray.Parse skip between
      entries: white space and commas. */
  predicate IsSeparator(c: char)
  {
    IsJsonSpace(c) || c == ','
  }

  function SkipSeparators(text: string, i: nat): (k: nat)
    ensures i <= k
    ensures k < |text| ==> !IsSeparator(text[k])
    decreases |text| - i
  {
    if i < |text| && IsSeparator(text[i]) then SkipSeparators(text, i + 1) else i
  }

  /** ParseElement: skip white space, then read the element that starts
      there. */
  function ParseElement(text: string, i: nat, fmt: NumberFormat): (r: Result<(Json, nat)>)
    ensures r.Ok? ==> i < r.value.1 <= |text|
    decreases |text| - i, 1
  {
    var k := SkipSpace(text, i);
    if k >= |text| then Err(IndexOutOfRange)
    else ParseValue(text, k, fmt)
  }

  /** The dispatch of ParseElement on the first character of an element. */
  function ParseValue(text: string, k: nat, fmt: NumberFormat): (r: Result<(Json, nat)>)
    requires k < |text|
    ensures r.Ok? ==> k < r.value.1 <= |text|
    decreases |text| - k, 0
  {
    var ch := text[k];
    if !StartsElement(ch) then Err(InvalidCharacter)
    else if ch == '{' then ParseMembers(text, k + 1, [], fmt)
    else if ch == '[' then ParseItems(text, k + 1, [], fmt)
    else if ch == '"' then
      match ParseString(text, k)
      case Ok((s, e)) => Ok((JString(s), e))
      case Err(msg) => Err(msg)
    else if ch == '-' || IsDigit(ch) then Ok(ParseNumber(text, k, fmt))
    else ParseWord(text, k)
  }

  /** The loop of JSONObject.Parse after the opening brace, with the members
      read so far: separators are skipped, a closing brace ends the object,
      anything else starts a member. */
  function ParseMembers(text: string, i: nat, acc: seq<Member>, fmt: NumberFormat): (r: Result<(Json, nat)>)
    ensures r.Ok? ==> i < r.value.1 <= |text|
    decreases |text| - i, 3
  {
    var j := SkipSeparators(text, i);
    if j >= |text| then Err(IndexOutOfRange)
    else if text[j] == '}' then Ok((JObject(acc), j + 1))
    else ParseMember(text, j, acc, fmt)
  }

  /** One member of the loop of JSONObject.Parse, from its quoted key: the
      colon, the value, then the rest of the object. A key seen before
      replaces that member's value. */
  function ParseMember(text: string, j: nat, acc: seq<Member>, fmt: NumberFormat): (r: Result<(Json, nat)>)
    ensures r.Ok? ==> j < r.value.1 <= |text|
    decreases |text| - j, 2
  {
    match ParseString(text, j)
    case Err(msg) => Err(msg)
    case Ok((key, afterKey)) =>
      match ColonAt(text, afterKey)
      case Err(msg) => Err(msg)
      case Ok(colon) =>
        match ParseElement(text, colon + 1, fmt)
        case Err(msg) => Err(msg)
        case Ok((v, next)) => ParseMembers(text, next, AddMember(acc, key, v), fmt)
  }

  /** The loop of JSONArray.Parse after the opening bracket. */
  function ParseItems(text: string, i: nat, acc: seq<Json>, fmt: NumberFormat): (r: Result<(Json, nat)>)
    ensures r.Ok? ==> i < r.value.1 <= |text|
    decreases |text| - i, 2
  {
    var j := SkipSeparators(text, i);
    if j >= |text| then Err(IndexOutOfRange)
    else if text[j] == ']' then Ok((JArray(acc), j + 1))
    else
      match ParseElement(text, j, fmt)
      case Err(msg) => Err(msg)
      case Ok((v, next)) => ParseItems(text, next, acc + [v], fmt)
  }

  /** JSONNode.Parse: the element at offset 0; text after it is ignored. */
  function Parse(text: string, fmt: NumberFormat): Result<Json>
  {
    match ParseElement(text, 0, fmt)
    case Ok((n, _)) => Ok(n)
    case Err(msg) => Err(msg)
  }
}
