// What SaveToStream writes, ParseElement reads back: the reader and the
// writer of SimpleJSON are inverse on trees whose numbers print as number
// text and whose objects have distinct, non-empty keys, in both layouts.
module JsonRoundTrip {
  import opened Wrappers
  import opened JsonText
  import opened Json
  import opened JsonLayout

  // ---------------------------------------------------------------------
  // Runs of characters the readers skip or take

  lemma {:induction false} SkipSeparatorsRun(text: string, i: nat, k: nat)
    requires Seps(text, i, k)
    ensures SkipSeparators(text, i) == SkipSeparators(text, k)
    decreases k - i
  {
    if i < k {
      SkipSeparatorsRun(text, i + 1, k);
    }
  }

  lemma SkipItems(text: string, i: nat, k: nat, acc: seq<Json>, fmt: NumberFormat)
    requires Seps(text, i, k)
    ensures ParseItems(text, i, acc, fmt) == ParseItems(text, k, acc, fmt)
  {
    SkipSeparatorsRun(text, i, k);
  }

  lemma SkipMembers(text: string, i: nat, k: nat, acc: seq<Member>, fmt: NumberFormat)
    requires Seps(text, i, k)
    ensures ParseMembers(text, i, acc, fmt) == ParseMembers(text, k, acc, fmt)
  {
    SkipSeparatorsRun(text, i, k);
  }

  /** JSONNumber.Parse stops at the end of a run of number characters. */
  lemma {:induction false} NumberEndRun(text: string, i: nat, e: nat)
    requires i <= e <= |text|
    requires forall j :: i <= j < e ==> IsNumberChar(text[j])
    requires NoNumberAt(text, e)
    ensures NumberEnd(text, i) == e
    decreases e - i
  {
    if i < e {
      NumberEndRun(text, i + 1, e);
    }
  }

  lemma WordAtSaved(text: string, i: nat, word: string)
    requires At(text, i, word)
    requires forall k :: 0 <= k < |word| ==> 'a' <= word[k] <= 'z'
    ensures WordAt(text, i, word)
  {
    AtLength(text, i, word);
    forall k | 0 <= k < |word|
      ensures LowerAscii(text[i + k]) == word[k]
    {
      AtChar(text, i, word, k);
    }
  }

  // ---------------------------------------------------------------------
  // The readers of the leaves

  lemma ParseWordAt(n: Json, mode: Mode, fmt: NumberFormat, text: string, i: nat)
    requires n.JNull? || n.JBool?
    requires Laid(text, i, n, mode, fmt)
    ensures i < |text| && StartsElement(text[i])
    ensures ParseWord(text, i) == Ok((n, i + Width(n, mode, fmt)))
  {
    var word := if n.JNull? then "null" else if n.b then "true" else "false";
    AtChar(text, i, word, 0);
    WordAtSaved(text, i, word);
    if n == JBool(false) {
      assert LowerAscii(text[i + 0]) != "true"[0];
    }
  }

  lemma ParseNumberAt(x: real, fmt: NumberFormat, text: string, i: nat)
    requires NumberTextOk(fmt, x)
    requires At(text, i, fmt.show(x))
    requires NoNumberAt(text, i + |fmt.show(x)|)
    ensures i < |text| && (text[i] == '-' || IsDigit(text[i]))
    ensures ParseNumber(text, i, fmt) == (JNumber(x), i + |fmt.show(x)|)
  {
    var t := fmt.show(x);
    AtSlice(text, i, t);
    forall j | i <= j < i + |t|
      ensures IsNumberChar(text[j])
    {
      AtChar(text, i, t, j - i);
    }
    AtChar(text, i, t, 0);
    NumberEndRun(text, i, i + |t|);
  }

  /** The quoted text of a string, read by JSONString.Parse from the opening
      quote at i. */
  lemma ParseStringAt(s: string, text: string, i: nat, end: nat)
    requires At(text, i, "\"" + (Escaped(s) + "\""))
    requires end == i + |Escaped(s)| + 2
    ensures i < |text| && text[i] == '"'
    ensures ParseString(text, i) == Ok((s, end))
  {
    var e := Escaped(s);
    var q := i + 1 + |e|;
    AtChar(text, i, "\"" + (e + "\""), 0);
    AtSplit(text, i, "\"", e + "\"");
    AtSlice(text, i + 1, e + "\"");
    assert text[i + 1..q + 1] == e + "\"";
    StringEndOfEscaped(text, i + 1, s, q);
    assert text[i + 1..q] == e by {
      assert text[i + 1..q] == (e + "\"")[..|e|];
    }
    UnEscapeEscape(s);
    assert end == q + 1;
  }


  // ---------------------------------------------------------------------
  // One step of each reader, stated apart so that the proofs below need not
  // unfold the readers themselves.

  lemma ElementOpensArray(text: string, i: nat, fmt: NumberFormat)
    requires i < |text| && text[i] == '['
    ensures ParseElement(text, i, fmt) == ParseItems(text, i + 1, [], fmt)
  {
    assert SkipSpace(text, i) == i;
  }

  lemma ElementOpensObject(text: string, i: nat, fmt: NumberFormat)
    requires i < |text| && text[i] == '{'
    ensures ParseElement(text, i, fmt) == ParseMembers(text, i + 1, [], fmt)
  {
    assert SkipSpace(text, i) == i;
  }

  lemma ElementWord(text: string, i: nat, fmt: NumberFormat)
    requires i < |text| && (text[i] == 'n' || text[i] == 't' || text[i] == 'f')
    ensures ParseElement(text, i, fmt) == ParseWord(text, i)
  {
    assert SkipSpace(text, i) == i;
  }

  lemma ElementNumber(text: string, i: nat, fmt: NumberFormat)
    requires i < |text| && (text[i] == '-' || IsDigit(text[i]))
    ensures ParseElement(text, i, fmt) == Ok(ParseNumber(text, i, fmt))
  {
    assert SkipSpace(text, i) == i;
  }

  lemma ElementString(text: string, i: nat, fmt: NumberFormat, s: string, e: nat)
    requires i < |text| && text[i] == '"'
    requires ParseString(text, i) == Ok((s, e))
    ensures ParseElement(text, i, fmt) == Ok((JString(s), e))
  {
    assert SkipSpace(text, i) == i;
  }

  lemma ItemsStep(text: string, j: nat, acc: seq<Json>, fmt: NumberFormat, x: Json, next: nat)
    requires j < |text| && StartsElement(text[j])
    requires ParseElement(text, j, fmt) == Ok((x, next))
    ensures ParseItems(text, j, acc, fmt) == ParseItems(text, next, acc + [x], fmt)
  {
    assert SkipSeparators(text, j) == j;
  }

  lemma MembersStep(text: string, j: nat, acc: seq<Member>, fmt: NumberFormat, key: string, x: Json, colon: nat, v: nat, next: nat)
    requires j < |text| && text[j] == '"'
    requires ParseString(text, j) == Ok((key, colon))
    requires colon < |text| && text[colon] == ':'
    requires v == colon + 1 && ParseElement(text, v, fmt) == Ok((x, next))
    ensures ParseMembers(text, j, acc, fmt) == ParseMembers(text, next, AddMember(acc, key, x), fmt)
  {
    assert SkipSeparators(text, j) == j;
    assert ColonAt(text, colon) == Ok(colon);
  }

  lemma EmptyAppend<T>(s: seq<T>)
    ensures [] + s == s
  {
  }

  lemma ConsAppend<T>(acc: seq<T>, s: seq<T>)
    requires s != []
    ensures acc + [s[0]] + s[1..] == acc + s
  {
  }

  /** The member the reader adds next is appended: its key is non-empty and
      no earlier member has it. */
  lemma AddNextMember(acc: seq<Member>, m: Member)
    requires m.key != "" && m.key !in Keys(acc)
    ensures AddMember(acc, m.key, m.value) == acc + [m]
    ensures Keys(acc + [m]) == Keys(acc) + [m.key]
  {
    SetMemberNew(acc, m.key, m.value);
  }

  // ---------------------------------------------------------------------
  // Offsets in the saved text and the facts the proofs below pass along.
  // Each is a single predicate so that a fact one lemma ensures is the very
  // fact the next one requires.

  predicate ElementLaidAt(text: string, i: nat, n: Json, mode: Mode, fmt: NumberFormat)
  {
    Reparsable(n, fmt) && Laid(text, i, n, mode, fmt) && NoNumberAt(text, After(i, n, mode, fmt))
  }

  predicate ItemsLaidAt(text: string, i: nat, items: seq<Json>, mode: Mode, fmt: NumberFormat, first: bool)
  {
    ItemsReparsable(items, fmt) && LaidItems(text, i, items, mode, fmt, first)
  }

  predicate MembersLaidAt(text: string, i: nat, members: seq<Member>, seen: seq<string>, mode: Mode, fmt: NumberFormat, first: bool)
  {
    MembersReparsable(members, seen, fmt) && LaidMembers(text, i, members, mode, fmt, first)
  }

  predicate ReadsElement(text: string, i: nat, n: Json, mode: Mode, fmt: NumberFormat)
  {
    ParseElement(text, i, fmt) == Ok((n, After(i, n, mode, fmt)))
  }

  predicate ReadsItems(text: string, i: nat, acc: seq<Json>, items: seq<Json>, mode: Mode, fmt: NumberFormat, first: bool)
  {
    ParseItems(text, i, acc, fmt) == Ok((JArray(acc + items), i + ItemsWidth(items, mode, fmt, first) + 1))
  }

  predicate ReadsMembers(text: string, i: nat, acc: seq<Member>, members: seq<Member>, mode: Mode, fmt: NumberFormat, first: bool)
  {
    ParseMembers(text, i, acc, fmt) == Ok((JObject(acc + members), i + MembersWidth(members, mode, fmt, first) + 1))
  }

  // ---------------------------------------------------------------------
  // One level of the layout taken apart, and one step of the readers put
  // together

  /** The opening bracket or brace at i and the separators after it. */
  predicate OpensAt(text: string, i: nat, c: char, mode: Mode)
  {
    i < |text| && text[i] == c && Seps(text, i + 1, i + 1 + |NewLine(mode)|)
  }

  lemma ArrayReadsFrom(text: string, i: nat, m: nat, mode: Mode, fmt: NumberFormat)
    requires OpensAt(text, i, '[', mode) && m == i + 1 + |NewLine(mode)|
    ensures ParseElement(text, i, fmt) == ParseItems(text, m, [], fmt)
  {
    ElementOpensArray(text, i, fmt);
    SkipItems(text, i + 1, m, [], fmt);
  }

  lemma ObjectReadsFrom(text: string, i: nat, m: nat, mode: Mode, fmt: NumberFormat)
    requires OpensAt(text, i, '{', mode) && m == i + 1 + |NewLine(mode)|
    ensures ParseElement(text, i, fmt) == ParseMembers(text, m, [], fmt)
  {
    ElementOpensObject(text, i, fmt);
    SkipMembers(text, i + 1, m, [], fmt);
  }

  lemma ArrayWidth(i: nat, m: nat, items: seq<Json>, mode: Mode, fmt: NumberFormat)
    requires m == i + 1 + |NewLine(mode)|
    ensures After(i, JArray(items), mode, fmt) == m + ItemsWidth(items, mode, fmt, true) + 1
  {
  }

  lemma ObjectWidth(i: nat, m: nat, members: seq<Member>, mode: Mode, fmt: NumberFormat)
    requires m == i + 1 + |NewLine(mode)|
    ensures After(i, JObject(members), mode, fmt) == m + MembersWidth(members, mode, fmt, true) + 1
  {
  }

  lemma ArrayOpen(text: string, i: nat, items: seq<Json>, mode: Mode, fmt: NumberFormat)
    requires ElementLaidAt(text, i, JArray(items), mode, fmt)
    ensures OpensAt(text, i, '[', mode)
    ensures ItemsLaidAt(text, i + 1 + |NewLine(mode)|, items, mode, fmt, true)
  {
  }

  lemma ArrayClose(text: string, i: nat, items: seq<Json>, mode: Mode, fmt: NumberFormat)
    requires OpensAt(text, i, '[', mode)
    requires ReadsItems(text, i + 1 + |NewLine(mode)|, [], items, mode, fmt, true)
    ensures ReadsElement(text, i, JArray(items), mode, fmt)
  {
    var m := i + 1 + |NewLine(mode)|;
    ArrayReadsFrom(text, i, m, mode, fmt);
    EmptyAppend(items);
    ArrayWidth(i, m, items, mode, fmt);
  }

  lemma ObjectOpen(text: string, i: nat, members: seq<Member>, mode: Mode, fmt: NumberFormat)
    requires ElementLaidAt(text, i, JObject(members), mode, fmt)
    ensures OpensAt(text, i, '{', mode)
    ensures MembersLaidAt(text, i + 1 + |NewLine(mode)|, members, Keys([]), mode, fmt, true)
  {
    assert Keys([]) == [];
  }

  lemma ObjectClose(text: string, i: nat, members: seq<Member>, mode: Mode, fmt: NumberFormat)
    requires OpensAt(text, i, '{', mode)
    requires ReadsMembers(text, i + 1 + |NewLine(mode)|, [], members, mode, fmt, true)
    ensures ReadsElement(text, i, JObject(members), mode, fmt)
  {
    var m := i + 1 + |NewLine(mode)|;
    ObjectReadsFrom(text, i, m, mode, fmt);
    EmptyAppend(members);
    ObjectWidth(i, m, members, mode, fmt);
  }

  /** The closing bracket of an array: the reader stops right after it. */
  lemma ItemsClose(text: string, i: nat, acc: seq<Json>, items: seq<Json>, mode: Mode, fmt: NumberFormat, first: bool)
    requires items == [] && ItemsLaidAt(text, i, items, mode, fmt, first)
    ensures ReadsItems(text, i, acc, items, mode, fmt, first)
  {
    assert SkipSeparators(text, i) == i;
    assert acc + items == acc;
  }

  lemma MembersClose(text: string, i: nat, acc: seq<Member>, members: seq<Member>, mode: Mode, fmt: NumberFormat, first: bool)
    requires members == [] && MembersLaidAt(text, i, members, Keys(acc), mode, fmt, first)
    ensures ReadsMembers(text, i, acc, members, mode, fmt, first)
  {
    assert SkipSeparators(text, i) == i;
    assert acc + members == acc;
  }

  lemma ItemsHead(text: string, i: nat, items: seq<Json>, mode: Mode, fmt: NumberFormat, first: bool)
    requires items != [] && ItemsLaidAt(text, i, items, mode, fmt, first)
    ensures ElementLaidAt(text, EntryAt(i, mode, first), items[0], mode, fmt)
    ensures ItemsLaidAt(text, After(EntryAt(i, mode, first), items[0], mode, fmt), items[1..], mode, fmt, false)
    ensures EntryStartsAt(text, i, mode, first)
  {
  }

  lemma MembersHead(text: string, i: nat, acc: seq<Member>, members: seq<Member>, mode: Mode, fmt: NumberFormat, first: bool)
    requires members != [] && MembersLaidAt(text, i, members, Keys(acc), mode, fmt, first)
    ensures ElementLaidAt(text, ValueAt(i, members[0].key, mode, first), members[0].value, mode, fmt)
    ensures MembersLaidAt(text, After(ValueAt(i, members[0].key, mode, first), members[0].value, mode, fmt),
                          members[1..], Keys(acc + [members[0]]), mode, fmt, false)
  {
    AddNextMember(acc, members[0]);
  }

  /** The separators before the next entry of an array and the first
      character of that entry. */
  predicate EntryStartsAt(text: string, i: nat, mode: Mode, first: bool)
  {
    var j := EntryAt(i, mode, first);
    Seps(text, i, j) && j < |text| && StartsElement(text[j])
  }

  lemma ItemsReadStep(text: string, i: nat, acc: seq<Json>, x: Json, mode: Mode, fmt: NumberFormat, first: bool)
    requires EntryStartsAt(text, i, mode, first)
    requires ReadsElement(text, EntryAt(i, mode, first), x, mode, fmt)
    ensures ParseItems(text, i, acc, fmt) == ParseItems(text, After(EntryAt(i, mode, first), x, mode, fmt), acc + [x], fmt)
  {
    var j := EntryAt(i, mode, first);
    SkipItems(text, i, j, acc, fmt);
    ItemsStep(text, j, acc, fmt, x, After(j, x, mode, fmt));
  }

  lemma ItemsWidthStep(i: nat, items: seq<Json>, mode: Mode, fmt: NumberFormat, first: bool)
    requires items != []
    ensures i + ItemsWidth(items, mode, fmt, first) + 1
         == After(EntryAt(i, mode, first), items[0], mode, fmt) + ItemsWidth(items[1..], mode, fmt, false) + 1
  {
  }

  /** An entry of an array read and appended, then the rest read. */
  lemma ItemsGlue(text: string, i: nat, acc: seq<Json>, items: seq<Json>, mode: Mode, fmt: NumberFormat, first: bool)
    requires items != [] && EntryStartsAt(text, i, mode, first)
    requires ReadsElement(text, EntryAt(i, mode, first), items[0], mode, fmt)
    requires ReadsItems(text, After(EntryAt(i, mode, first), items[0], mode, fmt), acc + [items[0]], items[1..], mode, fmt, false)
    ensures ReadsItems(text, i, acc, items, mode, fmt, first)
  {
    ItemsReadStep(text, i, acc, items[0], mode, fmt, first);
    ConsAppend(acc, items);
    ItemsWidthStep(i, items, mode, fmt, first);
  }

  /** The quoted key of the next member and its colon, where the reader
      finds them; the key is new to the members read so far. */
  predicate KeyAt(text: string, i: nat, acc: seq<Member>, key: string, mode: Mode, first: bool)
  {
    var j := EntryAt(i, mode, first);
    var colon := ColonPos(i, key, mode, first);
    Seps(text, i, j) && j < |text| && text[j] == '"' && ParseString(text, j) == Ok((key, colon))
    && colon < |text| && text[colon] == ':' && key != "" && key !in Keys(acc)
  }

  lemma MembersKeyHead(text: string, i: nat, acc: seq<Member>, members: seq<Member>, mode: Mode, fmt: NumberFormat, first: bool)
    requires members != [] && MembersLaidAt(text, i, members, Keys(acc), mode, fmt, first)
    ensures KeyAt(text, i, acc, members[0].key, mode, first)
  {
    ParseStringAt(members[0].key, text, EntryAt(i, mode, first), ColonPos(i, members[0].key, mode, first));
  }

  lemma MembersReadStep(text: string, i: nat, acc: seq<Member>, key: string, x: Json, mode: Mode, fmt: NumberFormat, first: bool)
    requires KeyAt(text, i, acc, key, mode, first)
    requires ReadsElement(text, ValueAt(i, key, mode, first), x, mode, fmt)
    ensures ParseMembers(text, i, acc, fmt)
         == ParseMembers(text, After(ValueAt(i, key, mode, first), x, mode, fmt), AddMember(acc, key, x), fmt)
  {
    var j := EntryAt(i, mode, first);
    var v := ValueAt(i, key, mode, first);
    SkipMembers(text, i, j, acc, fmt);
    MembersStep(text, j, acc, fmt, key, x, ColonPos(i, key, mode, first), v, After(v, x, mode, fmt));
  }

  lemma MembersWidthStep(i: nat, members: seq<Member>, mode: Mode, fmt: NumberFormat, first: bool)
    requires members != []
    ensures i + MembersWidth(members, mode, fmt, first) + 1
         == After(ValueAt(i, members[0].key, mode, first), members[0].value, mode, fmt)
            + MembersWidth(members[1..], mode, fmt, false) + 1
  {
  }

  /** A member of an object read and added, then the rest read. */
  lemma MembersGlue(text: string, i: nat, acc: seq<Member>, members: seq<Member>, mode: Mode, fmt: NumberFormat, first: bool)
    requires members != [] && KeyAt(text, i, acc, members[0].key, mode, first)
    requires ReadsElement(text, ValueAt(i, members[0].key, mode, first), members[0].value, mode, fmt)
    requires ReadsMembers(text, After(ValueAt(i, members[0].key, mode, first), members[0].value, mode, fmt),
                          acc + [members[0]], members[1..], mode, fmt, false)
    ensures ReadsMembers(text, i, acc, members, mode, fmt, first)
  {
    MembersReadStep(text, i, acc, members[0].key, members[0].value, mode, fmt, first);
    AddNextMember(acc, members[0]);
    ConsAppend(acc, members);
    MembersWidthStep(i, members, mode, fmt, first);
  }

  // ---------------------------------------------------------------------
  // Each element read back from the text it is laid out in

  lemma WordLeafAt(n: Json, mode: Mode, fmt: NumberFormat, text: string, i: nat)
    requires n.JNull? || n.JBool?
    requires ElementLaidAt(text, i, n, mode, fmt)
    ensures ReadsElement(text, i, n, mode, fmt)
  {
    ParseWordAt(n, mode, fmt, text, i);
    ElementWord(text, i, fmt);
  }

  lemma NumberLeafAt(x: real, mode: Mode, fmt: NumberFormat, text: string, i: nat)
    requires ElementLaidAt(text, i, JNumber(x), mode, fmt)
    ensures ReadsElement(text, i, JNumber(x), mode, fmt)
  {
    ParseNumberAt(x, fmt, text, i);
    ElementNumber(text, i, fmt);
  }

  lemma StringLeafAt(s: string, mode: Mode, fmt: NumberFormat, text: string, i: nat)
    requires ElementLaidAt(text, i, JString(s), mode, fmt)
    ensures ReadsElement(text, i, JString(s), mode, fmt)
  {
    ParseStringAt(s, text, i, After(i, JString(s), mode, fmt));
    ElementString(text, i, fmt, s, After(i, JString(s), mode, fmt));
  }

  lemma {:induction false} ParseLaid(n: Json, mode: Mode, fmt: NumberFormat, text: string, i: nat)
    requires ElementLaidAt(text, i, n, mode, fmt)
    ensures ReadsElement(text, i, n, mode, fmt)
    decreases Size(n), 0
  {
    match n
    case JArray(items) => ParseArrayLaid(items, mode, fmt, text, i);
    case JObject(members) => ParseObjectLaid(members, mode, fmt, text, i);
    case JNull => WordLeafAt(n, mode, fmt, text, i);
    case JBool(_) => WordLeafAt(n, mode, fmt, text, i);
    case JNumber(x) => NumberLeafAt(x, mode, fmt, text, i);
    case JString(s) => StringLeafAt(s, mode, fmt, text, i);
  }

  lemma {:induction false} ParseArrayLaid(items: seq<Json>, mode: Mode, fmt: NumberFormat, text: string, i: nat)
    requires ElementLaidAt(text, i, JArray(items), mode, fmt)
    ensures ReadsElement(text, i, JArray(items), mode, fmt)
    decreases ItemsSize(items), 2
  {
    ArrayOpen(text, i, items, mode, fmt);
    ParseItemsLaid(items, true, [], mode, fmt, text, i + 1 + |NewLine(mode)|);
    ArrayClose(text, i, items, mode, fmt);
  }

  lemma {:induction false} ParseObjectLaid(members: seq<Member>, mode: Mode, fmt: NumberFormat, text: string, i: nat)
    requires ElementLaidAt(text, i, JObject(members), mode, fmt)
    ensures ReadsElement(text, i, JObject(members), mode, fmt)
    decreases MembersSize(members), 2
  {
    ObjectOpen(text, i, members, mode, fmt);
    ParseMembersLaid(members, true, [], mode, fmt, text, i + 1 + |NewLine(mode)|);
    ObjectClose(text, i, members, mode, fmt);
  }

  lemma {:induction false} ParseItemsLaid(items: seq<Json>, first: bool, acc: seq<Json>, mode: Mode, fmt: NumberFormat, text: string, i: nat)
    requires ItemsLaidAt(text, i, items, mode, fmt, first)
    ensures ReadsItems(text, i, acc, items, mode, fmt, first)
    decreases ItemsSize(items), 1
  {
    if items == [] {
      ItemsClose(text, i, acc, items, mode, fmt, first);
    } else {
      ItemsSizeHead(items);
      var j := EntryAt(i, mode, first);
      ItemsHead(text, i, items, mode, fmt, first);
      ParseLaid(items[0], mode, fmt, text, j);
      ParseItemsLaid(items[1..], false, acc + [items[0]], mode, fmt, text, After(j, items[0], mode, fmt));
      ItemsGlue(text, i, acc, items, mode, fmt, first);
    }
  }

  lemma {:induction false} ParseMembersLaid(members: seq<Member>, first: bool, acc: seq<Member>, mode: Mode, fmt: NumberFormat, text: string, i: nat)
    requires MembersLaidAt(text, i, members, Keys(acc), mode, fmt, first)
    ensures ReadsMembers(text, i, acc, members, mode, fmt, first)
    decreases MembersSize(members), 1
  {
    if members == [] {
      MembersClose(text, i, acc, members, mode, fmt, first);
    } else {
      MembersSizeHead(members);
      var v := ValueAt(i, members[0].key, mode, first);
      MembersHead(text, i, acc, members, mode, fmt, first);
      MembersKeyHead(text, i, acc, members, mode, fmt, first);
      ParseLaid(members[0].value, mode, fmt, text, v);
      ParseMembersLaid(members[1..], false, acc + [members[0]], mode, fmt, text, After(v, members[0].value, mode, fmt));
      MembersGlue(text, i, acc, members, mode, fmt, first);
    }
  }

  /** JSONNode.Parse(node.ToString()) gives the tree back, compact or
      indented. */
  lemma ParseSave(n: Json, mode: Mode, fmt: NumberFormat)
    requires Reparsable(n, fmt)
    ensures Parse(Save(n, mode, fmt), fmt) == Ok(n)
  {
    var text := Save(n, mode, fmt);
    AtSuffix(text, 0);
    assert text[0..] == text;
    LaidSave(n, mode, fmt, text, 0);
    SaveWidth(n, mode, fmt);
    ParseLaid(n, mode, fmt, text, 0);
  }
}
