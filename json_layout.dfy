// Where SaveToStream puts things: the text a tree is saved as, described
// position by position, so that the proofs about the reader never need to
// take the saved string apart.
module JsonLayout {
  import opened Wrappers
  import opened JsonText
  import opened Json

  // ---------------------------------------------------------------------
  // A string held by a text from some index on

  /** The text holds s from index i on, character by character. */
  predicate At(text: string, i: nat, s: string)
    decreases |s|
  {
    if s == [] then i <= |text|
    else i < |text| && text[i] == s[0] && At(text, i + 1, s[1..])
  }

  lemma {:induction false} AtLength(text: string, i: nat, s: string)
    requires At(text, i, s)
    ensures i + |s| <= |text|
    decreases |s|
  {
    if s != [] {
      AtLength(text, i + 1, s[1..]);
    }
  }

  lemma {:induction false} AtSplit(text: string, i: nat, a: string, b: string)
    requires At(text, i, a + b)
    ensures At(text, i, a) && At(text, i + |a|, b)
    decreases |a|
  {
    if a == [] {
      assert a + b == b;
    } else {
      assert (a + b)[1..] == a[1..] + b;
      AtSplit(text, i + 1, a[1..], b);
    }
  }

  lemma {:induction false} AtChar(text: string, i: nat, s: string, k: nat)
    requires At(text, i, s) && k < |s|
    ensures i + k < |text| && text[i + k] == s[k]
    decreases k
  {
    if k > 0 {
      AtChar(text, i + 1, s[1..], k - 1);
    }
  }

  /** The slice of the text from i is s. */
  lemma {:induction false} AtSlice(text: string, i: nat, s: string)
    requires At(text, i, s)
    ensures i + |s| <= |text| && text[i..i + |s|] == s
    decreases |s|
  {
    if s != [] {
      AtSlice(text, i + 1, s[1..]);
      assert text[i..i + |s|] == [text[i]] + text[i + 1..i + |s|];
      assert s == [s[0]] + s[1..];
    }
  }

  lemma {:induction false} AtSuffix(text: string, i: nat)
    requires i <= |text|
    ensures At(text, i, text[i..])
    decreases |text| - i
  {
    if i < |text| {
      assert text[i..][1..] == text[i + 1..];
      AtSuffix(text, i + 1);
    }
  }

  /** At with the offset of the second part given as k. */
  lemma AtParts(text: string, i: nat, k: nat, a: string, b: string)
    requires At(text, i, a + b) && k == i + |a|
    ensures At(text, i, a) && At(text, k, b)
  {
    AtSplit(text, i, a, b);
  }

  lemma AtHead(text: string, i: nat, s: string)
    requires At(text, i, s) && s != []
    ensures i < |text| && text[i] == s[0]
  {
  }

  lemma Concat3(text: string, i: nat, a: string, b: string, c: string)
    requires At(text, i, a + (b + c))
    ensures At(text, i, a) && At(text, i + |a|, b) && At(text, i + |a| + |b|, c)
  {
    AtSplit(text, i, a, b + c);
    AtSplit(text, i + |a|, b, c);
  }

  // Regrouping concatenations, stated on plain strings.

  lemma Regroup3(a: string, b: string, c: string)
    ensures a + b + c == a + (b + c)
  {
  }

  lemma Regroup4(a: string, b: string, c: string, d: string)
    ensures a + b + c + d == a + (b + (c + d))
  {
  }

  lemma MemberRegroup(sep: string, e: string, sv: string, rest: string)
    ensures sep + ("\"" + e + "\":") + sv + rest + "}"
         == sep + (("\"" + (e + "\"")) + (":" + (sv + (rest + "}"))))
  {
  }

  // ---------------------------------------------------------------------
  // Trees the reader gives back unchanged

  /** The value's printed form is a number ParseElement dispatches to
      JSONNumber.Parse and that reads back as the same value. */
  predicate NumberTextOk(fmt: NumberFormat, x: real)
  {
    var t := fmt.show(x);
    t != [] && (t[0] == '-' || IsDigit(t[0]))
    && (forall j :: 0 <= j < |t| ==> IsNumberChar(t[j]))
    && fmt.read(t) == Some(x)
  }

  /** A tree the reader gives back unchanged: numbers print as number text,
      and object keys are non-empty (an empty key would be replaced by a
      fresh one) and distinct (a repeated key would overwrite). */
  predicate Reparsable(n: Json, fmt: NumberFormat)
    decreases n
  {
    match n
    case JNumber(x) => NumberTextOk(fmt, x)
    case JArray(items) => ItemsReparsable(items, fmt)
    case JObject(members) => MembersReparsable(members, [], fmt)
    case _ => true
  }

  predicate ItemsReparsable(items: seq<Json>, fmt: NumberFormat)
    decreases items
  {
    items == [] || (Reparsable(items[0], fmt) && ItemsReparsable(items[1..], fmt))
  }

  /** Members whose keys are non-empty and differ from each other and from
      the keys seen before them. */
  predicate MembersReparsable(members: seq<Member>, seen: seq<string>, fmt: NumberFormat)
    decreases members
  {
    members == []
    || (members[0].key != "" && members[0].key !in seen && Reparsable(members[0].value, fmt)
        && MembersReparsable(members[1..], seen + [members[0].key], fmt))
  }

  // ---------------------------------------------------------------------
  // Sizes and widths

  /** The number of nodes of a tree, the measure the mutually recursive
      proofs descend on. */
  function Size(n: Json): (z: nat)
    ensures z >= 1
    decreases n
  {
    match n
    case JArray(items) => 1 + ItemsSize(items)
    case JObject(members) => 1 + MembersSize(members)
    case _ => 1
  }

  function ItemsSize(items: seq<Json>): nat
    decreases items
  {
    if items == [] then 0 else Size(items[0]) + ItemsSize(items[1..])
  }

  function MembersSize(members: seq<Member>): nat
    decreases members
  {
    if members == [] then 0 else Size(members[0].value) + MembersSize(members[1..])
  }

  lemma ItemsSizeHead(items: seq<Json>)
    requires items != []
    ensures Size(items[0]) <= ItemsSize(items) && ItemsSize(items[1..]) < ItemsSize(items)
  {
  }

  lemma MembersSizeHead(members: seq<Member>)
    requires members != []
    ensures Size(members[0].value) <= MembersSize(members) && MembersSize(members[1..]) < MembersSize(members)
  {
  }

  /** The number of characters SaveToStream writes for a tree. */
  function Width(n: Json, mode: Mode, fmt: NumberFormat): nat
    decreases n
  {
    match n
    case JNull => 4
    case JBool(b) => if b then 4 else 5
    case JNumber(x) => |fmt.show(x)|
    case JString(s) => |Escaped(s)| + 2
    case JArray(items) => |NewLine(mode)| + ItemsWidth(items, mode, fmt, true) + 2
    case JObject(members) => |NewLine(mode)| + MembersWidth(members, mode, fmt, true) + 2
  }

  function ItemsWidth(items: seq<Json>, mode: Mode, fmt: NumberFormat, first: bool): nat
    decreases items
  {
    if items == [] then 0
    else |Separator(mode, first)| + Width(items[0], mode, fmt) + ItemsWidth(items[1..], mode, fmt, false)
  }

  function MembersWidth(members: seq<Member>, mode: Mode, fmt: NumberFormat, first: bool): nat
    decreases members
  {
    if members == [] then 0
    else
      |Separator(mode, first)| + |Escaped(members[0].key)| + 3 + Width(members[0].value, mode, fmt)
      + MembersWidth(members[1..], mode, fmt, false)
  }

  lemma {:induction false} SaveWidth(n: Json, mode: Mode, fmt: NumberFormat)
    ensures |Save(n, mode, fmt)| == Width(n, mode, fmt)
    decreases Size(n), 0
  {
    match n
    case JArray(items) => SaveItemsWidth(items, mode, fmt, true);
    case JObject(members) => SaveMembersWidth(members, mode, fmt, true);
    case _ =>
  }

  lemma {:induction false} SaveItemsWidth(items: seq<Json>, mode: Mode, fmt: NumberFormat, first: bool)
    ensures |SaveItems(items, mode, fmt, first)| == ItemsWidth(items, mode, fmt, first)
    decreases ItemsSize(items), 1
  {
    if items != [] {
      ItemsSizeHead(items);
      SaveWidth(items[0], mode, fmt);
      SaveItemsWidth(items[1..], mode, fmt, false);
    }
  }

  lemma {:induction false} SaveMembersWidth(members: seq<Member>, mode: Mode, fmt: NumberFormat, first: bool)
    ensures |SaveMembers(members, mode, fmt, first)| == MembersWidth(members, mode, fmt, first)
    decreases MembersSize(members), 1
  {
    if members != [] {
      MembersSizeHead(members);
      SaveWidth(members[0].value, mode, fmt);
      SaveMembersWidth(members[1..], mode, fmt, false);
    }
  }

  // ---------------------------------------------------------------------
  // The saved text, position by position

  /** Where the entry after a separator starts. */
  function EntryAt(i: nat, mode: Mode, first: bool): nat
  {
    i + |Separator(mode, first)|
  }

  /** Where the colon after the quoted key of a member is. */
  function ColonPos(i: nat, key: string, mode: Mode, first: bool): nat
  {
    EntryAt(i, mode, first) + |Escaped(key)| + 2
  }

  /** Where the value of a member starts, after its quoted key and colon. */
  function ValueAt(i: nat, key: string, mode: Mode, first: bool): nat
  {
    ColonPos(i, key, mode, first) + 1
  }

  /** Where the text of an element laid out at i ends. */
  function After(i: nat, n: Json, mode: Mode, fmt: NumberFormat): nat
  {
    i + Width(n, mode, fmt)
  }

  /** From i to k the text holds only characters the container parsers skip. */
  predicate Seps(text: string, i: nat, k: nat)
  {
    i <= k <= |text| && forall j :: i <= j < k ==> IsSeparator(text[j])
  }

  /** No number character follows at e, so JSONNumber.Parse stops there. */
  predicate NoNumberAt(text: string, e: nat)
  {
    e < |text| ==> !IsNumberChar(text[e])
  }

  /** The text holds the saved form of n from i on: the words and the quoted
      strings as written, and for a container its bracket, its separators,
      its entries where SaveToStream puts them and its closing bracket. */
  predicate Laid(text: string, i: nat, n: Json, mode: Mode, fmt: NumberFormat)
    decreases n
  {
    match n
    case JNull => At(text, i, "null")
    case JBool(b) => At(text, i, if b then "true" else "false")
    case JNumber(x) => At(text, i, fmt.show(x))
    case JString(s) => At(text, i, "\"" + (Escaped(s) + "\""))
    case JArray(items) =>
      i < |text| && text[i] == '[' && Seps(text, i + 1, i + 1 + |NewLine(mode)|)
      && LaidItems(text, i + 1 + |NewLine(mode)|, items, mode, fmt, true)
    case JObject(members) =>
      i < |text| && text[i] == '{' && Seps(text, i + 1, i + 1 + |NewLine(mode)|)
      && LaidMembers(text, i + 1 + |NewLine(mode)|, members, mode, fmt, true)
  }

  predicate LaidItems(text: string, i: nat, items: seq<Json>, mode: Mode, fmt: NumberFormat, first: bool)
    decreases items
  {
    if items == [] then i < |text| && text[i] == ']'
    else
      var j := EntryAt(i, mode, first);
      Seps(text, i, j) && j < |text| && StartsElement(text[j])
      && Laid(text, j, items[0], mode, fmt) && NoNumberAt(text, After(j, items[0], mode, fmt))
      && LaidItems(text, After(j, items[0], mode, fmt), items[1..], mode, fmt, false)
  }

  predicate LaidMembers(text: string, i: nat, members: seq<Member>, mode: Mode, fmt: NumberFormat, first: bool)
    decreases members
  {
    if members == [] then i < |text| && text[i] == '}'
    else
      var j := EntryAt(i, mode, first);
      var e := Escaped(members[0].key);
      var c := ColonPos(i, members[0].key, mode, first);
      var v := ValueAt(i, members[0].key, mode, first);
      Seps(text, i, j) && j < |text| && text[j] == '"' && At(text, j, "\"" + (e + "\""))
      && c < |text| && text[c] == ':'
      && Laid(text, v, members[0].value, mode, fmt) && NoNumberAt(text, After(v, members[0].value, mode, fmt))
      && LaidMembers(text, After(v, members[0].value, mode, fmt), members[1..], mode, fmt, false)
  }

  // ---------------------------------------------------------------------
  // Frames: one level of the saved text taken apart

  lemma SeparatorChars(mode: Mode, first: bool)
    ensures forall j :: 0 <= j < |Separator(mode, first)| ==> IsSeparator(Separator(mode, first)[j])
  {
  }

  lemma SkipAt(text: string, i: nat, s: string)
    requires At(text, i, s)
    requires forall j :: 0 <= j < |s| ==> IsSeparator(s[j])
    ensures Seps(text, i, i + |s|)
  {
    AtLength(text, i, s);
    forall j | i <= j < i + |s|
      ensures IsSeparator(text[j])
    {
      AtChar(text, i, s, j - i);
    }
  }

  /** Every saved element starts with a character ParseElement dispatches on. */
  lemma SaveStarts(n: Json, mode: Mode, fmt: NumberFormat)
    requires Reparsable(n, fmt)
    ensures Save(n, mode, fmt) != [] && StartsElement(Save(n, mode, fmt)[0])
  {
  }

  /** After an entry come more entries (a comma first) or the closing bracket. */
  lemma AfterEntry(items: seq<Json>, mode: Mode, fmt: NumberFormat, close: char)
    ensures var s := SaveItems(items, mode, fmt, false) + [close];
      s[0] == ',' || s[0] == close
  {
  }

  lemma AfterMember(members: seq<Member>, mode: Mode, fmt: NumberFormat, close: char)
    ensures var s := SaveMembers(members, mode, fmt, false) + [close];
      s[0] == ',' || s[0] == close
  {
  }

  /** An opening bracket, a run of separators, then the rest. */
  lemma OpenFrame(text: string, i: nat, open: char, nl: string, rest: string)
    requires At(text, i, [open] + (nl + rest))
    requires forall j :: 0 <= j < |nl| ==> IsSeparator(nl[j])
    ensures i < |text| && text[i] == open
    ensures Seps(text, i + 1, i + 1 + |nl|)
    ensures At(text, i + 1 + |nl|, rest)
  {
    Concat3(text, i, [open], nl, rest);
    AtChar(text, i, [open], 0);
    SkipAt(text, i + 1, nl);
  }

  /** Separators, an element, then what follows it; j and next are where
      the element starts and ends. */
  lemma EntryFrame(text: string, i: nat, j: nat, next: nat, sep: string, sx: string, tail: string)
    requires At(text, i, sep + (sx + tail))
    requires forall k :: 0 <= k < |sep| ==> IsSeparator(sep[k])
    requires sx != [] && tail != [] && !IsNumberChar(tail[0])
    requires j == i + |sep| && next == j + |sx|
    ensures Seps(text, i, j)
    ensures j < |text| && text[j] == sx[0]
    ensures At(text, j, sx)
    ensures At(text, next, tail)
    ensures NoNumberAt(text, next)
  {
    AtParts(text, i, j, sep, sx + tail);
    AtParts(text, j, next, sx, tail);
    SkipAt(text, i, sep);
    AtHead(text, j, sx);
    AtHead(text, next, tail);
  }

  lemma ColonFrame(text: string, k: nat, v: nat, rest: string)
    requires At(text, k, ":" + rest) && v == k + 1
    ensures k < |text| && text[k] == ':' && At(text, v, rest)
  {
    assert (":" + rest)[1..] == rest;
  }

  /** Separators, a quoted key, a colon, a value, then what follows it; j,
      c, v and next are where the key, the colon, the value and what
      follows are. */
  lemma MemberFrame(text: string, i: nat, j: nat, c: nat, v: nat, next: nat, sep: string, e: string, sv: string, tail: string)
    requires At(text, i, sep + (("\"" + (e + "\"")) + (":" + (sv + tail))))
    requires forall k :: 0 <= k < |sep| ==> IsSeparator(sep[k])
    requires tail != [] && !IsNumberChar(tail[0])
    requires j == i + |sep| && c == j + |e| + 2 && v == c + 1 && next == v + |sv|
    ensures Seps(text, i, j)
    ensures j < |text| && text[j] == '"'
    ensures At(text, j, "\"" + (e + "\""))
    ensures c < |text| && text[c] == ':'
    ensures At(text, v, sv)
    ensures At(text, next, tail)
    ensures NoNumberAt(text, next)
  {
    var q := "\"" + (e + "\"");
    AtParts(text, i, j, sep, q + (":" + (sv + tail)));
    AtParts(text, j, c, q, ":" + (sv + tail));
    ColonFrame(text, c, v, sv + tail);
    AtParts(text, v, next, sv, tail);
    SkipAt(text, i, sep);
    AtHead(text, j, q);
    AtHead(text, next, tail);
  }

  /** The saved entries of an array, the first taken off. */
  lemma SaveItemsSplit(items: seq<Json>, mode: Mode, fmt: NumberFormat, first: bool)
    requires items != []
    ensures SaveItems(items, mode, fmt, first) + "]"
         == Separator(mode, first) + (Save(items[0], mode, fmt) + (SaveItems(items[1..], mode, fmt, false) + "]"))
  {
    Regroup4(Separator(mode, first), Save(items[0], mode, fmt), SaveItems(items[1..], mode, fmt, false), "]");
  }

  /** The saved members of an object, the first taken off. */
  lemma SaveMembersSplit(members: seq<Member>, mode: Mode, fmt: NumberFormat, first: bool)
    requires members != []
    ensures SaveMembers(members, mode, fmt, first) + "}"
         == Separator(mode, first) + (("\"" + (Escaped(members[0].key) + "\""))
            + (":" + (Save(members[0].value, mode, fmt) + (SaveMembers(members[1..], mode, fmt, false) + "}"))))
  {
    MemberRegroup(Separator(mode, first), Escaped(members[0].key), Save(members[0].value, mode, fmt),
                  SaveMembers(members[1..], mode, fmt, false));
  }

  lemma ArrayFrame(items: seq<Json>, mode: Mode, fmt: NumberFormat, text: string, i: nat)
    requires At(text, i, Save(JArray(items), mode, fmt))
    ensures i < |text| && text[i] == '['
    ensures Seps(text, i + 1, i + 1 + |NewLine(mode)|)
    ensures At(text, i + 1 + |NewLine(mode)|, SaveItems(items, mode, fmt, true) + "]")
  {
    var body := SaveItems(items, mode, fmt, true);
    Regroup4("[", NewLine(mode), body, "]");
    OpenFrame(text, i, '[', NewLine(mode), body + "]");
  }

  lemma ObjectFrame(members: seq<Member>, mode: Mode, fmt: NumberFormat, text: string, i: nat)
    requires At(text, i, Save(JObject(members), mode, fmt))
    ensures i < |text| && text[i] == '{'
    ensures Seps(text, i + 1, i + 1 + |NewLine(mode)|)
    ensures At(text, i + 1 + |NewLine(mode)|, SaveMembers(members, mode, fmt, true) + "}")
  {
    var body := SaveMembers(members, mode, fmt, true);
    Regroup4("{", NewLine(mode), body, "}");
    OpenFrame(text, i, '{', NewLine(mode), body + "}");
  }

  /** The first entry of the saved entries of an array at i, with the rest
      saved after it. */
  predicate ItemsFramed(text: string, i: nat, items: seq<Json>, mode: Mode, fmt: NumberFormat, first: bool)
  {
    items != []
    && var j := EntryAt(i, mode, first);
    Seps(text, i, j) && j < |text| && StartsElement(text[j])
    && At(text, j, Save(items[0], mode, fmt)) && NoNumberAt(text, After(j, items[0], mode, fmt))
    && At(text, After(j, items[0], mode, fmt), SaveItems(items[1..], mode, fmt, false) + "]")
  }

  /** The first member of the saved members of an object at i, with the
      rest saved after it. */
  predicate MembersFramed(text: string, i: nat, members: seq<Member>, mode: Mode, fmt: NumberFormat, first: bool)
  {
    members != []
    && var j := EntryAt(i, mode, first);
    var e := Escaped(members[0].key);
    var c := ColonPos(i, members[0].key, mode, first);
    var v := ValueAt(i, members[0].key, mode, first);
    Seps(text, i, j) && j < |text| && text[j] == '"' && At(text, j, "\"" + (e + "\""))
    && c < |text| && text[c] == ':'
    && At(text, v, Save(members[0].value, mode, fmt)) && NoNumberAt(text, After(v, members[0].value, mode, fmt))
    && At(text, After(v, members[0].value, mode, fmt), SaveMembers(members[1..], mode, fmt, false) + "}")
  }

  lemma ItemsEntryFrame(items: seq<Json>, first: bool, mode: Mode, fmt: NumberFormat, text: string, i: nat)
    requires items != [] && Reparsable(items[0], fmt)
    requires At(text, i, SaveItems(items, mode, fmt, first) + "]")
    ensures ItemsFramed(text, i, items, mode, fmt, first)
  {
    var j := EntryAt(i, mode, first);
    var sx := Save(items[0], mode, fmt);
    SaveItemsSplit(items, mode, fmt, first);
    SeparatorChars(mode, first);
    SaveStarts(items[0], mode, fmt);
    AfterEntry(items[1..], mode, fmt, ']');
    SaveWidth(items[0], mode, fmt);
    EntryFrame(text, i, j, After(j, items[0], mode, fmt), Separator(mode, first), sx,
               SaveItems(items[1..], mode, fmt, false) + "]");
  }

  lemma MembersEntryFrame(members: seq<Member>, first: bool, mode: Mode, fmt: NumberFormat, text: string, i: nat)
    requires members != []
    requires At(text, i, SaveMembers(members, mode, fmt, first) + "}")
    ensures MembersFramed(text, i, members, mode, fmt, first)
  {
    var v := ValueAt(i, members[0].key, mode, first);
    SaveMembersSplit(members, mode, fmt, first);
    SeparatorChars(mode, first);
    AfterMember(members[1..], mode, fmt, '}');
    SaveWidth(members[0].value, mode, fmt);
    MemberFrame(text, i, EntryAt(i, mode, first), ColonPos(i, members[0].key, mode, first), v, After(v, members[0].value, mode, fmt),
                Separator(mode, first), Escaped(members[0].key), Save(members[0].value, mode, fmt),
                SaveMembers(members[1..], mode, fmt, false) + "}");
  }

  lemma LaidItemsCons(text: string, i: nat, items: seq<Json>, mode: Mode, fmt: NumberFormat, first: bool)
    requires ItemsFramed(text, i, items, mode, fmt, first)
    requires Laid(text, EntryAt(i, mode, first), items[0], mode, fmt)
    requires LaidItems(text, After(EntryAt(i, mode, first), items[0], mode, fmt), items[1..], mode, fmt, false)
    ensures LaidItems(text, i, items, mode, fmt, first)
  {
  }

  lemma LaidMembersCons(text: string, i: nat, members: seq<Member>, mode: Mode, fmt: NumberFormat, first: bool)
    requires MembersFramed(text, i, members, mode, fmt, first)
    requires Laid(text, ValueAt(i, members[0].key, mode, first), members[0].value, mode, fmt)
    requires LaidMembers(text, After(ValueAt(i, members[0].key, mode, first), members[0].value, mode, fmt),
                         members[1..], mode, fmt, false)
    ensures LaidMembers(text, i, members, mode, fmt, first)
  {
  }

  // ---------------------------------------------------------------------
  // The saved text is laid out as described

  lemma {:induction false} LaidSave(n: Json, mode: Mode, fmt: NumberFormat, text: string, i: nat)
    requires Reparsable(n, fmt)
    requires At(text, i, Save(n, mode, fmt))
    ensures Laid(text, i, n, mode, fmt)
    decreases Size(n), 0
  {
    match n
    case JNull =>
    case JBool(_) =>
    case JNumber(_) =>
    case JString(s) => Regroup3("\"", Escaped(s), "\"");
    case JArray(items) =>
      ArrayFrame(items, mode, fmt, text, i);
      LaidSaveItems(items, true, mode, fmt, text, i + 1 + |NewLine(mode)|);
    case JObject(members) =>
      ObjectFrame(members, mode, fmt, text, i);
      LaidSaveMembers(members, [], true, mode, fmt, text, i + 1 + |NewLine(mode)|);
  }

  lemma {:induction false} LaidSaveItems(items: seq<Json>, first: bool, mode: Mode, fmt: NumberFormat, text: string, i: nat)
    requires ItemsReparsable(items, fmt)
    requires At(text, i, SaveItems(items, mode, fmt, first) + "]")
    ensures LaidItems(text, i, items, mode, fmt, first)
    decreases ItemsSize(items), 1
  {
    if items == [] {
      AtChar(text, i, SaveItems(items, mode, fmt, first) + "]", 0);
    } else {
      ItemsSizeHead(items);
      ItemsEntryFrame(items, first, mode, fmt, text, i);
      var j := EntryAt(i, mode, first);
      LaidSave(items[0], mode, fmt, text, j);
      LaidSaveItems(items[1..], false, mode, fmt, text, After(j, items[0], mode, fmt));
      LaidItemsCons(text, i, items, mode, fmt, first);
    }
  }

  lemma {:induction false} LaidSaveMembers(members: seq<Member>, seen: seq<string>, first: bool, mode: Mode, fmt: NumberFormat, text: string, i: nat)
    requires MembersReparsable(members, seen, fmt)
    requires At(text, i, SaveMembers(members, mode, fmt, first) + "}")
    ensures LaidMembers(text, i, members, mode, fmt, first)
    decreases MembersSize(members), 1
  {
    if members == [] {
      AtChar(text, i, SaveMembers(members, mode, fmt, first) + "}", 0);
    } else {
      MembersSizeHead(members);
      MembersEntryFrame(members, first, mode, fmt, text, i);
      var v := ValueAt(i, members[0].key, mode, first);
      LaidSave(members[0].value, mode, fmt, text, v);
      LaidSaveMembers(members[1..], seen + [members[0].key], false, mode, fmt, text, After(v, members[0].value, mode, fmt));
      LaidMembersCons(text, i, members, mode, fmt, first);
    }
  }
}
