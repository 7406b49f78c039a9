// The FPT e-invoice payload: FptInvoiceData, InvoiceBody, RelatedInvoiceInfo
// and FptInvoiceItem, and the ToJsonNode methods that turn them into a
// SimpleJSON object. Each ToJsonNode creates a fresh JSONObject and runs
// through its fields in a fixed order, assigning a key through the indexer
// when the field's guard holds. That run is modelled by a table of
// (key, value-if-written) pairs in source order, folded with SetMember; a
// C# double is read as a real.
module FptInvoice {
  import opened Wrappers
  import opened Json
  import opened JsonNode
  import DotNetText

  /** The assignments run one after the other on the object: `values[p]`
      is None when the guard of the assignment to `names[p]` fails. */
  function Fill(ms: seq<Member>, names: seq<string>, values: seq<Option<Json>>): seq<Member>
    requires |names| == |values|
    decreases |names|
  {
    if names == [] then ms
    else
      var next := match values[0]
        case Some(v) => SetMember(ms, names[0], v)
        case None => ms;
      Fill(next, names[1..], values[1..])
  }

  /** The object ToJsonNode returns. */
  function ToObject(names: seq<string>, values: seq<Option<Json>>): Json
    requires |names| == |values|
  {
    JObject(Fill([], names, values))
  }

  function Written(name: string, value: Option<Json>): seq<Member>
  {
    if value.Some? then [Member(name, value.value)] else []
  }

  /** The members of the assignments whose guard holds, in order. */
  function Present(names: seq<string>, values: seq<Option<Json>>): seq<Member>
    requires |names| == |values|
    decreases |names|
  {
    if names == [] then [] else Written(names[0], values[0]) + Present(names[1..], values[1..])
  }

  predicate Distinct(names: seq<string>)
  {
    forall i, j :: 0 <= i < j < |names| ==> names[i] != names[j]
  }

  predicate Disjoint(a: seq<string>, b: seq<string>)
  {
    forall i, j :: 0 <= i < |a| && 0 <= j < |b| ==> a[i] != b[j]
  }

  lemma DistinctConcat(a: seq<string>, b: seq<string>)
    requires Distinct(a) && Distinct(b) && Disjoint(a, b)
    ensures Distinct(a + b)
  {
    forall i, j | 0 <= i < j < |a + b|
      ensures (a + b)[i] != (a + b)[j]
    {
      if j < |a| {
      } else if i < |a| {
        assert (a + b)[j] == b[j - |a|];
      } else {
        assert (a + b)[i] == b[i - |a|] && (a + b)[j] == b[j - |a|];
      }
    }
  }

  lemma DisjointConcat(a: seq<string>, b: seq<string>, c: seq<string>)
    requires Disjoint(a, c) && Disjoint(b, c)
    ensures Disjoint(a + b, c)
  {
    forall i, j | 0 <= i < |a + b| && 0 <= j < |c|
      ensures (a + b)[i] != c[j]
    {
      if i >= |a| {
        assert (a + b)[i] == b[i - |a|];
      }
    }
  }

  /** With distinct names no assignment meets an earlier key, so each one
      appends: the object holds exactly the written fields in order. */
  lemma {:induction false} FillAppends(ms: seq<Member>, names: seq<string>, values: seq<Option<Json>>)
    requires |names| == |values| && Distinct(names)
    requires forall p :: 0 <= p < |names| ==> names[p] !in Keys(ms)
    ensures Fill(ms, names, values) == ms + Present(names, values)
    decreases |names|
  {
    if names != [] {
      var next := ms + Written(names[0], values[0]);
      FillStep(ms, names, values);
      FillTail(ms, names, values);
      FillAppends(next, names[1..], values[1..]);
      Assoc(ms, Written(names[0], values[0]), Present(names[1..], values[1..]));
    }
  }

  /** After the first assignment the remaining names are still distinct and
      still absent from the object. */
  lemma FillTail(ms: seq<Member>, names: seq<string>, values: seq<Option<Json>>)
    requires |names| == |values| && Distinct(names) && names != []
    requires forall p :: 0 <= p < |names| ==> names[p] !in Keys(ms)
    ensures Distinct(names[1..])
    ensures forall p :: 0 <= p < |names| - 1 ==> names[1..][p] !in Keys(ms + Written(names[0], values[0]))
  {
    var next := ms + Written(names[0], values[0]);
    var rest := names[1..];
    assert Keys(next) == Keys(ms) + Keys(Written(names[0], values[0]));
    forall p | 0 <= p < |rest|
      ensures rest[p] !in Keys(next)
    {
      assert rest[p] == names[p + 1];
    }
    forall i, j | 0 <= i < j < |rest|
      ensures rest[i] != rest[j]
    {
      assert rest[i] == names[i + 1] && rest[j] == names[j + 1];
    }
  }

  /** One assignment of a key the object does not have appends it. */
  lemma FillStep(ms: seq<Member>, names: seq<string>, values: seq<Option<Json>>)
    requires |names| == |values| && names != [] && names[0] !in Keys(ms)
    ensures Fill(ms, names, values) == Fill(ms + Written(names[0], values[0]), names[1..], values[1..])
  {
    if values[0].Some? {
      SetMemberNew(ms, names[0], values[0].value);
    } else {
      assert ms + Written(names[0], values[0]) == ms;
    }
  }

  /** Only names of the table occur in the object. */
  lemma {:induction false} PresentNoKey(names: seq<string>, values: seq<Option<Json>>, k: string)
    requires |names| == |values| && k !in names
    ensures k !in Keys(Present(names, values))
    decreases |names|
  {
    if names != [] {
      PresentNoKey(names[1..], values[1..], k);
      var head := Written(names[0], values[0]);
      assert Keys(head + Present(names[1..], values[1..])) == Keys(head) + Keys(Present(names[1..], values[1..]));
    }
  }

  /** A name reads back the value assigned to it, or nothing when its guard
      failed. */
  lemma {:induction false} PresentLookup(names: seq<string>, values: seq<Option<Json>>, p: nat)
    requires |names| == |values| && Distinct(names) && p < |names|
    ensures Lookup(Present(names, values), names[p]) == values[p]
    decreases |names|
  {
    var head := Written(names[0], values[0]);
    var rest, vs := names[1..], values[1..];
    assert Distinct(rest) by {
      assert forall q :: 0 <= q < |rest| ==> rest[q] == names[q + 1];
    }
    if p == 0 {
      if values[0].None? {
        assert names[0] !in rest by {
          assert forall q :: 0 <= q < |rest| ==> rest[q] == names[q + 1];
        }
        PresentNoKey(rest, vs, names[0]);
      }
    } else {
      assert rest[p - 1] == names[p] && vs[p - 1] == values[p];
      PresentLookup(rest, vs, p - 1);
      LookupAfter(head, Present(rest, vs), names[p]);
    }
  }

  /** The object ToJsonNode builds from distinct names holds the written
      fields in order. */
  lemma ToObjectIsPresent(names: seq<string>, values: seq<Option<Json>>)
    requires |names| == |values| && Distinct(names)
    ensures ToObject(names, values).members == Present(names, values)
  {
    FillAppends([], names, values);
    assert [] + Present(names, values) == Present(names, values);
  }

  /** In the object ToJsonNode builds from distinct names each name reads
      back exactly its guarded value, and no other key occurs. */
  lemma ToObjectReads(names: seq<string>, values: seq<Option<Json>>)
    requires |names| == |values| && Distinct(names)
    ensures forall p :: 0 <= p < |names| ==> Lookup(ToObject(names, values).members, names[p]) == values[p]
    ensures forall k :: k !in names ==> k !in Keys(ToObject(names, values).members)
  {
    ToObjectIsPresent(names, values);
    forall p | 0 <= p < |names|
      ensures Lookup(ToObject(names, values).members, names[p]) == values[p]
    {
      PresentLookup(names, values, p);
    }
    forall k | k !in names
      ensures k !in Keys(ToObject(names, values).members)
    {
      PresentNoKey(names, values, k);
    }
  }

  // ---------------------------------------------------------------------
  // Guards

  /** `if (x != null) obj[key] = x;` for a string field. */
  function Str(x: Option<string>): Option<Json>
  {
    if x.Some? then Some(JString(x.value)) else None
  }

  /** `if (x.HasValue) obj[key] = x.Value;` for an int? field. */
  function Tag(x: Option<int>): Option<Json>
  {
    if x.Some? then Some(JNumber(x.value as real)) else None
  }

  /** `if (x != 0) obj[key] = x;` for a numeric field. */
  function NonZero(x: real): Option<Json>
  {
    if x != 0.0 then Some(JNumber(x)) else None
  }

  /** `obj[key] = x;` unconditionally. */
  function Always(x: real): Option<Json>
  {
    Some(JNumber(x))
  }

  // ---------------------------------------------------------------------
  // FptInvoiceItem

  datatype FptInvoiceItem = FptInvoiceItem(
    line: int, kind: Option<string>, tripTo: Option<string>, tripFrom: Option<string>,
    plateNo: Option<string>, frameNo: Option<string>, machineNo: Option<string>,
    sendName: Option<string>, sendAddr: Option<string>, sendTax: Option<string>,
    sendIdno: Option<string>, code: Option<string>, name: Option<string>, unit: Option<string>,
    price: real, quantity: real, vrt: Option<string>, perdiscount: real, amtdiscount: real,
    amount: real, vat: real, total: real, pricev: real, amountv: real, vatv: real, totalv: real)

  /** The 26 property names in the order ToJsonNode visits them: the line
      number and the strings up to the unit, then the amounts (with "vrt"
      among them). */
  const ItemTextKeys: seq<string> := [
    "line", "type", "trip_to", "trip_from", "plate_no", "frame_no", "machine_no",
    "send_name", "send_addr", "send_tax", "send_idno", "code", "name", "unit"]
  const ItemAmountKeys: seq<string> := [
    "price", "quantity", "vrt", "perdiscount", "amtdiscount", "amount", "vat", "total",
    "pricev", "amountv", "vatv", "totalv"]
  const ItemKeys: seq<string> := ItemTextKeys + ItemAmountKeys

  function ItemValues(it: FptInvoiceItem): (vs: seq<Option<Json>>)
    ensures |vs| == |ItemKeys|
  {
    [ NonZero(it.line as real), Str(it.kind), Str(it.tripTo), Str(it.tripFrom), Str(it.plateNo),
      Str(it.frameNo), Str(it.machineNo), Str(it.sendName), Str(it.sendAddr), Str(it.sendTax),
      Str(it.sendIdno), Str(it.code), Str(it.name), Str(it.unit) ]
    + [ NonZero(it.price), NonZero(it.quantity), Str(it.vrt), NonZero(it.perdiscount),
        NonZero(it.amtdiscount), NonZero(it.amount), NonZero(it.vat), NonZero(it.total),
        NonZero(it.pricev), NonZero(it.amountv), NonZero(it.vatv), NonZero(it.totalv) ]
  }

  /** FptInvoiceItem.ToJsonNode. */
  function ItemJson(it: FptInvoiceItem): Json
  {
    ToObject(ItemKeys, ItemValues(it))
  }

  lemma ItemGroupsDistinct()
    ensures Distinct(ItemTextKeys) && Distinct(ItemAmountKeys)
  {
  }

  lemma ItemGroupsDisjoint()
    ensures Disjoint(ItemTextKeys, ItemAmountKeys)
  {
  }

  lemma ItemKeysDistinct()
    ensures Distinct(ItemKeys)
  {
    ItemGroupsDistinct();
    ItemGroupsDisjoint();
    DistinctConcat(ItemTextKeys, ItemAmountKeys);
  }

  /** Every property of an item reads back under its own name exactly as
      ToJsonNode's guard says, and no key outside the 26 property names
      occurs. */
  lemma ItemJsonFields(it: FptInvoiceItem)
    ensures forall p :: 0 <= p < |ItemKeys| ==> Lookup(ItemJson(it).members, ItemKeys[p]) == ItemValues(it)[p]
    ensures forall k :: k in Keys(ItemJson(it).members) ==> k in ItemKeys
  {
    ItemKeysDistinct();
    ToObjectReads(ItemKeys, ItemValues(it));
  }

  lemma ItemFieldReads(it: FptInvoiceItem, p: nat)
    requires p < |ItemKeys|
    ensures Lookup(ItemJson(it).members, ItemKeys[p]) == ItemValues(it)[p]
  {
    ItemKeysDistinct();
    ToObjectIsPresent(ItemKeys, ItemValues(it));
    PresentLookup(ItemKeys, ItemValues(it), p);
  }

  /** "line" is written iff the line number is not 0. */
  lemma ItemLineKey(it: FptInvoiceItem)
    ensures Lookup(ItemJson(it).members, "line") == if it.line != 0 then Some(JNumber(it.line as real)) else None
  {
    ItemFieldReads(it, 0);
    assert ItemKeys[0] == "line";
  }

  /** The name, unit, code and vrt strings are written iff not null. */
  lemma ItemStringKeys(it: FptInvoiceItem)
    ensures Lookup(ItemJson(it).members, "code") == Str(it.code)
    ensures Lookup(ItemJson(it).members, "name") == Str(it.name)
    ensures Lookup(ItemJson(it).members, "unit") == Str(it.unit)
    ensures Lookup(ItemJson(it).members, "vrt") == Str(it.vrt)
    ensures it.name.Some? ==> Lookup(ItemJson(it).members, "name") == Some(JString(it.name.value))
  {
    ItemFieldReads(it, 11);
    ItemFieldReads(it, 12);
    ItemFieldReads(it, 13);
    ItemFieldReads(it, 16);
    assert ItemKeys[11] == "code" && ItemKeys[12] == "name" && ItemKeys[13] == "unit";
    assert ItemKeys[16] == "vrt";
  }

  /** A zero price or quantity is left out; a non-zero one is written. */
  lemma ItemZeroAmountsOmitted(it: FptInvoiceItem)
    ensures "price" in Keys(ItemJson(it).members) <==> it.price != 0.0
    ensures "quantity" in Keys(ItemJson(it).members) <==> it.quantity != 0.0
    ensures Lookup(ItemJson(it).members, "total") == NonZero(it.total)
  {
    ItemFieldReads(it, 14);
    ItemFieldReads(it, 15);
    ItemFieldReads(it, 21);
    assert ItemKeys[14] == "price" && ItemKeys[15] == "quantity" && ItemKeys[21] == "total";
  }

  // ---------------------------------------------------------------------
  // RelatedInvoiceInfo

  datatype RelatedInvoiceInfo = RelatedInvoiceInfo(
    reference: Option<string>, rdt: Option<string>, seqNo: Option<string>,
    idt: Option<string>, rea: Option<string>)

  /** HasData: some field is neither null nor empty. */
  predicate HasData(a: RelatedInvoiceInfo)
  {
    !DotNetText.IsNullOrEmpty(a.reference) || !DotNetText.IsNullOrEmpty(a.rdt)
    || !DotNetText.IsNullOrEmpty(a.seqNo) || !DotNetText.IsNullOrEmpty(a.idt)
    || !DotNetText.IsNullOrEmpty(a.rea)
  }

  /** HasData is false exactly when all five fields are null or empty. */
  lemma HasDataIff(a: RelatedInvoiceInfo)
    ensures !HasData(a) <==>
      ((a.reference.None? || a.reference.value == "") && (a.rdt.None? || a.rdt.value == "")
       && (a.seqNo.None? || a.seqNo.value == "") && (a.idt.None? || a.idt.value == "")
       && (a.rea.None? || a.rea.value == ""))
  {
  }

  const AdjKeys: seq<string> := ["ref", "rdt", "seq", "idt", "rea"]

  function AdjValues(a: RelatedInvoiceInfo): (vs: seq<Option<Json>>)
    ensures |vs| == |AdjKeys|
  {
    [Str(a.reference), Str(a.rdt), Str(a.seqNo), Str(a.idt), Str(a.rea)]
  }

  /** RelatedInvoiceInfo.ToJsonNode. */
  function AdjJson(a: RelatedInvoiceInfo): Json
  {
    ToObject(AdjKeys, AdjValues(a))
  }

  /** `@ref` is written under "ref", and each of the five fields iff it is
      not null; no other key occurs. */
  lemma AdjJsonKeys(a: RelatedInvoiceInfo)
    ensures var ms := AdjJson(a).members;
      && Lookup(ms, "ref") == Str(a.reference) && Lookup(ms, "rdt") == Str(a.rdt)
      && Lookup(ms, "seq") == Str(a.seqNo) && Lookup(ms, "idt") == Str(a.idt)
      && Lookup(ms, "rea") == Str(a.rea)
      && forall k :: k in Keys(ms) ==> k in AdjKeys
  {
    assert Distinct(AdjKeys);
    ToObjectReads(AdjKeys, AdjValues(a));
    assert AdjKeys[0] == "ref" && AdjKeys[1] == "rdt" && AdjKeys[2] == "seq";
    assert AdjKeys[3] == "idt" && AdjKeys[4] == "rea";
  }

  // ---------------------------------------------------------------------
  // InvoiceBody

  datatype InvoiceBody = InvoiceBody(
    kind: Option<string>, form: Option<string>, serial: Option<string>, seqNo: Option<string>,
    maCqthu: Option<string>, idt: Option<string>, sid: Option<string>, sec: Option<string>,
    paym: Option<string>, note: Option<string>,
    aun: Option<int>, invoiceClass: Option<int>, typeRef: Option<int>, sendfile: Option<int>,
    notsendmail: Option<int>, invPaper: Option<int>,
    stax: Option<string>,
    bcode: Option<string>, bname: Option<string>, btax: Option<string>, baddr: Option<string>,
    buyer: Option<string>, budgetRelationid: Option<string>, idnumber: Option<string>,
    passportNumber: Option<string>, btel: Option<string>, bmail: Option<string>,
    adj: Option<RelatedInvoiceInfo>,
    pDt: Option<string>, pPr: Option<string>, pQty: Option<string>, pNozzle: Option<string>,
    pStation: Option<string>, pCode: Option<string>,
    items: Option<seq<FptInvoiceItem>>,
    sum: real, vat: real, total: real, sumv: real, vatv: real, totalv: real,
    tradeamount: real, discount: real, word: Option<string>)

  /** The InvoiceBody constructor: an empty, non-null item list and every
      other field null or zero. */
  function NewInvoiceBody(): (b: InvoiceBody)
    ensures b.items == Some([]) && b.adj.None? && b.kind.None? && b.aun.None? && b.buyer.None?
    ensures b.sum == 0.0 && b.total == 0.0 && b.word.None?
  {
    InvoiceBody(None, None, None, None, None, None, None, None, None, None,
                None, None, None, None, None, None,
                None,
                None, None, None, None, None, None, None, None, None, None,
                None,
                None, None, None, None, None, None,
                Some([]),
                0.0, 0.0, 0.0, 0.0, 0.0, 0.0, 0.0, 0.0, None)
  }

  /** The petroleum fields are written only when one of them is not null. */
  predicate HasPetrol(b: InvoiceBody)
  {
    b.pDt.Some? || b.pPr.Some? || b.pQty.Some? || b.pNozzle.Some? || b.pStation.Some? || b.pCode.Some?
  }

  /** A string assignment nested under the petroleum guard. */
  function Petrol(b: InvoiceBody, x: Option<string>): Option<Json>
  {
    if HasPetrol(b) then Str(x) else None
  }

  /** The items array: one element per item, in list order. */
  function ItemsJson(items: seq<FptInvoiceItem>): (js: seq<Json>)
    ensures |js| == |items|
    ensures forall i :: 0 <= i < |items| ==> js[i] == ItemJson(items[i])
  {
    seq(|items|, i requires 0 <= i < |items| => ItemJson(items[i]))
  }

  const InvGeneralKeys: seq<string> := ["type", "form", "serial", "seq", "ma_cqthu", "idt", "sid", "sec", "paym", "note"]
  const InvTagKeys: seq<string> := ["aun", "class", "type_ref", "sendfile", "notsendmail", "inv_paper"]
  const InvPartyKeys: seq<string> := [
    "stax", "bcode", "bname", "btax", "baddr", "buyer", "budget_relationid", "idnumber",
    "passport_number", "btel", "bmail"]
  const InvExtraKeys: seq<string> := ["adj", "p_dt", "p_pr", "p_qty", "p_nozzle", "p_station", "p_code", "items"]
  const InvTotalKeys: seq<string> := ["sum", "vat", "total", "sumv", "vatv", "totalv", "tradeamount", "discount", "word"]

  /** Every key InvoiceBody.ToJsonNode may write, in the order it visits them. */
  const InvKeys: seq<string> := InvGeneralKeys + InvTagKeys + InvPartyKeys + InvExtraKeys + InvTotalKeys

  function InvGeneralValues(b: InvoiceBody): (vs: seq<Option<Json>>)
    ensures |vs| == |InvGeneralKeys|
  {
    [ Str(b.kind), Str(b.form), Str(b.serial), Str(b.seqNo), Str(b.maCqthu), Str(b.idt),
      Str(b.sid), Str(b.sec), Str(b.paym), Str(b.note) ]
  }

  function InvTagValues(b: InvoiceBody): (vs: seq<Option<Json>>)
    ensures |vs| == |InvTagKeys|
  {
    [ Tag(b.aun), Tag(b.invoiceClass), Tag(b.typeRef), Tag(b.sendfile), Tag(b.notsendmail),
      Tag(b.invPaper) ]
  }

  function InvPartyValues(b: InvoiceBody): (vs: seq<Option<Json>>)
    ensures |vs| == |InvPartyKeys|
  {
    [ Str(b.stax), Str(b.bcode), Str(b.bname), Str(b.btax), Str(b.baddr), Str(b.buyer),
      Str(b.budgetRelationid), Str(b.idnumber), Str(b.passportNumber), Str(b.btel), Str(b.bmail) ]
  }

  function InvExtraValues(b: InvoiceBody): (vs: seq<Option<Json>>)
    ensures |vs| == |InvExtraKeys|
  {
    [ if b.adj.Some? && HasData(b.adj.value) then Some(AdjJson(b.adj.value)) else None,
      Petrol(b, b.pDt), Petrol(b, b.pPr), Petrol(b, b.pQty), Petrol(b, b.pNozzle),
      Petrol(b, b.pStation), Petrol(b, b.pCode),
      if b.items.Some? && |b.items.value| > 0 then Some(JArray(ItemsJson(b.items.value))) else None ]
  }

  function InvTotalValues(b: InvoiceBody): (vs: seq<Option<Json>>)
    ensures |vs| == |InvTotalKeys|
  {
    [ Always(b.sum), Always(b.vat), Always(b.total), Always(b.sumv), Always(b.vatv),
      Always(b.totalv), NonZero(b.tradeamount), NonZero(b.discount), Str(b.word) ]
  }

  function InvValues(b: InvoiceBody): (vs: seq<Option<Json>>)
    ensures |vs| == |InvKeys|
  {
    InvGeneralValues(b) + InvTagValues(b) + InvPartyValues(b) + InvExtraValues(b) + InvTotalValues(b)
  }

  /** InvoiceBody.ToJsonNode. */
  function InvJson(b: InvoiceBody): Json
  {
    ToObject(InvKeys, InvValues(b))
  }

  lemma InvGroupsDistinct()
    ensures Distinct(InvGeneralKeys) && Distinct(InvTagKeys) && Distinct(InvPartyKeys)
    ensures Distinct(InvExtraKeys) && Distinct(InvTotalKeys)
  {
  }

  lemma InvGroupsDisjoint1()
    ensures Disjoint(InvGeneralKeys, InvTagKeys) && Disjoint(InvGeneralKeys, InvPartyKeys)
  {
  }

  lemma InvGroupsDisjoint2()
    ensures Disjoint(InvTagKeys, InvPartyKeys) && Disjoint(InvGeneralKeys, InvExtraKeys)
  {
  }

  lemma InvGroupsDisjoint3()
    ensures Disjoint(InvTagKeys, InvExtraKeys) && Disjoint(InvPartyKeys, InvExtraKeys)
  {
  }

  lemma InvGroupsDisjoint4()
    ensures Disjoint(InvGeneralKeys, InvTotalKeys) && Disjoint(InvTagKeys, InvTotalKeys)
  {
  }

  lemma InvGroupsDisjoint5()
    ensures Disjoint(InvPartyKeys, InvTotalKeys) && Disjoint(InvExtraKeys, InvTotalKeys)
  {
  }

  lemma InvKeysDistinct()
    ensures Distinct(InvKeys)
  {
    var g1, g2, g3, g4, g5 := InvGeneralKeys, InvTagKeys, InvPartyKeys, InvExtraKeys, InvTotalKeys;
    InvGroupsDistinct();
    InvGroupsDisjoint1();
    InvGroupsDisjoint2();
    InvGroupsDisjoint3();
    InvGroupsDisjoint4();
    InvGroupsDisjoint5();
    DistinctConcat(g1, g2);
    DisjointConcat(g1, g2, g3);
    DistinctConcat(g1 + g2, g3);
    DisjointConcat(g1, g2, g4);
    DisjointConcat(g1 + g2, g3, g4);
    DistinctConcat(g1 + g2 + g3, g4);
    DisjointConcat(g1, g2, g5);
    DisjointConcat(g1 + g2, g3, g5);
    DisjointConcat(g1 + g2 + g3, g4, g5);
    DistinctConcat(g1 + g2 + g3 + g4, g5);
  }

  /** Every field of the body reads back under its own name exactly as
      ToJsonNode's guard says, and no other key occurs. */
  lemma InvJsonFields(b: InvoiceBody)
    ensures forall p :: 0 <= p < |InvKeys| ==> Lookup(InvJson(b).members, InvKeys[p]) == InvValues(b)[p]
    ensures forall k :: k in Keys(InvJson(b).members) ==> k in InvKeys
  {
    InvKeysDistinct();
    ToObjectReads(InvKeys, InvValues(b));
  }

  lemma InvFieldReads(b: InvoiceBody, p: nat)
    requires p < |InvKeys|
    ensures Lookup(InvJson(b).members, InvKeys[p]) == InvValues(b)[p]
  {
    InvKeysDistinct();
    ToObjectIsPresent(InvKeys, InvValues(b));
    PresentLookup(InvKeys, InvValues(b), p);
  }

  /** Position p of each of five concatenated groups. */
  lemma Concat5At<T>(g1: seq<T>, g2: seq<T>, g3: seq<T>, g4: seq<T>, g5: seq<T>, p: nat)
    ensures p < |g1| ==> (g1 + g2 + g3 + g4 + g5)[p] == g1[p]
    ensures p < |g2| ==> (g1 + g2 + g3 + g4 + g5)[|g1| + p] == g2[p]
    ensures p < |g3| ==> (g1 + g2 + g3 + g4 + g5)[|g1| + |g2| + p] == g3[p]
    ensures p < |g4| ==> (g1 + g2 + g3 + g4 + g5)[|g1| + |g2| + |g3| + p] == g4[p]
    ensures p < |g5| ==> (g1 + g2 + g3 + g4 + g5)[|g1| + |g2| + |g3| + |g4| + p] == g5[p]
  {
  }

  lemma InvGeneralReads(b: InvoiceBody, p: nat)
    requires p < |InvGeneralKeys|
    ensures Lookup(InvJson(b).members, InvGeneralKeys[p]) == InvGeneralValues(b)[p]
  {
    InvFieldReads(b, p);
    Concat5At(InvGeneralKeys, InvTagKeys, InvPartyKeys, InvExtraKeys, InvTotalKeys, p);
    Concat5At(InvGeneralValues(b), InvTagValues(b), InvPartyValues(b), InvExtraValues(b), InvTotalValues(b), p);
  }

  lemma InvTagReads(b: InvoiceBody, p: nat)
    requires p < |InvTagKeys|
    ensures Lookup(InvJson(b).members, InvTagKeys[p]) == InvTagValues(b)[p]
  {
    InvFieldReads(b, |InvGeneralKeys| + p);
    Concat5At(InvGeneralKeys, InvTagKeys, InvPartyKeys, InvExtraKeys, InvTotalKeys, p);
    Concat5At(InvGeneralValues(b), InvTagValues(b), InvPartyValues(b), InvExtraValues(b), InvTotalValues(b), p);
  }

  lemma InvPartyReads(b: InvoiceBody, p: nat)
    requires p < |InvPartyKeys|
    ensures Lookup(InvJson(b).members, InvPartyKeys[p]) == InvPartyValues(b)[p]
  {
    InvFieldReads(b, |InvGeneralKeys| + |InvTagKeys| + p);
    Concat5At(InvGeneralKeys, InvTagKeys, InvPartyKeys, InvExtraKeys, InvTotalKeys, p);
    Concat5At(InvGeneralValues(b), InvTagValues(b), InvPartyValues(b), InvExtraValues(b), InvTotalValues(b), p);
  }

  lemma InvExtraReads(b: InvoiceBody, p: nat)
    requires p < |InvExtraKeys|
    ensures Lookup(InvJson(b).members, InvExtraKeys[p]) == InvExtraValues(b)[p]
  {
    InvFieldReads(b, |InvGeneralKeys| + |InvTagKeys| + |InvPartyKeys| + p);
    Concat5At(InvGeneralKeys, InvTagKeys, InvPartyKeys, InvExtraKeys, InvTotalKeys, p);
    Concat5At(InvGeneralValues(b), InvTagValues(b), InvPartyValues(b), InvExtraValues(b), InvTotalValues(b), p);
  }

  lemma InvTotalReads(b: InvoiceBody, p: nat)
    requires p < |InvTotalKeys|
    ensures Lookup(InvJson(b).members, InvTotalKeys[p]) == InvTotalValues(b)[p]
  {
    InvFieldReads(b, |InvGeneralKeys| + |InvTagKeys| + |InvPartyKeys| + |InvExtraKeys| + p);
    Concat5At(InvGeneralKeys, InvTagKeys, InvPartyKeys, InvExtraKeys, InvTotalKeys, p);
    Concat5At(InvGeneralValues(b), InvTagValues(b), InvPartyValues(b), InvExtraValues(b), InvTotalValues(b), p);
  }

  /** The general string fields are written iff not null, so an empty string
      is still written. */
  lemma InvGeneralKeysWritten(b: InvoiceBody)
    ensures Lookup(InvJson(b).members, "type") == Str(b.kind)
    ensures Lookup(InvJson(b).members, "form") == Str(b.form)
    ensures Lookup(InvJson(b).members, "serial") == Str(b.serial)
    ensures b.serial == Some("") ==> Lookup(InvJson(b).members, "serial") == Some(JString(""))
  {
    InvGeneralReads(b, 0);
    InvGeneralReads(b, 1);
    InvGeneralReads(b, 2);
  }

  /** The seller and buyer strings are written iff not null. */
  lemma InvPartyKeysWritten(b: InvoiceBody)
    ensures Lookup(InvJson(b).members, "stax") == Str(b.stax)
    ensures Lookup(InvJson(b).members, "bname") == Str(b.bname)
    ensures Lookup(InvJson(b).members, "buyer") == Str(b.buyer)
    ensures Lookup(InvJson(b).members, "idnumber") == Str(b.idnumber)
  {
    InvPartyReads(b, 0);
    InvPartyReads(b, 2);
    InvPartyReads(b, 5);
    InvPartyReads(b, 7);
  }

  /** Each routing tag is written iff it has a value; `@class` goes under
      "class". */
  lemma InvTagKeysWritten(b: InvoiceBody)
    ensures Lookup(InvJson(b).members, "aun") == Tag(b.aun)
    ensures Lookup(InvJson(b).members, "class") == Tag(b.invoiceClass)
    ensures Lookup(InvJson(b).members, "type_ref") == Tag(b.typeRef)
    ensures Lookup(InvJson(b).members, "inv_paper") == Tag(b.invPaper)
  {
    InvTagReads(b, 0);
    InvTagReads(b, 1);
    InvTagReads(b, 2);
    InvTagReads(b, 5);
  }

  /** "adj" is written iff adj is not null and has data. */
  lemma InvAdjKey(b: InvoiceBody)
    ensures "adj" in Keys(InvJson(b).members) <==> b.adj.Some? && HasData(b.adj.value)
    ensures b.adj.Some? && HasData(b.adj.value) ==> Lookup(InvJson(b).members, "adj") == Some(AdjJson(b.adj.value))
  {
    InvExtraReads(b, 0);
  }

  /** The outer petroleum guard is redundant: each petroleum field is
      written iff it is not null. */
  lemma InvPetrolKeys(b: InvoiceBody)
    ensures Lookup(InvJson(b).members, "p_dt") == Str(b.pDt)
    ensures Lookup(InvJson(b).members, "p_pr") == Str(b.pPr)
    ensures Lookup(InvJson(b).members, "p_code") == Str(b.pCode)
  {
    InvExtraReads(b, 1);
    InvExtraReads(b, 2);
    InvExtraReads(b, 6);
  }

  /** "items" is written iff the list is non-null and non-empty, and then
      holds one object per item in list order. */
  lemma InvItemsKey(b: InvoiceBody)
    ensures "items" in Keys(InvJson(b).members) <==> b.items.Some? && |b.items.value| > 0
    ensures b.items.Some? && |b.items.value| > 0 ==>
      Lookup(InvJson(b).members, "items") == Some(JArray(ItemsJson(b.items.value)))
  {
    InvExtraReads(b, 7);
  }

  /** The six totals are always written. */
  lemma InvTotalsAlways(b: InvoiceBody)
    ensures Lookup(InvJson(b).members, "sum") == Some(JNumber(b.sum))
    ensures Lookup(InvJson(b).members, "vat") == Some(JNumber(b.vat))
    ensures Lookup(InvJson(b).members, "total") == Some(JNumber(b.total))
    ensures Lookup(InvJson(b).members, "sumv") == Some(JNumber(b.sumv))
    ensures Lookup(InvJson(b).members, "vatv") == Some(JNumber(b.vatv))
    ensures Lookup(InvJson(b).members, "totalv") == Some(JNumber(b.totalv))
  {
    InvTotalReads(b, 0);
    InvTotalReads(b, 1);
    InvTotalReads(b, 2);
    InvTotalReads(b, 3);
    InvTotalReads(b, 4);
    InvTotalReads(b, 5);
  }

  /** tradeamount and discount are written iff not zero, word iff not null. */
  lemma InvOptionalTotals(b: InvoiceBody)
    ensures Lookup(InvJson(b).members, "tradeamount") == NonZero(b.tradeamount)
    ensures Lookup(InvJson(b).members, "discount") == NonZero(b.discount)
    ensures Lookup(InvJson(b).members, "word") == Str(b.word)
  {
    InvTotalReads(b, 6);
    InvTotalReads(b, 7);
    InvTotalReads(b, 8);
  }

  /** The foreach over the items: one JSONArray.Add per item. */
  method ItemsArray(items: seq<FptInvoiceItem>) returns (arr: ArrayNode)
    ensures fresh(arr)
    ensures arr.items == ItemsJson(items)
  {
    arr := new ArrayNode();
    var i := 0;
    while i < |items|
      invariant 0 <= i <= |items|
      invariant arr.items == ItemsJson(items[..i])
    {
      arr.Add(ItemJson(items[i]));
      i := i + 1;
      assert items[..i] == items[..i - 1] + [items[i - 1]];
    }
    assert items[..i] == items;
  }

  // ---------------------------------------------------------------------
  // FptInvoiceData

  datatype FptInvoiceData = FptInvoiceData(lang: string, inv: InvoiceBody)

  /** The FptInvoiceData constructor. */
  function NewInvoiceData(): (d: FptInvoiceData)
    ensures d.lang == "vi" && d.inv.items == Some([])
  {
    FptInvoiceData("vi", NewInvoiceBody())
  }

  /** FptInvoiceData.ToJsonNode: root["lang"] then root["inv"]. */
  function DataJson(d: FptInvoiceData): Json
  {
    JObject(SetMember(SetMember([], "lang", JString(d.lang)), "inv", InvJson(d.inv)))
  }

  /** The root object has exactly the keys "lang" and "inv". */
  lemma DataJsonKeys(d: FptInvoiceData)
    ensures Keys(DataJson(d).members) == ["lang", "inv"]
    ensures Lookup(DataJson(d).members, "lang") == Some(JString(d.lang))
    ensures Lookup(DataJson(d).members, "inv") == Some(InvJson(d.inv))
  {
    var m1 := SetMember([], "lang", JString(d.lang));
    assert m1 == [Member("lang", JString(d.lang))];
    SetMemberNew(m1, "inv", InvJson(d.inv));
  }
}
