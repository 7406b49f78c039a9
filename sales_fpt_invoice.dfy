// SalesFptInvoiceManager: after a sale is stored it builds the FPT e-invoice
// for the cart, sends it through the API client, reads the invoice
// references out of the reply and writes them onto the sale.
//
// The exchange with the API client (its sign-in, retries and HTTP request)
// is modelled with the client; here it is the parameter `send`, which maps
// the payload to the client's (success, data, error) reply. The invoice
// date and the Guid of `sid` are parameters, a C# double is read as a real
// and the 10% rate as the exact fraction 1/10.
module SalesFptInvoice {
  import opened Wrappers
  import opened DotNetText
  import opened Products
  import opened ShopRecords
  import opened Json
  import opened JsonNode
  import opened FptInvoice
  import SalesFinalize

  const TaxRate: real := 0.1
  const FptProvider: string := "FPT"
  const VatRateCode: string := "10"
  const CashPayment: string := "TM"
  /** aun = 2: the provider numbers the invoice. */
  const ProviderNumbers: int := 2

  const NoProviderMsg: string :=
    "Bạn chưa cấu hình nhà cung cấp hóa đơn điện tử hoặc nhà cung cấp hiện tại không phải FPT. Vui lòng cấu hình trong Cài đặt Shop."
  const NoClientMsg: string := "Lỗi nội bộ: FPT eInvoice API Client chưa được khởi tạo."
  const OfflineMsg: string := "Không có kết nối Internet. Vui lòng kiểm tra mạng và thử lại."
  const ReadErrorPrefix: string := "Lỗi khi đọc phản hồi hóa đơn FPT: "
  const ExportPendingMsg: string := "Chức năng 'Xuất hóa đơn' đang được phát triển."
  /** The message of the NullReferenceException JSON.Parse(null) throws. */
  const NullReferenceMsg: string := "Object reference not set to an instance of an object."

  /** The message for a package without the EInvoice feature; a null
      package name interpolates as nothing. */
  function NoFeatureMsg(packageName: Option<string>): string
  {
    "Gói hiện tại: '" + OrEmpty(packageName) + "' không có tính năng Hóa đơn điện tử. Vui lòng nâng cấp gói."
  }

  function ExportUpgradeMsg(packageName: Option<string>): string
  {
    "Tính năng 'Xuất hóa đơn' yêu cầu gói phù hợp. Gói hiện tại: '" + OrEmpty(packageName)
    + "'. Vui lòng nâng cấp gói để sử dụng."
  }

  /** `amount * TAX_RATE`. */
  function VatOf(amount: real): real
  {
    amount * TaxRate
  }

  // ---------------------------------------------------------------------
  // Invoice lines

  /** ConvertProductToFptInvoiceItem: every other property keeps the
      default of `new FptInvoiceItem()` (null or 0). */
  function ItemOf(p: Product, quantity: int, lineNumber: int): FptInvoiceItem
  {
    var price := p.price as real;
    var qty := quantity as real;
    var amount := price * qty;
    var vat := VatOf(amount);
    FptInvoiceItem(lineNumber, None, None, None, None, None, None, None, None, None, None,
                   Some(OrEmpty(p.barcode)), Some(OrEmpty(p.productName)), Some(OrEmpty(p.unit)),
                   price, qty, Some(VatRateCode), 0.0, 0.0, amount, vat, amount + vat,
                   0.0, 0.0, 0.0, 0.0)
  }

  /** One line per cart line, numbered from 1 in enumeration order, each
      for the line's own quantity. */
  function NumberedItems(lines: seq<Product>): seq<FptInvoiceItem>
  {
    seq(|lines|, i requires 0 <= i < |lines| => ItemOf(lines[i], lines[i].stock, i + 1))
  }

  /** The foreach of CreateFptInvoiceData with its running line number. */
  method NumberItems(lines: seq<Product>) returns (items: seq<FptInvoiceItem>)
    ensures items == NumberedItems(lines)
  {
    items := [];
    var lineNumber := 1;
    var i := 0;
    while i < |lines|
      invariant 0 <= i <= |lines| && lineNumber == i + 1
      invariant items == NumberedItems(lines[..i])
    {
      var product := lines[i];
      items := items + [ItemOf(product, product.stock, lineNumber)];
      lineNumber := lineNumber + 1;
      i := i + 1;
    }
    assert lines[..i] == lines;
  }

  /** Each line's amount is price × quantity and its total the amount plus
      10%. */
  lemma ItemAmounts(p: Product, quantity: int, lineNumber: int)
    ensures var it := ItemOf(p, quantity, lineNumber);
      it.amount == (p.price as real) * (quantity as real)
      && it.total == it.amount + VatOf(it.amount) && VatOf(it.amount) == it.amount / 10.0
      && it.line == lineNumber && it.quantity == quantity as real
  {
  }

  /** Each line of the payload carries its number (when not 0), the
      product's code, name and unit (never null) and the rate code "10";
      the quantity is left out exactly when it is 0. */
  lemma ItemPayload(p: Product, quantity: int, lineNumber: int)
    ensures var ms := ItemJson(ItemOf(p, quantity, lineNumber)).members;
      Lookup(ms, "line") == (if lineNumber != 0 then Some(JNumber(lineNumber as real)) else None)
      && Lookup(ms, "code") == Some(JString(OrEmpty(p.barcode)))
      && Lookup(ms, "name") == Some(JString(OrEmpty(p.productName)))
      && Lookup(ms, "unit") == Some(JString(OrEmpty(p.unit)))
      && Lookup(ms, "vrt") == Some(JString(VatRateCode))
      && ("quantity" in Keys(ms) <==> quantity != 0)
  {
    var it := ItemOf(p, quantity, lineNumber);
    ItemLineKey(it);
    ItemStringKeys(it);
    ItemZeroAmountsOmitted(it);
  }

  function SumAmounts(items: seq<FptInvoiceItem>): real
  {
    if items == [] then 0.0 else SumAmounts(items[..|items| - 1]) + items[|items| - 1].amount
  }

  function SumTotals(items: seq<FptInvoiceItem>): real
  {
    if items == [] then 0.0 else SumTotals(items[..|items| - 1]) + items[|items| - 1].total
  }

  /** The invoice's lines add up to the invoice's header: their amounts to
      the cart subtotal written as "sum", their totals to "total". */
  lemma {:induction false} LinesAddUp(lines: seq<Product>)
    ensures SumAmounts(NumberedItems(lines)) == SalesFinalize.Subtotal(lines) as real
    ensures SumTotals(NumberedItems(lines))
            == SalesFinalize.Subtotal(lines) as real + VatOf(SalesFinalize.Subtotal(lines) as real)
    decreases |lines|
  {
    if lines != [] {
      var n := |lines|;
      var front := lines[..n - 1];
      assert NumberedItems(lines)[..n - 1] == NumberedItems(front);
      LinesAddUp(front);
      var last := lines[n - 1];
      assert (SalesFinalize.LineTotal(last) as real) == (last.price as real) * (last.stock as real);
    }
  }

  // ---------------------------------------------------------------------
  // The invoice

  /** The buyer block: filled only for a known customer; a company is
      invoiced under its company name, anyone else as the walk-in buyer;
      the id number is set only when there is one. */
  function WithBuyer(b: InvoiceBody, customer: Option<SalesFinalize.Customer>): InvoiceBody
  {
    match customer
    case None => b
    case Some(c) =>
      var named := b.(btax := Some(OrEmpty(c.taxId)), baddr := Some(OrEmpty(c.address)),
                      btel := Some(OrEmpty(c.phone)),
                      bname := Some(if c.customerType == Some(SalesFinalize.CompanyType)
                                    then OrEmpty(c.companyName) else SalesFinalize.WalkInName),
                      buyer := Some(OrEmpty(c.name)));
      if IsNullOrEmpty(c.idNumber) then named else named.(idnumber := c.idNumber)
  }

  /** The invoice CreateFptInvoiceData builds for the shop's settings, the
      customer and the cart lines; `idt` is the local time formatted as
      "yyyy-MM-dd HH:mm:ss" and `sid` a fresh Guid. */
  function InvoiceDataOf(shop: ShopData, customer: Option<SalesFinalize.Customer>, lines: seq<Product>,
                         idt: string, sid: string): FptInvoiceData
  {
    var d := NewInvoiceData();
    var sum := SalesFinalize.Subtotal(lines) as real;
    var vat := VatOf(sum);
    var header := d.inv.(kind := Some(OrEmpty(shop.invoiceType)), form := Some(OrEmpty(shop.invoiceForm)),
                         serial := Some(OrEmpty(shop.invoiceSerial)), aun := Some(ProviderNumbers),
                         idt := Some(idt), sid := Some(sid), paym := Some(CashPayment), note := None,
                         stax := Some(OrEmpty(shop.taxId)));
    var inv := WithBuyer(header, customer);
    d.(inv := inv.(items := Some(NumberedItems(lines)), sum := sum, vat := vat, total := sum + vat,
                   sumv := sum, vatv := vat, totalv := sum + vat))
  }

  method CreateFptInvoiceData(shop: ShopData, customer: Option<SalesFinalize.Customer>,
                              lines: seq<Product>, idt: string, sid: string)
    returns (d: FptInvoiceData)
    ensures d == InvoiceDataOf(shop, customer, lines, idt, sid)
  {
    d := NewInvoiceData();
    d := d.(inv := d.inv.(kind := Some(OrEmpty(shop.invoiceType)), form := Some(OrEmpty(shop.invoiceForm)),
                          serial := Some(OrEmpty(shop.invoiceSerial))));
    d := d.(inv := d.inv.(aun := Some(ProviderNumbers), idt := Some(idt), sid := Some(sid)));
    d := d.(inv := d.inv.(paym := Some(CashPayment), note := None, stax := Some(OrEmpty(shop.taxId))));
    if customer.Some? {
      var c := customer.value;
      d := d.(inv := d.inv.(btax := Some(OrEmpty(c.taxId)), baddr := Some(OrEmpty(c.address)),
                            btel := Some(OrEmpty(c.phone))));
      if c.customerType == Some(SalesFinalize.CompanyType) {
        d := d.(inv := d.inv.(bname := Some(OrEmpty(c.companyName)), buyer := Some(OrEmpty(c.name))));
      } else {
        d := d.(inv := d.inv.(bname := Some(SalesFinalize.WalkInName), buyer := Some(OrEmpty(c.name))));
      }
      if !IsNullOrEmpty(c.idNumber) {
        d := d.(inv := d.inv.(idnumber := Some(OrEmpty(c.idNumber))));
      }
    }
    var items := NumberItems(lines);
    assert d.inv.items.value + items == items;
    d := d.(inv := d.inv.(items := Some(d.inv.items.value + items)));
    var subtotal := SalesFinalize.Subtotal(lines) as real;
    var tax := VatOf(subtotal);
    var total := subtotal + tax;
    d := d.(inv := d.inv.(sum := subtotal, vat := tax, total := total));
    d := d.(inv := d.inv.(sumv := subtotal, vatv := tax, totalv := total));
  }

  /** What the invoice body sends for the seller and the invoice series:
      the shop's settings, with null sent as "", aun 2 and payment "TM". */
  lemma PayloadHeader(shop: ShopData, customer: Option<SalesFinalize.Customer>, lines: seq<Product>,
                      idt: string, sid: string)
    ensures var ms := InvJson(InvoiceDataOf(shop, customer, lines, idt, sid).inv).members;
      Lookup(ms, "type") == Some(JString(OrEmpty(shop.invoiceType)))
      && Lookup(ms, "form") == Some(JString(OrEmpty(shop.invoiceForm)))
      && Lookup(ms, "serial") == Some(JString(OrEmpty(shop.invoiceSerial)))
      && Lookup(ms, "stax") == Some(JString(OrEmpty(shop.taxId)))
      && Lookup(ms, "aun") == Some(JNumber(ProviderNumbers as real))
      && Lookup(ms, "class") == None
  {
    var b := InvoiceDataOf(shop, customer, lines, idt, sid).inv;
    assert b.kind == Some(OrEmpty(shop.invoiceType)) && b.form == Some(OrEmpty(shop.invoiceForm))
      && b.serial == Some(OrEmpty(shop.invoiceSerial)) && b.stax == Some(OrEmpty(shop.taxId))
      && b.aun == Some(ProviderNumbers) && b.invoiceClass == None;
    InvGeneralKeysWritten(b);
    InvPartyKeysWritten(b);
    InvTagKeysWritten(b);
  }

  /** What the invoice body sends for the buyer: nothing without a
      customer; otherwise the company name for a company and "Khách lẻ"
      for anyone else, the customer's name as the buyer, and an id number
      exactly when the customer has a non-empty one. */
  lemma PayloadBuyer(shop: ShopData, customer: Option<SalesFinalize.Customer>, lines: seq<Product>,
                     idt: string, sid: string)
    ensures var ms := InvJson(InvoiceDataOf(shop, customer, lines, idt, sid).inv).members;
      (customer.None? ==> Lookup(ms, "bname").None? && Lookup(ms, "buyer").None?
                          && Lookup(ms, "idnumber").None?)
      && (customer.Some? ==>
            Lookup(ms, "bname") == Some(JString(if customer.value.customerType == Some(SalesFinalize.CompanyType)
                                                then OrEmpty(customer.value.companyName)
                                                else SalesFinalize.WalkInName))
            && Lookup(ms, "buyer") == Some(JString(OrEmpty(customer.value.name))))
      && (Lookup(ms, "idnumber").Some? <==> customer.Some? && !IsNullOrEmpty(customer.value.idNumber))
  {
    var b := InvoiceDataOf(shop, customer, lines, idt, sid).inv;
    InvPartyKeysWritten(b);
  }

  /** The body carries the numbered lines as "items" when the cart is not
      empty; an empty list is left out. */
  lemma PayloadLines(shop: ShopData, customer: Option<SalesFinalize.Customer>, lines: seq<Product>,
                     idt: string, sid: string)
    ensures var ms := InvJson(InvoiceDataOf(shop, customer, lines, idt, sid).inv).members;
      Lookup(ms, "items") == (if |lines| > 0 then Some(JArray(ItemsJson(NumberedItems(lines)))) else None)
  {
    var b := InvoiceDataOf(shop, customer, lines, idt, sid).inv;
    InvItemsKey(b);
  }

  /** The body always carries the cart subtotal as "sum" and "sumv", its
      10% as "vat" and their sum as "total"; InvTotalsAlways puts these
      four fields into the payload. */
  lemma InvoiceTotals(shop: ShopData, customer: Option<SalesFinalize.Customer>, lines: seq<Product>,
                      idt: string, sid: string)
    ensures var b := InvoiceDataOf(shop, customer, lines, idt, sid).inv;
      var sum := SalesFinalize.Subtotal(lines) as real;
      b.sum == sum && b.sumv == sum && b.vat == VatOf(sum) && b.total == sum + VatOf(sum)
  {
  }

  // ---------------------------------------------------------------------
  // Reading the reply

  /** What a SimpleJSON read yields: null, a JSONLazyCreator (an object's
      absent key), or a node. */
  datatype Read = NullRef | Lazy | Node(json: Json)

  /** `node[key]`: an object answers its member or a lazy node; a lazy
      node answers another lazy node; every other node answers null. */
  function Child(r: Read, key: string): Read
    requires !r.NullRef?
  {
    match r
    case Lazy => Lazy
    case Node(j) =>
      if !j.JObject? then NullRef
      else if key in Keys(j.members) then Node(Lookup(j.members, key).value)
      else Lazy
  }

  /** `x != null && !x.IsNull`: only null and JSON null fail it. */
  predicate Usable(r: Read)
  {
    r.Lazy? || (r.Node? && !r.json.JNull?)
  }

  /** The guarded `.Value` read; a lazy node's Value is "". */
  function FieldOf(r: Read, fmt: NumberFormat): Option<string>
  {
    if !Usable(r) then None
    else if r.Lazy? then Some("")
    else Some(ValueText(Some(r.json), fmt))
  }

  datatype InvoiceRefs = InvoiceRefs(sid: Option<string>, serial: Option<string>,
                                     seqNo: Option<string>, link: Option<string>)

  /** The references read from the parsed reply: "inv"."sid",
      "inv"."serial", "seq" and "link". */
  function RefsOf(root: Json, fmt: NumberFormat): InvoiceRefs
  {
    var top := Node(root);
    var inv := Child(top, "inv");
    InvoiceRefs(if Usable(inv) then FieldOf(Child(inv, "sid"), fmt) else None,
                if Usable(inv) then FieldOf(Child(inv, "serial"), fmt) else None,
                FieldOf(Child(top, "seq"), fmt),
                FieldOf(Child(top, "link"), fmt))
  }

  /** How one top-level reference reads: a string member reads as itself,
      a JSON null member as null, and an absent member as "" (the lazy
      node); a reply that is not an object gives null. */
  lemma TopLevelReads(root: Json, key: string, fmt: NumberFormat)
    ensures !root.JObject? ==> FieldOf(Child(Node(root), key), fmt).None?
    ensures root.JObject? && key !in Keys(root.members) ==> FieldOf(Child(Node(root), key), fmt) == Some("")
    ensures root.JObject? && Lookup(root.members, key) == Some(JNull) ==> FieldOf(Child(Node(root), key), fmt).None?
    ensures forall s :: root.JObject? && Lookup(root.members, key) == Some(JString(s)) ==>
              FieldOf(Child(Node(root), key), fmt) == Some(s)
  {
  }

  /** The reply FPT documents, {"inv": {"sid": …, "serial": …}, …} with
      string values, yields exactly those two strings; a reply without
      "inv" yields "" for both. */
  lemma DocumentedInvReads(root: Json, invMembers: seq<Member>, sid: string, serial: string,
                           fmt: NumberFormat)
    requires root.JObject?
    ensures Lookup(root.members, "inv") == Some(JObject(invMembers))
            && Lookup(invMembers, "sid") == Some(JString(sid))
            && Lookup(invMembers, "serial") == Some(JString(serial)) ==>
              RefsOf(root, fmt).sid == Some(sid) && RefsOf(root, fmt).serial == Some(serial)
    ensures "inv" !in Keys(root.members) ==> RefsOf(root, fmt).sid == Some("") && RefsOf(root, fmt).serial == Some("")
  {
  }

  /** Its top-level "seq" and "link" strings are read as they are. */
  lemma DocumentedTopReads(root: Json, seqNo: string, link: string, fmt: NumberFormat)
    requires root.JObject?
    ensures Lookup(root.members, "seq") == Some(JString(seqNo)) ==> RefsOf(root, fmt).seqNo == Some(seqNo)
    ensures Lookup(root.members, "link") == Some(JString(link)) ==> RefsOf(root, fmt).link == Some(link)
  {
  }

  // ---------------------------------------------------------------------
  // ProcessFptInvoiceCreation

  /** The API client's reply to SendApiRequestAsync. */
  datatype ApiReply = ApiReply(success: bool, data: Option<string>, error: Option<string>)

  /** Threw: an exception escapes ProcessFptInvoiceCreation to its caller. */
  datatype InvoiceOutcome =
    | Issued(refs: InvoiceRefs)
    | Failed(message: Option<string>)
    | Threw(exception: string)

  /** The outcome, the payload sent (if any) and the update written onto
      the sale document (if any). */
  datatype Processed = Processed(outcome: InvoiceOutcome, request: Option<Json>,
                                 saleUpdate: Option<(string, InvoiceRefs)>)

  /** What follows the send: a refused request fails with the client's
      error; an accepted one is parsed (a reply without data throws a null
      reference), and its references are written onto the sale when the
      sale has an id. */
  function Replied(payload: Json, reply: ApiReply, saleId: Option<string>,
                   updateError: Option<string>, fmt: NumberFormat): Processed
  {
    if !reply.success then Processed(Failed(reply.error), Some(payload), None)
    else
      var parsed := if reply.data.None? then Err(NullReferenceMsg) else Parse(reply.data.value, fmt);
      match parsed
      case Err(e) => Processed(Failed(Some(ReadErrorPrefix + e)), Some(payload), None)
      case Ok(root) =>
        var refs := RefsOf(root, fmt);
        if IsNullOrEmpty(saleId) then Processed(Issued(refs), Some(payload), None)
        else if updateError.Some? then
          Processed(Failed(Some(ReadErrorPrefix + updateError.value)), Some(payload), None)
        else Processed(Issued(refs), Some(payload), Some((saleId.value, refs)))
  }

  /** The JSON CreateFptInvoiceData's invoice is sent as. */
  function Payload(shop: ShopData, customer: Option<SalesFinalize.Customer>, lines: seq<Product>,
                   idt: string, sid: string): Json
  {
    DataJson(InvoiceDataOf(shop, customer, lines, idt, sid))
  }

  /** ProcessFptInvoiceCreation. `shop` is the cached shop settings, the
      flags whether the package has the EInvoice feature, the API client is
      assigned, the device is online and the client's default FPT config is
      assigned (reading its invoice URL throws a null reference otherwise);
      `saleId` is the id of the stored sale's document and `updateError`
      what UpdateAsync throws, if it does. */
  function ProcessFptInvoiceCreation(hasEInvoice: bool, shop: Option<ShopData>, clientReady: bool,
                                     online: bool, configAssigned: bool,
                                     customer: Option<SalesFinalize.Customer>,
                                     lines: seq<Product>, idt: string, sid: string,
                                     send: Json -> ApiReply, saleId: Option<string>,
                                     updateError: Option<string>, fmt: NumberFormat): Processed
  {
    if !hasEInvoice then
      Processed(Failed(Some(NoFeatureMsg(if shop.Some? then shop.value.packageType else None))), None, None)
    else if shop.None? || shop.value.eInvoiceProvider != Some(FptProvider) then
      Processed(Failed(Some(NoProviderMsg)), None, None)
    else if !clientReady then Processed(Failed(Some(NoClientMsg)), None, None)
    else if !online then Processed(Failed(Some(OfflineMsg)), None, None)
    else if !configAssigned then Processed(Threw(NullReferenceMsg), None, None)
    else
      var payload := Payload(shop.value, customer, lines, idt, sid);
      Replied(payload, send(payload), saleId, updateError, fmt)
  }

  /** The four checks come first and, when one fails, nothing is sent and
      the outcome is a failure with a message; when they pass but the
      default config is missing, nothing is sent and a null reference
      escapes; otherwise exactly the invoice CreateFptInvoiceData builds is
      sent. */
  lemma ProcessGuards(hasEInvoice: bool, shop: Option<ShopData>, clientReady: bool, online: bool,
                      configAssigned: bool, customer: Option<SalesFinalize.Customer>, lines: seq<Product>, idt: string,
                      sid: string, send: Json -> ApiReply, saleId: Option<string>,
                      updateError: Option<string>, fmt: NumberFormat)
    ensures var r := ProcessFptInvoiceCreation(hasEInvoice, shop, clientReady, online, configAssigned,
                                               customer, lines, idt, sid, send, saleId, updateError, fmt);
      var ready := hasEInvoice && shop.Some? && shop.value.eInvoiceProvider == Some(FptProvider)
                   && clientReady && online;
      (r.request.Some? <==> ready && configAssigned)
      && (!ready ==> r.outcome.Failed? && r.outcome.message.Some? && r.saleUpdate.None?)
      && (r.outcome.Threw? <==> ready && !configAssigned)
      && (r.outcome.Threw? ==> r.outcome.exception == NullReferenceMsg && r.saleUpdate.None?)
      && (ready && configAssigned ==>
            var payload := Payload(shop.value, customer, lines, idt, sid);
            r == Replied(payload, send(payload), saleId, updateError, fmt))
  {
  }

  /** After the send the request is always reported; an issued invoice
      means FPT accepted it and its reply parsed, and carries the
      references read from it; they go onto the sale exactly when the sale
      has an id, and a failure to write them is reported as a failure to
      read the reply. */
  lemma ReplySteps(payload: Json, reply: ApiReply, saleId: Option<string>,
                   updateError: Option<string>, fmt: NumberFormat)
    ensures var r := Replied(payload, reply, saleId, updateError, fmt);
      r.request == Some(payload)
      && (!reply.success ==> r.outcome == Failed(reply.error))
      && (r.outcome.Issued? <==>
            reply.success && reply.data.Some? && Parse(reply.data.value, fmt).Ok?
            && (IsNullOrEmpty(saleId) || updateError.None?))
      && (r.outcome.Issued? ==> r.outcome.refs == RefsOf(Parse(reply.data.value, fmt).value, fmt))
      && (r.saleUpdate.Some? <==> r.outcome.Issued? && !IsNullOrEmpty(saleId))
      && (r.saleUpdate.Some? ==> r.saleUpdate.value == (saleId.value, r.outcome.refs))
      && (reply.success && reply.data.Some? && Parse(reply.data.value, fmt).Ok?
          && !IsNullOrEmpty(saleId) && updateError.Some?
          ==> r.outcome == Failed(Some(ReadErrorPrefix + updateError.value)))
  {
  }

  /** OnExportInvoiceButtonClicked: the upgrade message unless both configs
      are loaded and the package has the EInvoice feature; the feature
      itself is not built yet. */
  function OnExportInvoiceButtonClicked(globalConfigLoaded: bool, packageConfigLoaded: bool,
                                        hasEInvoice: bool, packageName: Option<string>): (message: string)
    ensures message == ExportPendingMsg <==> globalConfigLoaded && packageConfigLoaded && hasEInvoice
  {
    if !globalConfigLoaded || !packageConfigLoaded || !hasEInvoice then ExportUpgradeMsg(packageName)
    else ExportPendingMsg
  }
}
