// SalesFinalizeTransaction: the payment summary of the sales screen and the
// "complete sale" flow. The flow checks its preconditions, saves or updates
// the customer, checks the cart against the inventory list while building
// the sale lines, stores the sale, takes the sold quantities off the stock,
// hands over to the e-invoice step and finally clears the cart.
//
// Firestore writes are recorded in an effect log; whether each remote call
// succeeds, and the document ids it returns, are parameters. The 10% tax,
// `(long)(subtotal * 0.10)` in double arithmetic, is the parameter `taxOf`.
module SalesFinalize {
  import opened Wrappers
  import opened DotNetText
  import opened Products
  import opened ShopRecords
  import SalesCart

  const WalkInName: string := "Khách lẻ"
  const CompanyType: string := "Công ty"

  /** CustomerData; null strings are None. */
  datatype Customer = Customer(
    customerId: Option<string>, phone: Option<string>, name: Option<string>,
    address: Option<string>, taxId: Option<string>, companyName: Option<string>,
    customerType: Option<string>, idNumber: Option<string>)

  /** SaleItem: one sold line. */
  datatype SaleItem = SaleItem(productId: Option<string>, productName: string, unit: string,
                               quantity: int, priceAtSale: int)

  /** SaleData as written by the flow. */
  datatype Sale = Sale(customerId: string, customerName: string, customerPhone: string,
                       totalAmount: int, taxAmount: int, subtotal: int,
                       saleDate: Timestamp, items: seq<SaleItem>)

  /** The Firestore writes of the flow, in the order they are made. A stock
      batch is committed as a whole: each entry is a product id and the
      (negative) increment of its stock. */
  datatype Write =
    | AddCustomer(customer: Customer)
    | SetCustomer(id: string, customer: Customer)
    | AddSale(sale: Sale)
    | CommitStock(increments: seq<(Option<string>, int)>)

  // ---------------------------------------------------------------------
  // Totals

  function LineTotal(p: Product): int
  {
    p.price * p.stock
  }

  /** Σ price × quantity over the cart lines. */
  function Subtotal(lines: seq<Product>): int
  {
    if lines == [] then 0 else Subtotal(lines[..|lines| - 1]) + LineTotal(lines[|lines| - 1])
  }

  lemma {:induction false} SubtotalConcat(a: seq<Product>, b: seq<Product>)
    ensures Subtotal(a + b) == Subtotal(a) + Subtotal(b)
    decreases |b|
  {
    if b == [] {
      assert a + b == a;
    } else {
      assert (a + b)[..|a + b| - 1] == a + b[..|b| - 1];
      SubtotalConcat(a, b[..|b| - 1]);
    }
  }

  lemma SubtotalWithout(s: seq<Product>, j: nat)
    requires j < |s|
    ensures Subtotal(s) == Subtotal(s[..j] + s[j + 1..]) + LineTotal(s[j])
  {
    assert s[..j + 1] + s[j + 1..] == s;
    SubtotalConcat(s[..j + 1], s[j + 1..]);
    assert s[..j + 1][..j] == s[..j];
    SubtotalConcat(s[..j], s[j + 1..]);
  }

  /** The subtotal does not depend on the order the dictionary enumerates
      its lines in. */
  lemma {:induction false} SubtotalPermutation(a: seq<Product>, b: seq<Product>)
    requires multiset(a) == multiset(b)
    ensures Subtotal(a) == Subtotal(b)
    decreases |a|
  {
    if a != [] {
      var x := a[|a| - 1];
      assert a == a[..|a| - 1] + [x];
      assert x in multiset(b);
      var j :| 0 <= j < |b| && b[j] == x;
      assert b == b[..j] + [x] + b[j + 1..];
      var rest := b[..j] + b[j + 1..];
      assert multiset(b) == multiset(b[..j]) + multiset{x} + multiset(b[j + 1..]);
      assert multiset(a) == multiset(a[..|a| - 1]) + multiset{x};
      assert multiset(rest) == multiset(b[..j]) + multiset(b[j + 1..]);
      assert multiset(a[..|a| - 1]) == multiset(a) - multiset{x};
      assert multiset(rest) == multiset(b) - multiset{x};
      SubtotalPermutation(a[..|a| - 1], rest);
      SubtotalWithout(b, j);
    } else {
      assert |b| == 0;
    }
  }

  /** The foreach of UpdateCartSummaryUI. */
  method SumLines(lines: seq<Product>) returns (subtotal: int)
    ensures subtotal == Subtotal(lines)
  {
    subtotal := 0;
    var i := 0;
    while i < |lines|
      invariant 0 <= i <= |lines|
      invariant subtotal == Subtotal(lines[..i])
    {
      assert lines[..i + 1][..i] == lines[..i];
      subtotal := subtotal + lines[i].price * lines[i].stock;
      i := i + 1;
    }
    assert lines[..i] == lines;
  }

  // ---------------------------------------------------------------------
  // The checks before anything is written

  datatype Outcome =
    | EmptyCart
    | NoUser
    | NoShopSettings
    | NoSalesFeature
    | CompanyNameMissing
    | CustomerSaveFailed
    | NotEnoughStock(line: Product)
    | SaleSaveFailed
    | StockUpdateFailed
    | Completed(sale: Sale)

  /** The guards, in their order; None when all pass. */
  function Precheck(cartSize: nat, hasUser: bool, hasSettings: bool, hasSales: bool): Option<Outcome>
  {
    if cartSize == 0 then Some(EmptyCart)
    else if !hasUser then Some(NoUser)
    else if !hasSettings then Some(NoShopSettings)
    else if !hasSales then Some(NoSalesFeature)
    else None
  }

  /** The customer read from the form, with an empty name made the walk-in
      customer; a company without a company name is refused. */
  function NormalCustomer(fromForm: Customer): Option<Customer>
  {
    var c := if IsNullOrEmpty(fromForm.name) then fromForm.(name := Some(WalkInName)) else fromForm;
    if c.customerType == Some(CompanyType) && IsNullOrEmpty(c.companyName) then None else Some(c)
  }

  /** The fields whose change makes the flow rewrite a known customer (the
      phone number is not among them). */
  predicate CustomerChanged(stored: Customer, entered: Customer)
  {
    stored.name != entered.name || stored.address != entered.address
    || stored.taxId != entered.taxId || stored.companyName != entered.companyName
    || stored.customerType != entered.customerType || stored.idNumber != entered.idNumber
  }

  /** A known customer: one the customer manager holds with a non-empty id. */
  predicate Known(current: Option<Customer>)
  {
    current.Some? && !IsNullOrEmpty(current.value.customerId)
  }

  // ---------------------------------------------------------------------
  // Sale lines

  /** A cart line passes the stock check: always without the Inventory
      feature, otherwise when the inventory list holds its id with at least
      its quantity. */
  predicate Stocked(p: Product, hasInventory: bool, all: Option<seq<Product>>)
  {
    !hasInventory
    || (all.Some? && FirstWithId(all.value, p.productId).Some?
        && p.stock <= FirstWithId(all.value, p.productId).value.stock)
  }

  function SaleItemOf(p: Product): SaleItem
  {
    SaleItem(p.productId, OrEmpty(p.productName), OrEmpty(p.unit), p.stock, p.price)
  }

  function SaleItemsOf(lines: seq<Product>): (items: seq<SaleItem>)
    ensures |items| == |lines|
    ensures forall i :: 0 <= i < |lines| ==> items[i] == SaleItemOf(lines[i])
  {
    if lines == [] then [] else SaleItemsOf(lines[..|lines| - 1]) + [SaleItemOf(lines[|lines| - 1])]
  }

  /** The first line that fails the stock check, if any. */
  function FirstShort(lines: seq<Product>, hasInventory: bool, all: Option<seq<Product>>): (r: Option<nat>)
    ensures r.Some? ==> r.value < |lines| && !Stocked(lines[r.value], hasInventory, all)
    ensures r.Some? ==> forall i :: 0 <= i < r.value ==> Stocked(lines[i], hasInventory, all)
    ensures r.None? ==> forall i :: 0 <= i < |lines| ==> Stocked(lines[i], hasInventory, all)
  {
    if lines == [] then None
    else if !Stocked(lines[0], hasInventory, all) then Some(0)
    else match FirstShort(lines[1..], hasInventory, all)
      case None => None
      case Some(j) => Some(j + 1)
  }

  /** The foreach that checks each line and builds the sale items: it stops
      at the first line short of stock and reports it. */
  method BuildSaleItems(lines: seq<Product>, hasInventory: bool, all: Option<seq<Product>>)
    returns (items: seq<SaleItem>, short: Option<Product>)
    ensures match FirstShort(lines, hasInventory, all)
      case Some(j) => short == Some(lines[j])
      case None => short.None? && items == SaleItemsOf(lines)
  {
    items := [];
    short := None;
    var i := 0;
    while i < |lines| && short.None?
      invariant 0 <= i <= |lines|
      invariant short.None? ==>
        items == SaleItemsOf(lines[..i]) && forall k :: 0 <= k < i ==> Stocked(lines[k], hasInventory, all)
      invariant short.Some? ==>
        i > 0 && short == Some(lines[i - 1]) && !Stocked(lines[i - 1], hasInventory, all)
        && forall k :: 0 <= k < i - 1 ==> Stocked(lines[k], hasInventory, all)
      decreases |lines| - i, if short.None? then 1 else 0
    {
      var line := lines[i];
      var inventoryProduct := if all.None? then None else FirstWithId(all.value, line.productId);
      if hasInventory && (inventoryProduct.None? || line.stock > inventoryProduct.value.stock) {
        short := Some(line);
      } else {
        assert lines[..i + 1][..i] == lines[..i];
        items := items + [SaleItemOf(line)];
      }
      i := i + 1;
    }
    if short.None? {
      assert lines[..i] == lines;
    }
    ShortIsFirst(lines, hasInventory, all, i, short);
  }

  lemma ShortIsFirst(lines: seq<Product>, hasInventory: bool, all: Option<seq<Product>>,
                     i: nat, short: Option<Product>)
    requires i <= |lines|
    requires short.None? ==>
      i == |lines| && forall k :: 0 <= k < i ==> Stocked(lines[k], hasInventory, all)
    requires short.Some? ==>
      i > 0 && short == Some(lines[i - 1]) && !Stocked(lines[i - 1], hasInventory, all)
      && forall k :: 0 <= k < i - 1 ==> Stocked(lines[k], hasInventory, all)
    ensures match FirstShort(lines, hasInventory, all)
      case Some(j) => short == Some(lines[j])
      case None => short.None?
  {
    var r := FirstShort(lines, hasInventory, all);
    if r.Some? {
      assert !Stocked(lines[r.value], hasInventory, all);
    }
    if short.Some? {
      assert !Stocked(lines[i - 1], hasInventory, all);
    }
  }

  /** Step 4: check the lines against the inventory list and build the
      sale; nothing is written. */
  method PrepareSale(lines: seq<Product>, customer: Customer, hasInventory: bool,
                     all: Option<seq<Product>>, remote: Remote, taxOf: int -> int)
    returns (short: Option<Product>, sale: Sale)
    ensures match FirstShort(lines, hasInventory, all)
      case Some(j) => short == Some(lines[j])
      case None => short.None? && sale == SaleOf(customer, lines, taxOf, remote.now)
  {
    var items;
    items, short := BuildSaleItems(lines, hasInventory, all);
    var subtotal := SumLines(lines);
    var tax := taxOf(subtotal);
    sale := Sale(OrEmpty(customer.customerId), OrEmpty(customer.name),
                 OrEmpty(customer.phone), subtotal + tax, tax, subtotal, remote.now, items);
  }

  /** The stock batch: each line's product id with minus its quantity. */
  function Decrements(lines: seq<Product>): (ds: seq<(Option<string>, int)>)
    ensures |ds| == |lines|
    ensures forall i :: 0 <= i < |lines| ==> ds[i] == (lines[i].productId, -lines[i].stock)
  {
    if lines == [] then [] else Decrements(lines[..|lines| - 1]) + [(lines[|lines| - 1].productId, -lines[|lines| - 1].stock)]
  }

  /** The foreach that fills the WriteBatch. */
  method BuildBatch(lines: seq<Product>) returns (batch: seq<(Option<string>, int)>)
    ensures batch == Decrements(lines)
  {
    batch := [];
    var i := 0;
    while i < |lines|
      invariant 0 <= i <= |lines|
      invariant batch == Decrements(lines[..i])
    {
      assert lines[..i + 1][..i] == lines[..i];
      batch := batch + [(lines[i].productId, -lines[i].stock)];
      i := i + 1;
    }
    assert lines[..i] == lines;
  }

  /** The remote side of one run of the flow: the id AddAsync gives a new
      customer (None when it throws), whether SetAsync of a changed
      customer succeeds, the id of the stored sale (None when AddAsync
      throws), whether the stock batch commits, and the clock. */
  datatype Remote = Remote(newCustomerId: Option<string>, customerSetOk: bool,
                           saleId: Option<string>, batchOk: bool, now: Timestamp)

  /** Steps 3 of the flow: the customer as saved, and the write it took.
      None when the remote call failed. */
  function SavedCustomer(entered: Customer, current: Option<Customer>, remote: Remote)
    : Option<(Customer, seq<Write>)>
  {
    if !Known(current) then
      match remote.newCustomerId
      case None => None
      case Some(id) => Some((entered.(customerId := Some(id)), [AddCustomer(entered)]))
    else if CustomerChanged(current.value, entered) then
      if remote.customerSetOk then
        Some((entered.(customerId := current.value.customerId),
              [SetCustomer(current.value.customerId.value, entered)]))
      else None
    else Some((current.value, []))
  }

  /** The sale document built from the saved customer and the cart lines. */
  function SaleOf(customer: Customer, lines: seq<Product>, taxOf: int -> int, now: Timestamp): Sale
  {
    var subtotal := Subtotal(lines);
    Sale(OrEmpty(customer.customerId), OrEmpty(customer.name), OrEmpty(customer.phone),
         subtotal + taxOf(subtotal), taxOf(subtotal), subtotal, now, SaleItemsOf(lines))
  }

  class Finalizer {
    /** Everything written to Firestore so far. */
    var writes: seq<Write>
    /** The customer manager's current customer. */
    var currentCustomer: Option<Customer>
    var subtotalShown: int
    var taxShown: int
    var grandTotalShown: int
    var completeEnabled: bool
    var cancelEnabled: bool

    constructor()
      ensures writes == [] && currentCustomer.None?
    {
      writes := [];
      currentCustomer := None;
      subtotalShown := 0;
      taxShown := 0;
      grandTotalShown := 0;
      completeEnabled := true;
      cancelEnabled := true;
    }

    /** UpdateCartSummaryUI, given the cart's lines (None while there is no
        cart manager). */
    method UpdateCartSummaryUI(lines: Option<seq<Product>>, taxOf: int -> int)
      modifies this
      ensures var subtotal := if lines.None? then 0 else Subtotal(lines.value);
        subtotalShown == subtotal && taxShown == taxOf(subtotal)
        && grandTotalShown == subtotal + taxOf(subtotal)
      ensures completeEnabled <==> lines.Some? && |lines.value| > 0
      ensures writes == old(writes) && currentCustomer == old(currentCustomer)
      ensures cancelEnabled == old(cancelEnabled)
    {
      var subtotal := 0;
      if lines.Some? {
        subtotal := SumLines(lines.value);
      }
      var tax := taxOf(subtotal);
      subtotalShown, taxShown, grandTotalShown := subtotal, tax, subtotal + tax;
      completeEnabled := lines.Some? && |lines.value| > 0;
    }

    /** Steps 1 and 2: the guards and the customer form; nothing is written. */
    method CheckSale(cartSize: nat, hasUser: bool, hasSettings: bool, hasSales: bool, fromForm: Customer)
      returns (stop: Option<Outcome>, entered: Customer)
      ensures stop == match Precheck(cartSize, hasUser, hasSettings, hasSales)
        case Some(o) => Some(o)
        case None => if NormalCustomer(fromForm).None? then Some(CompanyNameMissing) else None
      ensures stop.None? ==> Some(entered) == NormalCustomer(fromForm)
    {
      entered := fromForm;
      stop := Precheck(cartSize, hasUser, hasSettings, hasSales);
      if stop.None? {
        if IsNullOrEmpty(entered.name) {
          entered := entered.(name := Some(WalkInName));
        }
        if entered.customerType == Some(CompanyType) && IsNullOrEmpty(entered.companyName) {
          stop := Some(CompanyNameMissing);
        }
      }
    }

    /** Step 3: add a new customer, rewrite a changed one, or reuse it. */
    method SaveCustomer(entered: Customer, remote: Remote) returns (saved: Option<Customer>)
      modifies this
      ensures match SavedCustomer(entered, old(currentCustomer), remote)
        case None => saved.None? && writes == old(writes) && currentCustomer == old(currentCustomer)
        case Some(done) =>
          saved == Some(done.0) && writes == old(writes) + done.1 && currentCustomer == saved
      ensures subtotalShown == old(subtotalShown) && taxShown == old(taxShown)
      ensures grandTotalShown == old(grandTotalShown)
    {
      saved := None;
      if !Known(currentCustomer) {
        if remote.newCustomerId.Some? {
          writes := writes + [AddCustomer(entered)];
          saved := Some(entered.(customerId := remote.newCustomerId));
        }
      } else {
        var existing := currentCustomer.value;
        if CustomerChanged(existing, entered) {
          if remote.customerSetOk {
            writes := writes + [SetCustomer(existing.customerId.value, entered)];
            saved := Some(entered.(customerId := existing.customerId));
          }
        } else {
          saved := Some(existing);
        }
      }
      if saved.Some? {
        currentCustomer := saved;
      }
    }

    /** Step 5: store the sale, then (with the Inventory feature) commit
        the stock batch. */
    method StoreSale(sale: Sale, lines: seq<Product>, hasInventory: bool, remote: Remote)
      returns (outcome: Outcome)
      modifies this
      ensures var run := StoreRun(sale, lines, hasInventory, remote);
        outcome == run.0 && writes == old(writes) + run.1
      ensures currentCustomer == old(currentCustomer) && !SilentStop(outcome)
    {
      if remote.saleId.None? {
        outcome := SaleSaveFailed;
      } else {
        writes := writes + [AddSale(sale)];
        outcome := Completed(sale);
        if hasInventory {
          var batch := BuildBatch(lines);
          if remote.batchOk {
            writes := writes + [CommitStock(batch)];
          } else {
            outcome := StockUpdateFailed;
          }
        }
      }
    }

    /** Steps 4 and 5 for a saved customer: the stock check and the sale
        lines, then the sale and the stock batch. */
    method Checkout(lines: seq<Product>, all: Option<seq<Product>>, customer: Customer,
                    hasInventory: bool, remote: Remote, taxOf: int -> int)
      returns (outcome: Outcome)
      modifies this
      ensures var run := CheckoutRun(lines, all, customer, hasInventory, remote, taxOf);
        outcome == run.0 && writes == old(writes) + run.1
      ensures currentCustomer == old(currentCustomer) && !SilentStop(outcome)
    {
      var short, sale := PrepareSale(lines, customer, hasInventory, all, remote, taxOf);
      if short.Some? {
        outcome := NotEnoughStock(short.value);
      } else {
        outcome := StoreSale(sale, lines, hasInventory, remote);
      }
    }

    /** OnCancelSaleButtonClicked: empty the cart and forget the customer. */
    method OnCancelSaleButtonClicked(cart: SalesCart.Cart)
      requires cart.Valid()
      modifies this, cart
      ensures cart.Valid() && cart.contents == map[] && cart.allProducts == old(cart.allProducts)
      ensures currentCustomer.None?
      ensures writes == old(writes)
      ensures completeEnabled == old(completeEnabled) && cancelEnabled == old(cancelEnabled)
    {
      cart.ClearCart();
      currentCustomer := None;
    }

    /** Steps 3 to 5 once the checks have passed, on the cart's lines and
        the inventory list. The buttons end up interactable whatever
        happens. */
    method SaveAndCheckout(lines: seq<Product>, all: Option<seq<Product>>, entered: Customer,
                           hasInventory: bool, remote: Remote, taxOf: int -> int)
      returns (outcome: Outcome)
      modifies this
      ensures var run := old(AfterChecks(lines, all, entered, currentCustomer, hasInventory, remote, taxOf));
        outcome == run.0 && writes == old(writes) + run.1
      ensures completeEnabled && cancelEnabled && !SilentStop(outcome)
    {
      completeEnabled, cancelEnabled := false, false;
      var saved := SaveCustomer(entered, remote);
      if saved.None? {
        outcome := CustomerSaveFailed;
      } else {
        outcome := Checkout(lines, all, saved.value, hasInventory, remote, taxOf);
      }
      completeEnabled, cancelEnabled := true, true;
    }

    /** OnCompleteSaleButtonClicked. The e-invoice step that follows a
        stored sale only reports its result and is modelled with the
        invoice manager; `invoiceThrows` says whether it throws instead
        (SalesFptInvoice's Threw outcome), which ends the handler there. A
        completed sale whose invoice step returns then resets the cart and
        the customer as the cancel button does; one whose invoice step
        throws keeps the cart and leaves the buttons disabled. The first
        three checks leave the buttons as they are; every other ending
        makes them interactable. */
    method OnCompleteSaleButtonClicked(cart: SalesCart.Cart, hasUser: bool, hasSettings: bool,
                                       hasSales: bool, hasInventory: bool, fromForm: Customer,
                                       remote: Remote, taxOf: int -> int, invoiceThrows: bool)
      returns (outcome: Outcome)
      requires cart.Valid()
      modifies this, cart
      ensures cart.Valid()
      ensures var run := old(SaleRun(cart.Values(), cart.allProducts, hasUser, hasSettings, hasSales,
                                     hasInventory, fromForm, currentCustomer, remote, taxOf));
        outcome == run.0 && writes == old(writes) + run.1
      ensures outcome.Completed? && !invoiceThrows ==> cart.contents == map[] && currentCustomer.None?
      ensures !outcome.Completed? || invoiceThrows ==> cart.contents == old(cart.contents)
      ensures SilentStop(outcome) ==>
        completeEnabled == old(completeEnabled) && cancelEnabled == old(cancelEnabled)
      ensures outcome.Completed? && invoiceThrows ==> !completeEnabled && !cancelEnabled
      ensures !SilentStop(outcome) && !(outcome.Completed? && invoiceThrows) ==>
        completeEnabled && cancelEnabled
    {
      var lines := cart.Values();
      var stop, entered := CheckSale(|lines|, hasUser, hasSettings, hasSales, fromForm);
      if stop.Some? {
        outcome := stop.value;
        if !SilentStop(outcome) {
          completeEnabled, cancelEnabled := true, true;
        }
      } else {
        outcome := SaveAndCheckout(lines, cart.allProducts, entered, hasInventory, remote, taxOf);
        if outcome.Completed? {
          if invoiceThrows {
            completeEnabled, cancelEnabled := false, false;
          } else {
            OnCancelSaleButtonClicked(cart);
          }
        }
      }
    }
  }

  /** The checks that end the flow without touching the buttons. */
  predicate SilentStop(o: Outcome)
  {
    o.EmptyCart? || o.NoUser? || o.NoShopSettings?
  }

  /** Steps 3 to 5 on values. */
  function AfterChecks(lines: seq<Product>, all: Option<seq<Product>>, entered: Customer,
                       current: Option<Customer>, hasInventory: bool, remote: Remote,
                       taxOf: int -> int): (Outcome, seq<Write>)
  {
    match SavedCustomer(entered, current, remote)
    case None => (CustomerSaveFailed, [])
    case Some(done) =>
      var run := CheckoutRun(lines, all, done.0, hasInventory, remote, taxOf);
      (run.0, done.1 + run.1)
  }

  /** Steps 4 and 5 on values, for the customer as saved. */
  function CheckoutRun(lines: seq<Product>, all: Option<seq<Product>>, customer: Customer,
                       hasInventory: bool, remote: Remote, taxOf: int -> int): (Outcome, seq<Write>)
  {
    match FirstShort(lines, hasInventory, all)
    case Some(j) => (NotEnoughStock(lines[j]), [])
    case None =>
      StoreRun(SaleOf(customer, lines, taxOf, remote.now), lines, hasInventory, remote)
  }

  /** Step 5 on values: the sale is stored first, so a failed stock batch
      leaves a stored sale whose quantities were not taken off the stock. */
  function StoreRun(sale: Sale, lines: seq<Product>, hasInventory: bool, remote: Remote): (Outcome, seq<Write>)
  {
    if remote.saleId.None? then (SaleSaveFailed, [])
    else if !hasInventory then (Completed(sale), [AddSale(sale)])
    else if !remote.batchOk then (StockUpdateFailed, [AddSale(sale)])
    else (Completed(sale), [AddSale(sale), CommitStock(Decrements(lines))])
  }

  /** The whole flow on values: its outcome and the writes it makes. */
  function SaleRun(lines: seq<Product>, all: Option<seq<Product>>, hasUser: bool, hasSettings: bool,
                   hasSales: bool, hasInventory: bool, fromForm: Customer,
                   current: Option<Customer>, remote: Remote, taxOf: int -> int): (Outcome, seq<Write>)
  {
    match Precheck(|lines|, hasUser, hasSettings, hasSales)
    case Some(o) => (o, [])
    case None =>
      match NormalCustomer(fromForm)
      case None => (CompanyNameMissing, [])
      case Some(entered) => AfterChecks(lines, all, entered, current, hasInventory, remote, taxOf)
  }

  /** A customer the flow saves always has a name, and a company always
      has a company name. */
  lemma NormalCustomerNamed(fromForm: Customer)
    ensures match NormalCustomer(fromForm)
      case Some(c) =>
        !IsNullOrEmpty(c.name) && (c.customerType == Some(CompanyType) ==> !IsNullOrEmpty(c.companyName))
        && c == fromForm.(name := c.name)
        && (!IsNullOrEmpty(fromForm.name) ==> c == fromForm)
      case None => fromForm.customerType == Some(CompanyType) && IsNullOrEmpty(fromForm.companyName)
  {
  }

  /** The order of a flow's writes: at most one customer write and it
      comes first, the sale exactly when the flow got past the stock check
      and AddAsync succeeded, and the stock batch only with the Inventory
      feature, right after the sale, for a completed sale. */
  predicate WritesOrdered(o: Outcome, ws: seq<Write>, lines: seq<Product>, hasInventory: bool)
  {
    |ws| <= 3
    && (forall i :: 0 < i < |ws| ==> !ws[i].AddCustomer? && !ws[i].SetCustomer?)
    && ((exists i :: 0 <= i < |ws| && ws[i].AddSale?) <==> o.Completed? || o.StockUpdateFailed?)
    && (forall i :: 0 <= i < |ws| && ws[i].CommitStock? ==>
          hasInventory && o.Completed? && i > 0 && ws[i - 1].AddSale?
          && ws[i].increments == Decrements(lines))
    && (o.Completed? && hasInventory ==> ws[|ws| - 1] == CommitStock(Decrements(lines)))
  }

  /** What the flow writes: nothing when a check fails, and otherwise the
      writes in the order WritesOrdered describes. */
  lemma SaleRunWrites(lines: seq<Product>, all: Option<seq<Product>>, hasUser: bool, hasSettings: bool,
                      hasSales: bool, hasInventory: bool, fromForm: Customer,
                      current: Option<Customer>, remote: Remote, taxOf: int -> int)
    ensures var run := SaleRun(lines, all, hasUser, hasSettings, hasSales, hasInventory,
                               fromForm, current, remote, taxOf);
      ((Precheck(|lines|, hasUser, hasSettings, hasSales).Some? || run.0.CompanyNameMissing?
        || run.0.CustomerSaveFailed?) ==> run.1 == [])
      && WritesOrdered(run.0, run.1, lines, hasInventory)
  {
    if Precheck(|lines|, hasUser, hasSettings, hasSales).None? && NormalCustomer(fromForm).Some? {
      AfterChecksWrites(lines, all, NormalCustomer(fromForm).value, current, hasInventory, remote, taxOf);
    }
  }

  /** The writes of steps 3 to 5. */
  lemma AfterChecksWrites(lines: seq<Product>, all: Option<seq<Product>>, entered: Customer,
                          current: Option<Customer>, hasInventory: bool, remote: Remote, taxOf: int -> int)
    ensures var run := AfterChecks(lines, all, entered, current, hasInventory, remote, taxOf);
      (run.0.CustomerSaveFailed? ==> run.1 == [])
      && WritesOrdered(run.0, run.1, lines, hasInventory)
  {
    var saved := SavedCustomer(entered, current, remote);
    if saved.Some? {
      var pre := saved.value.1;
      var tail := CheckoutRun(lines, all, saved.value.0, hasInventory, remote, taxOf);
      assert |pre| <= 1 && forall w :: w in pre ==> w.AddCustomer? || w.SetCustomer?;
      CheckoutRunWrites(lines, all, saved.value.0, hasInventory, remote, taxOf);
      ConcatWrites(pre, tail.1);
    }
  }

  /** The writes of steps 4 and 5: the sale, then possibly the batch. */
  lemma CheckoutRunWrites(lines: seq<Product>, all: Option<seq<Product>>, customer: Customer,
                          hasInventory: bool, remote: Remote, taxOf: int -> int)
    ensures var run := CheckoutRun(lines, all, customer, hasInventory, remote, taxOf);
      var o, ws := run.0, run.1;
      |ws| <= 2
      && (ws != [] <==> o.Completed? || o.StockUpdateFailed?)
      && (ws != [] ==> ws[0].AddSale?)
      && (|ws| == 2 <==> o.Completed? && hasInventory)
      && (|ws| == 2 ==> ws[1] == CommitStock(Decrements(lines)))
  {
  }

  lemma ConcatWrites(pre: seq<Write>, ws: seq<Write>)
    requires |pre| <= 1 && forall w :: w in pre ==> w.AddCustomer? || w.SetCustomer?
    requires |ws| <= 2 && (ws != [] ==> ws[0].AddSale?)
    requires |ws| == 2 ==> ws[1].CommitStock?
    ensures var all := pre + ws;
      |all| <= 3
      && (forall i :: 0 < i < |all| ==> !all[i].AddCustomer? && !all[i].SetCustomer?)
      && ((exists i :: 0 <= i < |all| && all[i].AddSale?) <==> ws != [])
      && (forall i :: 0 <= i < |all| && all[i].CommitStock? ==> i == |all| - 1 && |ws| == 2 && all[i - 1].AddSale?)
  {
    forall i | 0 <= i < |pre|
      ensures !pre[i].AddSale? && !pre[i].CommitStock?
    {
      assert pre[i] in pre;
    }
    if ws != [] {
      assert (pre + ws)[|pre|].AddSale?;
    } else {
      assert pre + ws == pre;
    }
  }

  /** A completed sale matches the cart: one item per line in the cart's
      order, the subtotal of the lines, the tax on it and their sum; every
      line passed the stock check, and the buyer has a name. */
  lemma CompletedSaleMatchesCart(lines: seq<Product>, all: Option<seq<Product>>, hasUser: bool,
                                 hasSettings: bool, hasSales: bool, hasInventory: bool,
                                 fromForm: Customer, current: Option<Customer>, remote: Remote,
                                 taxOf: int -> int)
    ensures var o := SaleRun(lines, all, hasUser, hasSettings, hasSales, hasInventory,
                             fromForm, current, remote, taxOf).0;
      o.Completed? ==>
        |lines| > 0 && hasUser && hasSettings && hasSales && remote.saleId.Some?
        && (hasInventory ==> remote.batchOk)
        && o.sale.items == SaleItemsOf(lines)
        && o.sale.subtotal == Subtotal(lines)
        && o.sale.taxAmount == taxOf(o.sale.subtotal)
        && o.sale.totalAmount == o.sale.subtotal + o.sale.taxAmount
        && o.sale.saleDate == remote.now
        && (forall i :: 0 <= i < |lines| ==> Stocked(lines[i], hasInventory, all))
        && o.sale.customerName != ""
  {
    var o := SaleRun(lines, all, hasUser, hasSettings, hasSales, hasInventory,
                     fromForm, current, remote, taxOf).0;
    if o.Completed? {
      assert Precheck(|lines|, hasUser, hasSettings, hasSales).None?;
      NormalCustomerNamed(fromForm);
      var entered := NormalCustomer(fromForm).value;
      SavedCustomerKeepsName(entered, current, remote);
      var done := SavedCustomer(entered, current, remote).value;
      CheckoutRunCompleted(lines, all, done.0, hasInventory, remote, taxOf);
    }
  }

  /** The customer the flow goes on with has the name entered. */
  lemma SavedCustomerKeepsName(entered: Customer, current: Option<Customer>, remote: Remote)
    ensures var r := SavedCustomer(entered, current, remote);
      r.Some? ==> r.value.0.name == entered.name
  {
  }

  /** A completed checkout stored the sale of the lines for the customer,
      after every line passed the stock check. */
  lemma CheckoutRunCompleted(lines: seq<Product>, all: Option<seq<Product>>, customer: Customer,
                             hasInventory: bool, remote: Remote, taxOf: int -> int)
    ensures var o := CheckoutRun(lines, all, customer, hasInventory, remote, taxOf).0;
      o.Completed? ==>
        remote.saleId.Some? && (hasInventory ==> remote.batchOk)
        && o.sale == SaleOf(customer, lines, taxOf, remote.now)
        && (forall i :: 0 <= i < |lines| ==> Stocked(lines[i], hasInventory, all))
  {
  }
}
