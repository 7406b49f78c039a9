// SalesCartManager: the cart of the sales screen. The cart is a
// Dictionary<string, ProductData> from product id to a cart line object;
// the lines are changed in place (quantity changes) or added and removed.
// Each cart line has at most one UI row; _cartItemUIObjects records which
// product ids have one. The inventory list the cart checks against is set
// from outside and read here only.
module SalesCart {
  import opened Wrappers
  import opened DotNetText
  import opened Products
  import Sorting
  import SlotDict
  import opened CartItemView

  /** The cart's contents as values: product id to line. */
  type CartMap = map<string, Product>

  // ---------------------------------------------------------------------
  // Adding from the search popup

  datatype AddResult =
    | NullProduct
    | EmptyProductId
    | ProductsNotLoaded
    | NotInInventory
    | NotEnoughStock
    | AddedToCart

  /** Quantity of a product already in the cart (0 when absent). */
  function InCart(cart: CartMap, id: string): int
  {
    if id in cart then cart[id].stock else 0
  }

  /** The guards of HandleAddToCartFromPopup, in their order. */
  function AddOutcome(cart: CartMap, all: Option<seq<Product>>, p: Option<Product>,
                      quantity: int, hasInventory: bool): AddResult
  {
    if p.None? then NullProduct
    else if IsNullOrEmpty(p.value.productId) then EmptyProductId
    else if all.None? || all.value == [] then ProductsNotLoaded
    else match FirstWithId(all.value, p.value.productId)
      case None => NotInInventory
      case Some(inv) =>
        if hasInventory && InCart(cart, p.value.productId.value) + quantity > inv.stock
        then NotEnoughStock
        else AddedToCart
  }

  /** A fresh cart line: the product's fields with null strings as "",
      holding the requested quantity. */
  function NewLine(p: Product, quantity: int): Product
  {
    Product(p.productId, Some(OrEmpty(p.productName)), Some(OrEmpty(p.unit)),
            p.price, p.importPrice, Some(OrEmpty(p.barcode)), Some(OrEmpty(p.imageUrl)),
            quantity, Some(OrEmpty(p.category)), Some(OrEmpty(p.manufacturer)))
  }

  /** The cart after an accepted add. */
  function AddLine(cart: CartMap, p: Product, quantity: int): CartMap
    requires p.productId.Some?
  {
    var id := p.productId.value;
    if id in cart then cart[id := cart[id].(stock := cart[id].stock + quantity)]
    else cart[id := NewLine(p, quantity)]
  }

  // ---------------------------------------------------------------------
  // Quantity changes from a cart row

  datatype ChangeResult =
    | NotInCart
      /** FirstOrDefault over a null inventory list throws. */
    | ProductsMissing
      /** Over stock: the line is set to the stock only if it has a row. */
    | CappedAtStock(rowRefreshed: bool)
    | RemovedLine
    | UpdatedLine
      /** The quantity is stored, then the missing row's lookup throws. */
    | RowMissing

  /** Which branch HandleCartItemQuantityChanged takes. */
  function ChangeOutcome(cart: CartMap, rows: set<string>, all: Option<seq<Product>>,
                         id: string, quantity: int, hasInventory: bool): ChangeResult
  {
    if id !in cart then NotInCart
    else if all.None? then ProductsMissing
    else
      var inv := FirstWithId(all.value, Some(id));
      if hasInventory && inv.Some? && quantity > inv.value.stock then CappedAtStock(id in rows)
      else if quantity <= 0 then RemovedLine
      else if id in rows then UpdatedLine
      else RowMissing
  }

  /** The cart after HandleCartItemQuantityChanged. */
  function ChangedCart(cart: CartMap, rows: set<string>, all: Option<seq<Product>>,
                       id: string, quantity: int, hasInventory: bool): CartMap
  {
    match ChangeOutcome(cart, rows, all, id, quantity, hasInventory)
    case NotInCart => cart
    case ProductsMissing => cart
    case CappedAtStock(refreshed) =>
      if refreshed then
        cart[id := cart[id].(stock := FirstWithId(all.value, Some(id)).value.stock)]
      else cart
    case RemovedLine => cart - {id}
    case UpdatedLine => cart[id := cart[id].(stock := quantity)]
    case RowMissing => cart[id := cart[id].(stock := quantity)]
  }

  // ---------------------------------------------------------------------
  // Stock bound: with the Inventory feature every line stays within the
  // stock of its inventory product.

  predicate WithinStock(cart: CartMap, inventory: seq<Product>)
  {
    forall k :: k in cart ==>
      FirstWithId(inventory, Some(k)).Some?
      && cart[k].stock <= FirstWithId(inventory, Some(k)).value.stock
  }

  /** An accepted add keeps the cart within stock. */
  lemma AddKeepsWithinStock(cart: CartMap, inventory: seq<Product>, p: Product, quantity: int)
    requires WithinStock(cart, inventory)
    requires AddOutcome(cart, Some(inventory), Some(p), quantity, true) == AddedToCart
    ensures WithinStock(AddLine(cart, p, quantity), inventory)
  {
  }

  /** A quantity change keeps the cart within stock. */
  lemma ChangeKeepsWithinStock(cart: CartMap, rows: set<string>, inventory: seq<Product>,
                               id: string, quantity: int)
    requires WithinStock(cart, inventory)
    ensures WithinStock(ChangedCart(cart, rows, Some(inventory), id, quantity, true), inventory)
  {
  }

  /** The add guards, stated as one condition: the add happens iff the
      product and its id are present, the inventory list is loaded and
      holds the id, and (with the Inventory feature only) the cart quantity
      plus the request does not exceed that product's stock. */
  lemma AddAcceptedIff(cart: CartMap, all: Option<seq<Product>>, p: Option<Product>,
                       quantity: int, hasInventory: bool)
    ensures AddOutcome(cart, all, p, quantity, hasInventory) == AddedToCart <==>
      p.Some? && p.value.productId.Some? && p.value.productId.value != ""
      && all.Some? && (exists j :: 0 <= j < |all.value| && all.value[j].productId == p.value.productId)
      && (hasInventory ==>
            InCart(cart, p.value.productId.value) + quantity
            <= FirstWithId(all.value, p.value.productId).value.stock)
  {
  }

  /** What an accepted add does: the line for the id holds the old cart
      quantity plus the request, a new line copies the product with null
      strings as "", and every other line is untouched. */
  lemma AddLineEffect(cart: CartMap, p: Product, quantity: int)
    requires p.productId.Some?
    ensures var id := p.productId.value;
      var r := AddLine(cart, p, quantity);
      r.Keys == cart.Keys + {id}
      && r[id].stock == InCart(cart, id) + quantity
      && (id in cart ==> r[id].(stock := cart[id].stock) == cart[id])
      && (id !in cart ==> r[id].productId == p.productId && r[id].price == p.price
                          && r[id].productName.Some? && r[id].unit.Some?
                          && r[id].barcode.Some? && r[id].category.Some?)
      && (forall k :: k in cart && k != id ==> r[k] == cart[k])
  {
  }

  // ---------------------------------------------------------------------
  // Product search in the popup

  /** Where-clause of OnProductSearchRequested. */
  predicate SearchMatch(p: Product, lowered: string, lower: char -> char)
  {
    FieldContains(p.productName, lowered, lower) || FieldContains(p.barcode, lowered, lower)
  }

  /** The products listed for a search text, in display order; None when
      the inventory list is null (LINQ throws on it). */
  function SearchResults(all: Option<seq<Product>>, searchText: string,
                         lower: char -> char, le: (string, string) -> bool): Option<seq<Product>>
  {
    if all.None? then None
    else
      var t := Trim(searchText);
      var lowered := MapChars(lower, t);
      var hits := if t == "" then all.value
                  else Sorting.Filter((p: Product) => SearchMatch(p, lowered, lower), all.value);
      Some(Sorting.SortBy(hits, ByName(le)))
  }

  /** The search lists every matching product exactly as often as the
      inventory holds it, and nothing else, sorted by name. */
  lemma SearchSpec(all: seq<Product>, searchText: string, lower: char -> char,
                   le: (string, string) -> bool)
    requires Sorting.TotalPreorder(le)
    ensures var r := SearchResults(Some(all), searchText, lower, le).value;
      var lowered := MapChars(lower, Trim(searchText));
      Sorting.SortedBy(r, ByName(le))
      && (forall p :: multiset(r)[p] ==
            if Trim(searchText) == "" || SearchMatch(p, lowered, lower) then multiset(all)[p] else 0)
  {
    var t := Trim(searchText);
    var lowered := MapChars(lower, t);
    var keep := (p: Product) => SearchMatch(p, lowered, lower);
    var hits := if t == "" then all else Sorting.Filter(keep, all);
    ByNamePreorder(le);
    Sorting.SortBySorted(hits, ByName(le));
    if t != "" {
      forall p
        ensures multiset(Sorting.Filter(keep, all))[p] == if keep(p) then multiset(all)[p] else 0
      {
        Sorting.FilterCount(keep, all, p);
      }
    }
  }

  // ---------------------------------------------------------------------
  // The cart object

  /** The lines' current values in enumeration order (Dictionary.Values). */
  function ValuesOf(items: seq<(string, ProductData)>): (vs: seq<Product>)
    reads set e | e in items :: e.1
    ensures |vs| == |items|
    ensures forall i :: 0 <= i < |items| ==> vs[i] == items[i].1.product
  {
    if items == [] then [] else [items[0].1.product] + ValuesOf(items[1..])
  }

  /** The product ids in enumeration order. */
  function KeysOf(items: seq<(string, ProductData)>): (ks: seq<string>)
    ensures |ks| == |items|
    ensures forall i :: 0 <= i < |items| ==> ks[i] == items[i].0
  {
    if items == [] then [] else [items[0].0] + KeysOf(items[1..])
  }

  /** Pressing + on a line that already holds the whole stock, with the
      Inventory feature and the line's row registered, leaves the cart as
      it was: the handler caps the bumped quantity back to the stock. */
  lemma IncreaseAtStockUndone(cart: CartMap, rows: set<string>, inventory: seq<Product>, id: string)
    requires id in cart && id in rows
    requires FirstWithId(inventory, Some(id)).Some?
    requires cart[id].stock == FirstWithId(inventory, Some(id)).value.stock
    ensures var bumped := cart[id := cart[id].(stock := cart[id].stock + 1)];
      ChangedCart(bumped, rows, Some(inventory), id, bumped[id].stock, true) == cart
  {
    var bumped := cart[id := cart[id].(stock := cart[id].stock + 1)];
    assert ChangeOutcome(bumped, rows, Some(inventory), id, bumped[id].stock, true) == CappedAtStock(true);
  }

  class Cart {
    /** _productsInCart as a lookup table: product id to line object. */
    var lines: map<string, ProductData>
    /** The same dictionary's slots, which fix its enumeration order. */
    var slots: SlotDict.Dict<string, ProductData>
    /** What the line objects hold, by product id. */
    ghost var contents: CartMap
    /** The line objects the cart has created, each with the id it was
        filed under. */
    ghost var owner: map<ProductData, string>
    /** The ids that have a row in _cartItemUIObjects. */
    var rows: set<string>
    /** _allUserProducts, set by SetAllUserProducts; None while null. */
    var allProducts: Option<seq<Product>>
    /** The row prefab, parents and layout rect are all assigned. */
    var widgetsAssigned: bool
    /** The row prefab carries a CartItemUI component. */
    var rowHasScript: bool

    constructor(widgetsAssigned: bool, rowHasScript: bool)
      ensures Valid()
      ensures contents == map[] && slots == SlotDict.Empty() && rows == {} && allProducts == None
      ensures this.widgetsAssigned == widgetsAssigned && this.rowHasScript == rowHasScript
    {
      lines := map[];
      slots := SlotDict.Empty();
      contents := map[];
      owner := map[];
      rows := {};
      allProducts := None;
      this.widgetsAssigned := widgetsAssigned;
      this.rowHasScript := rowHasScript;
    }

    /** The lookup table is the slots' table; contents is what the line
        objects hold; every line is filed under its own product id; no two
        ids share a line object (owner names the one id of each); only cart
        ids have rows. */
    ghost predicate Valid()
      reads this, owner.Keys
    {
      SlotDict.Valid(slots)
      && lines == SlotDict.ToMap(slots)
      && lines.Keys == contents.Keys
      && (forall k :: k in lines ==>
            lines[k] in owner && owner[lines[k]] == k
            && lines[k].product == contents[k] && contents[k].productId == Some(k))
      && rows <= lines.Keys
    }

    lemma ItemsAreLines()
      requires Valid()
      ensures forall e :: e in SlotDict.Items(slots) ==> e.0 in lines && lines[e.0] == e.1
      ensures forall k :: k in lines ==> (k, lines[k]) in SlotDict.Items(slots)
    {
      SlotDict.ItemsInMap(slots);
    }

    /** ProductsInCart.Values, in enumeration order. */
    function Values(): seq<Product>
      requires Valid()
      reads this, owner.Keys
    {
      ItemsAreLines();
      ValuesOf(SlotDict.Items(slots))
    }

    /** ProductsInCart.Keys, in enumeration order. */
    function Order(): seq<string>
      reads this
    {
      KeysOf(SlotDict.Items(slots))
    }

    /** The enumeration visits every line once, in step with Order(). */
    lemma EnumerationCoversCart()
      requires Valid()
      ensures |Values()| == |Order()|
      ensures forall i :: 0 <= i < |Order()| ==> Order()[i] in contents && Values()[i] == contents[Order()[i]]
      ensures forall k :: k in contents <==> k in Order()
      ensures forall i, j :: 0 <= i < j < |Order()| ==> Order()[i] != Order()[j]
    {
      var items := SlotDict.Items(slots);
      ItemsAreLines();
      SlotDict.ItemsUnique(slots);
      forall k | k in lines
        ensures k in Order()
      {
        assert (k, lines[k]) in items;
        var i :| 0 <= i < |items| && items[i] == (k, lines[k]);
        assert Order()[i] == k;
      }
      forall i, j | 0 <= i < j < |Order()|
        ensures Order()[i] != Order()[j]
      {
        UniqueAt(items, i, j);
      }
    }

    /** The rows after UpdateCartUI: unchanged when a widget is missing,
        otherwise rebuilt for every line (none when the prefab has no
        CartItemUI). */
    function Rebuilt(previous: set<string>): set<string>
      reads this
    {
      if !widgetsAssigned then previous else if rowHasScript then lines.Keys else {}
    }

    method UpdateCartUI()
      requires Valid()
      modifies this
      ensures Valid()
      ensures rows == Rebuilt(old(rows))
      ensures lines == old(lines) && slots == old(slots) && contents == old(contents) && owner == old(owner)
      ensures allProducts == old(allProducts)
      ensures widgetsAssigned == old(widgetsAssigned) && rowHasScript == old(rowHasScript)
    {
      if widgetsAssigned {
        rows := if rowHasScript then lines.Keys else {};
      }
    }

    /** Stores a new quantity in the line object under id, in place. */
    method SetStock(id: string, stock: int)
      requires Valid() && id in lines
      modifies this, lines[id]
      ensures Valid()
      ensures contents == old(contents)[id := old(contents)[id].(stock := stock)]
      ensures lines == old(lines) && slots == old(slots) && rows == old(rows) && owner == old(owner)
      ensures allProducts == old(allProducts)
      ensures widgetsAssigned == old(widgetsAssigned) && rowHasScript == old(rowHasScript)
    {
      var item := lines[id];
      item.product := item.product.(stock := stock);
      contents := contents[id := item.product];
    }

    /** Dictionary.Add of a new line object under an id not in the cart. */
    method InsertLine(id: string, line: Product)
      requires Valid() && id !in lines && line.productId == Some(id)
      modifies this
      ensures Valid()
      ensures contents == old(contents)[id := line]
      ensures id in lines && fresh(lines[id]) && slots == SlotDict.Put(old(slots), id, lines[id])
      ensures rows == old(rows) && allProducts == old(allProducts)
      ensures widgetsAssigned == old(widgetsAssigned) && rowHasScript == old(rowHasScript)
    {
      var item := new ProductData(line);
      FileLine(id, item);
    }

    /** Files a line object that no id holds yet under id. */
    method FileLine(id: string, item: ProductData)
      requires Valid() && id !in lines && item !in owner && item.product.productId == Some(id)
      modifies this
      ensures Valid()
      ensures contents == old(contents)[id := item.product]
      ensures lines == old(lines)[id := item] && slots == SlotDict.Put(old(slots), id, item)
      ensures rows == old(rows) && allProducts == old(allProducts)
      ensures widgetsAssigned == old(widgetsAssigned) && rowHasScript == old(rowHasScript)
    {
      LinesPut(slots, id, item);
      lines, slots, contents, owner :=
        lines[id := item], SlotDict.Put(slots, id, item), contents[id := item.product], owner[item := id];
      forall k | k in lines
        ensures lines[k] in owner && owner[lines[k]] == k
        ensures lines[k].product == contents[k] && contents[k].productId == Some(k)
      {
        if k != id {
          assert old(lines)[k] in old(owner);
        }
      }
    }

    /** Dictionary.Remove of a line, together with its row. */
    method DeleteLine(id: string)
      requires Valid()
      modifies this
      ensures Valid()
      ensures contents == old(contents) - {id}
      ensures lines == old(lines) - {id} && slots == SlotDict.Remove(old(slots), id)
      ensures rows == old(rows) - {id} && allProducts == old(allProducts)
      ensures widgetsAssigned == old(widgetsAssigned) && rowHasScript == old(rowHasScript)
    {
      LinesRemove(slots, id);
      lines, slots, contents, rows := lines - {id}, SlotDict.Remove(slots, id), contents - {id}, rows - {id};
    }

    /** GetProductFromAllUserProducts. */
    function GetProductFromAllUserProducts(id: Option<string>): (r: Option<Product>)
      reads this
      ensures allProducts.None? ==> r.None?
      ensures r.Some? ==> r.value in allProducts.value && r.value.productId == id
      ensures allProducts.Some? && (exists j :: 0 <= j < |allProducts.value| && allProducts.value[j].productId == id)
              ==> r.Some?
    {
      if allProducts.None? then None else FirstWithId(allProducts.value, id)
    }

    method SetAllUserProducts(all: Option<seq<Product>>)
      modifies this
      ensures allProducts == all
      ensures lines == old(lines) && slots == old(slots) && contents == old(contents) && rows == old(rows)
      ensures owner == old(owner)
      ensures widgetsAssigned == old(widgetsAssigned) && rowHasScript == old(rowHasScript)
    {
      allProducts := all;
    }

    /** The guards of HandleAddToCartFromPopup, checked in their order
        before anything changes. */
    method CheckAdd(p: Option<Product>, quantity: int, hasInventory: bool) returns (r: AddResult)
      requires Valid()
      ensures r == AddOutcome(contents, allProducts, p, quantity, hasInventory)
    {
      if p.None? {
        r := NullProduct;
      } else if IsNullOrEmpty(p.value.productId) {
        r := EmptyProductId;
      } else if allProducts.None? || allProducts.value == [] {
        r := ProductsNotLoaded;
      } else {
        var inventoryProduct := FirstWithId(allProducts.value, p.value.productId);
        var id := p.value.productId.value;
        var current := if id in lines then lines[id].product.stock else 0;
        if inventoryProduct.None? {
          r := NotInInventory;
        } else if hasInventory && current + quantity > inventoryProduct.value.stock {
          r := NotEnoughStock;
        } else {
          r := AddedToCart;
        }
      }
    }

    method HandleAddToCartFromPopup(p: Option<Product>, quantity: int, hasInventory: bool)
      returns (r: AddResult)
      requires Valid()
      modifies this, owner.Keys
      ensures Valid()
      ensures r == AddOutcome(old(contents), allProducts, p, quantity, hasInventory)
      ensures allProducts == old(allProducts)
      ensures widgetsAssigned == old(widgetsAssigned) && rowHasScript == old(rowHasScript)
      ensures r != AddedToCart ==>
                contents == old(contents) && slots == old(slots) && rows == old(rows)
      ensures r == AddedToCart ==>
                contents == AddLine(old(contents), p.value, quantity) && rows == Rebuilt(old(rows))
      ensures r == AddedToCart && p.value.productId.value in old(lines) ==> slots == old(slots)
      ensures r == AddedToCart && p.value.productId.value !in old(lines) ==>
                var id := p.value.productId.value;
                id in lines && fresh(lines[id]) && slots == SlotDict.Put(old(slots), id, lines[id])
    {
      r := CheckAdd(p, quantity, hasInventory);
      if r == AddedToCart {
        var id := p.value.productId.value;
        if id in lines {
          SetStock(id, lines[id].product.stock + quantity);
        } else {
          InsertLine(id, NewLine(p.value, quantity));
        }
        UpdateCartUI();
      }
    }

    method HandleRemoveCartItem(id: string)
      requires Valid()
      modifies this
      ensures Valid()
      ensures contents == old(contents) - {id}
      ensures slots == SlotDict.Remove(old(slots), id)
      ensures rows == if id in old(lines) then Rebuilt(old(rows) - {id}) else old(rows)
      ensures allProducts == old(allProducts)
      ensures widgetsAssigned == old(widgetsAssigned) && rowHasScript == old(rowHasScript)
    {
      if id in lines {
        DeleteLine(id);
        UpdateCartUI();
      } else {
        SlotDict.RemoveAbsent(slots, id);
      }
    }

    method ClearCart()
      requires Valid()
      modifies this
      ensures Valid()
      ensures contents == map[] && slots == SlotDict.Empty() && rows == {}
      ensures allProducts == old(allProducts)
      ensures widgetsAssigned == old(widgetsAssigned) && rowHasScript == old(rowHasScript)
    {
      lines, slots, contents, rows := map[], SlotDict.Empty(), map[], {};
      UpdateCartUI();
    }

    /** The branch HandleCartItemQuantityChanged takes, decided before
        anything changes. */
    method CheckChange(id: string, quantity: int, hasInventory: bool) returns (r: ChangeResult)
      requires Valid()
      ensures r == ChangeOutcome(contents, rows, allProducts, id, quantity, hasInventory)
    {
      if id !in lines {
        r := NotInCart;
      } else if allProducts.None? {
        r := ProductsMissing;
      } else {
        var inventoryProduct := FirstWithId(allProducts.value, Some(id));
        if hasInventory && inventoryProduct.Some? && quantity > inventoryProduct.value.stock {
          r := CappedAtStock(id in rows);
        } else if quantity <= 0 {
          r := RemovedLine;
        } else if id in rows {
          r := UpdatedLine;
        } else {
          r := RowMissing;
        }
      }
    }

    /** A quantity of zero or less: the line is set to 0, then removed. */
    method ZeroAndRemove(id: string)
      requires Valid() && id in lines
      modifies this, owner.Keys
      ensures Valid()
      ensures contents == old(contents) - {id}
      ensures slots == SlotDict.Remove(old(slots), id) && rows == Rebuilt(old(rows) - {id})
      ensures allProducts == old(allProducts)
      ensures widgetsAssigned == old(widgetsAssigned) && rowHasScript == old(rowHasScript)
    {
      ghost var before := contents;
      SetStock(id, 0);
      assert contents - {id} == before - {id};
      HandleRemoveCartItem(id);
    }

    method HandleCartItemQuantityChanged(id: string, quantity: int, hasInventory: bool)
      returns (r: ChangeResult)
      requires Valid()
      modifies this, owner.Keys
      ensures Valid()
      ensures r == ChangeOutcome(old(contents), old(rows), allProducts, id, quantity, hasInventory)
      ensures contents == ChangedCart(old(contents), old(rows), allProducts, id, quantity, hasInventory)
      ensures slots == if r == RemovedLine then SlotDict.Remove(old(slots), id) else old(slots)
      ensures rows == if r == RemovedLine then Rebuilt(old(rows) - {id}) else old(rows)
      ensures allProducts == old(allProducts)
      ensures widgetsAssigned == old(widgetsAssigned) && rowHasScript == old(rowHasScript)
    {
      r := CheckChange(id, quantity, hasInventory);
      if r == RemovedLine {
        ZeroAndRemove(id);
      } else if r in {CappedAtStock(true), UpdatedLine, RowMissing} {
        var stock := if r.CappedAtStock? then FirstWithId(allProducts.value, Some(id)).value.stock else quantity;
        SetStock(id, stock);
      }
    }

    /** The row's + button bumps the very line object the cart holds. */
    method IncreaseFromRow(ui: CartItemUI, id: string) returns (e: CartEvent)
      requires Valid() && id in lines && ui.line == lines[id]
      modifies this, lines[id], ui
      ensures Valid()
      ensures contents == old(contents)[id := old(contents)[id].(stock := old(contents)[id].stock + 1)]
      ensures e == QuantityChanged(Some(id), contents[id].stock)
      ensures lines == old(lines) && slots == old(slots) && rows == old(rows) && owner == old(owner)
      ensures allProducts == old(allProducts)
      ensures widgetsAssigned == old(widgetsAssigned) && rowHasScript == old(rowHasScript)
    {
      e := ui.OnIncreaseQuantity();
      contents := contents[id := lines[id].product];
    }

    /** The row's - button lowers the very line object the cart holds and
        asks for removal once it reaches zero. */
    method DecreaseFromRow(ui: CartItemUI, id: string) returns (e: CartEvent)
      requires Valid() && id in lines && ui.line == lines[id]
      modifies this, lines[id], ui
      ensures Valid()
      ensures contents == old(contents)[id := old(contents)[id].(stock := old(contents)[id].stock - 1)]
      ensures e == if contents[id].stock <= 0 then RemovedFromCart(Some(id))
                   else QuantityChanged(Some(id), contents[id].stock)
      ensures lines == old(lines) && slots == old(slots) && rows == old(rows) && owner == old(owner)
      ensures allProducts == old(allProducts)
      ensures widgetsAssigned == old(widgetsAssigned) && rowHasScript == old(rowHasScript)
    {
      e := ui.OnDecreaseQuantity();
      contents := contents[id := lines[id].product];
    }

    /** The + button of the row showing line id: the row bumps the line,
        and the cart then handles the new quantity. */
    method PressIncrease(ui: CartItemUI, id: string, hasInventory: bool) returns (r: ChangeResult)
      requires Valid() && id in lines && ui.line == lines[id]
      modifies this, owner.Keys, ui
      ensures Valid()
      ensures var bumped := old(contents)[id := old(contents)[id].(stock := old(contents)[id].stock + 1)];
        r == ChangeOutcome(bumped, old(rows), allProducts, id, bumped[id].stock, hasInventory)
        && contents == ChangedCart(bumped, old(rows), allProducts, id, bumped[id].stock, hasInventory)
    {
      var e := IncreaseFromRow(ui, id);
      r := HandleCartItemQuantityChanged(e.productId.value, e.quantity, hasInventory);
    }

    /** The - button of the row showing line id: at zero the line goes,
        otherwise the cart handles the lowered quantity. */
    method PressDecrease(ui: CartItemUI, id: string, hasInventory: bool) returns (r: ChangeResult)
      requires Valid() && id in lines && ui.line == lines[id]
      modifies this, owner.Keys, ui
      ensures Valid()
      ensures old(contents)[id].stock <= 1 ==> r == RemovedLine && contents == old(contents) - {id}
      ensures var lowered := old(contents)[id := old(contents)[id].(stock := old(contents)[id].stock - 1)];
        old(contents)[id].stock > 1 ==>
          r == ChangeOutcome(lowered, old(rows), allProducts, id, lowered[id].stock, hasInventory)
          && contents == ChangedCart(lowered, old(rows), allProducts, id, lowered[id].stock, hasInventory)
    {
      var e := DecreaseFromRow(ui, id);
      ghost var lowered := contents;
      assert lowered - {id} == old(contents) - {id};
      r := HandleRowEvent(e, hasInventory);
    }

    /** The listeners the cart registers on a row: RemovedFromCart goes to
        HandleRemoveCartItem, QuantityChanged to HandleCartItemQuantityChanged. */
    method HandleRowEvent(e: CartEvent, hasInventory: bool) returns (r: ChangeResult)
      requires Valid() && e.productId.Some?
      modifies this, owner.Keys
      ensures Valid()
      ensures e.RemovedFromCart? ==>
                r == RemovedLine && contents == old(contents) - {e.productId.value}
      ensures e.QuantityChanged? ==>
                r == ChangeOutcome(old(contents), old(rows), allProducts, e.productId.value, e.quantity, hasInventory)
                && contents == ChangedCart(old(contents), old(rows), allProducts, e.productId.value, e.quantity, hasInventory)
    {
      if e.RemovedFromCart? {
        HandleRemoveCartItem(e.productId.value);
        r := RemovedLine;
      } else {
        r := HandleCartItemQuantityChanged(e.productId.value, e.quantity, hasInventory);
      }
    }
  }

  /** The lookup table after Dictionary.Add or the indexer's setter. */
  lemma LinesPut(d: SlotDict.Dict<string, ProductData>, k: string, v: ProductData)
    requires SlotDict.Valid(d)
    ensures SlotDict.ToMap(SlotDict.Put(d, k, v)) == SlotDict.ToMap(d)[k := v]
  {
    forall x
      ensures x in SlotDict.ToMap(SlotDict.Put(d, k, v)) <==> x in SlotDict.ToMap(d) || x == k
      ensures x in SlotDict.ToMap(SlotDict.Put(d, k, v)) ==>
                SlotDict.ToMap(SlotDict.Put(d, k, v))[x] == if x == k then v else SlotDict.ToMap(d)[x]
    {
      SlotDict.ToMapPutAt(d, k, v, x);
    }
  }

  /** The lookup table after Dictionary.Remove. */
  lemma LinesRemove(d: SlotDict.Dict<string, ProductData>, k: string)
    requires SlotDict.Valid(d)
    ensures SlotDict.ToMap(SlotDict.Remove(d, k)) == SlotDict.ToMap(d) - {k}
  {
    forall x
      ensures x in SlotDict.ToMap(SlotDict.Remove(d, k)) <==> x in SlotDict.ToMap(d) && x != k
      ensures x in SlotDict.ToMap(SlotDict.Remove(d, k)) ==>
                SlotDict.ToMap(SlotDict.Remove(d, k))[x] == SlotDict.ToMap(d)[x]
    {
      SlotDict.ToMapRemoveAt(d, k, x);
    }
  }

  /** Entries of a list with distinct keys have distinct keys. */
  lemma {:induction false} UniqueAt(items: seq<(string, ProductData)>, i: nat, j: nat)
    requires SlotDict.UniqueKeys(items) && i < j < |items|
    ensures items[i].0 != items[j].0
  {
    if i == 0 {
      assert items[1..][j - 1] == items[j];
      SlotDict.KeyInAt(items[1..], j - 1);
    } else {
      assert items[1..][i - 1] == items[i] && items[1..][j - 1] == items[j];
      UniqueAt(items[1..], i - 1, j - 1);
    }
  }
}
