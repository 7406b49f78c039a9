// ProductSearchUIItem: one product row of the "add to cart" popup. It shows
// the product, keeps a quantity input field and asks the cart to add
// (product, quantity) when its button is clicked. Whether the Inventory
// feature is on is passed in (the handlers ask PackageConfig.HasFeature for
// it); the thousands-separated "N0" rendering of a number is a parameter.
module ProductSearchItem {
  import opened Wrappers
  import opened DotNetText
  import opened Products

  const OutOfStockSuffix: string := " (Hết hàng)"
  const StockPrefix: string := "Tồn kho: "

  /** stockText.text after SetProductData. */
  function StockLabel(stock: int, hasInventory: bool, n0: int -> string): string
  {
    if !hasInventory then ""
    else if stock <= 0 then StockPrefix + n0(stock) + OutOfStockSuffix
    else StockPrefix + n0(stock)
  }

  /** addToCartButton.interactable after SetProductData. */
  predicate CanAdd(stock: int, hasInventory: bool)
  {
    if hasInventory then stock > 0 else true
  }

  /** How OnQuantityInputEndEdit judges an entry for a product with the
      given stock: not a positive long, above the stock (with the Inventory
      feature only), or fine. */
  datatype EditVerdict = Rejected | CappedToStock | Accepted

  function EditOutcome(value: string, stock: int, hasInventory: bool): EditVerdict
  {
    match TryParseLong(value)
    case None => Rejected
    case Some(q) =>
      if q <= 0 then Rejected
      else if hasInventory && q > stock then CappedToStock
      else Accepted
  }

  /** The field's text after the end-edit handler. */
  function EditedText(value: string, stock: int, hasInventory: bool): string
  {
    match EditOutcome(value, stock, hasInventory)
    case Rejected => "1"
    case CappedToStock => LongToString(stock)
    case Accepted => value
  }

  /** The quantity a click sends, if any: a positive long in the field. */
  function Requested(text: string): Option<int>
  {
    match TryParseLong(text)
    case Some(q) => if q > 0 then Some(q) else None
    case None => None
  }

  class ProductSearchUIItem {
    /** currentProductData; None until SetProductData. */
    var current: Option<Product>
    var quantityText: string
    /** The input field's colour: red after a rejected or capped entry. */
    var quantityRed: bool
    var stockShown: bool
    var stockText: string
    var buttonInteractable: bool

    /** Awake: the quantity field starts at "1". */
    constructor()
      ensures current == None && quantityText == "1" && !quantityRed
      ensures buttonInteractable
    {
      current := None;
      quantityText := "1";
      quantityRed := false;
      stockShown := false;
      stockText := "";
      buttonInteractable := true;
    }

    method SetProductData(p: Product, hasInventory: bool, n0: int -> string)
      modifies this
      ensures current == Some(p)
      ensures stockShown == hasInventory
      ensures stockText == StockLabel(p.stock, hasInventory, n0)
      ensures buttonInteractable == CanAdd(p.stock, hasInventory)
      ensures !hasInventory ==> quantityText == "1" && !quantityRed
      ensures hasInventory ==> quantityText == old(quantityText) && quantityRed == old(quantityRed)
    {
      current := Some(p);
      stockShown := hasInventory;
      if hasInventory {
        stockText := StockPrefix + n0(p.stock);
      } else {
        stockText := "";
      }
      if !hasInventory {
        quantityText := "1";
        quantityRed := false;
      }
      buttonInteractable := if hasInventory then p.stock > 0 else true;
      if hasInventory && p.stock <= 0 {
        stockText := StockPrefix + n0(p.stock) + OutOfStockSuffix;
      }
    }

    /** The user types into the quantity field. */
    method TypeQuantity(value: string)
      modifies this
      ensures quantityText == value
      ensures current == old(current) && quantityRed == old(quantityRed)
      ensures buttonInteractable == old(buttonInteractable)
    {
      quantityText := value;
    }

    /** onEndEdit with the field's text. Without a product the handler
        throws where it reads the product (the warning of a rejected entry,
        or the stock check), and nothing changes; `threw` reports that. */
    method OnQuantityInputEndEdit(hasInventory: bool) returns (threw: bool)
      modifies this
      ensures current == old(current) && buttonInteractable == old(buttonInteractable)
      ensures threw <==> current.None? && (hasInventory || Requested(old(quantityText)).None?)
      ensures threw ==> quantityText == old(quantityText) && quantityRed == old(quantityRed)
      ensures !threw && current.Some? ==>
                var verdict := EditOutcome(old(quantityText), current.value.stock, hasInventory);
                quantityText == EditedText(old(quantityText), current.value.stock, hasInventory)
                && quantityRed == (verdict != Accepted)
      ensures !threw && current.None? ==> quantityText == old(quantityText) && !quantityRed
    {
      var value := quantityText;
      var parsed := TryParseLong(value);
      if parsed.None? || parsed.value <= 0 {
        if current.None? {
          threw := true;
        } else {
          threw := false;
          quantityRed := true;
          quantityText := "1";
        }
      } else if hasInventory {
        if current.None? {
          threw := true;
        } else {
          threw := false;
          if parsed.value > current.value.stock {
            quantityRed := true;
            quantityText := LongToString(current.value.stock);
          } else {
            quantityRed := false;
          }
        }
      } else {
        threw := false;
        quantityRed := false;
      }
    }

    /** OnAddToCartButtonClicked: the (product, quantity) request it raises,
        if any. */
    method OnAddToCartButtonClicked() returns (request: Option<(Product, int)>)
      ensures current.None? ==> request.None?
      ensures current.Some? ==>
                match Requested(quantityText)
                case None => request.None?
                case Some(q) => request == Some((current.value, q))
    {
      if current.None? {
        request := None;
      } else {
        var parsed := TryParseLong(quantityText);
        if parsed.None? || parsed.value <= 0 {
          request := None;
        } else {
          request := Some((current.value, parsed.value));
        }
      }
    }
  }

  /** After an end-edit a click requests at least 1, and with the
      Inventory feature and a product in stock at most the stock; an
      invalid entry becomes a request for 1 (even for a product out of
      stock, whose button SetProductData disables), and a valid entry
      within stock is requested unchanged. */
  lemma EditedQuantityInRange(value: string, stock: int, hasInventory: bool)
    requires InLongRange(stock)
    ensures var r := Requested(EditedText(value, stock, hasInventory));
      (r.Some? ==> 1 <= r.value && (hasInventory && stock >= 1 ==> r.value <= stock))
      && (EditOutcome(value, stock, hasInventory) == Rejected ==> r == Some(1))
      && (EditOutcome(value, stock, hasInventory) == Accepted ==> r == TryParseLong(value))
      && (!hasInventory || stock >= 1 ==> r.Some?)
  {
    ParseLongToString(1);
    ParseLongToString(stock);
  }
}
