// ImportStockPanelManager: the panel that adds received stock to one
// product. It shows the product, reads a positive quantity and asks
// Firestore to increment the product's `stock` field by it, then adds the
// same amount to the shared ProductData. Whether UpdateAsync succeeds (or
// the message it throws) is a parameter; the "N0" rendering of a number is
// a parameter too; the callback InventoryManager passes is only counted.
module ImportStockPanel {
  import opened Wrappers
  import opened DotNetText
  import opened Products

  const NoProductMsg: string := "Lỗi: Không tìm thấy thông tin sản phẩm."
  const SignInMsg: string := "Lỗi: Vui lòng đăng nhập."
  const BadQuantityMsg: string := "Vui lòng nhập số lượng hợp lệ (> 0)."
  const UpdateErrorPrefix: string := "Lỗi cập nhật: "
  const CurrentStockPrefix: string := "Tồn kho hiện tại: "
  const ImportPricePrefix: string := "Giá nhập: "
  const CurrencySuffix: string := " VNĐ"

  /** The quantity a confirm click imports: long.TryParse succeeding with a
      value above 0. */
  function QuantityToAdd(text: string): (r: Option<int>)
    ensures r.Some? <==> TryParseLong(text).Some? && TryParseLong(text).value > 0
    ensures r.Some? ==> r.value == TryParseLong(text).value && InLongRange(r.value)
  {
    match TryParseLong(text)
    case Some(q) => if q > 0 then Some(q) else None
    case None => None
  }

  /** Every positive long, typed as long.ToString writes it, is imported
      as itself. */
  lemma QuantityRoundTrip(n: int)
    requires 0 < n && InLongRange(n)
    ensures QuantityToAdd(LongToString(n)) == Some(n)
  {
    ParseLongToString(n);
  }

  datatype ImportOutcome =
    | NoProduct
    | NotSignedIn
    | BadQuantity
    | Offline
    | Imported(quantity: int)
    | UpdateFailed(quantity: int, message: string)

  class ImportStockPanelManager {
    /** productToUpdate: shared with the inventory list, so the local stock
        update shows there too. */
    var product: ProductData?
    var callbackSet: bool
    var callbackRuns: nat
    /** userProductsCollection is set (a user is signed in). */
    var signedIn: bool
    var nameText: Option<string>
    var stockText: string
    var priceText: string
    var quantityText: string
    var statusText: string
    var panelActive: bool
    /** The CanvasGroup, the quantity input and both buttons. */
    var groupInteractable: bool
    var inputInteractable: bool
    var confirmInteractable: bool
    var cancelInteractable: bool
    /** The FieldValue.Increment updates sent, as (document id, amount). */
    var increments: seq<(string, int)>

    constructor(signedIn: bool)
      ensures this.signedIn == signedIn && product == null && increments == [] && callbackRuns == 0
      ensures !panelActive
    {
      product := null;
      callbackSet := false;
      callbackRuns := 0;
      this.signedIn := signedIn;
      nameText := None;
      stockText := "";
      priceText := "";
      quantityText := "";
      statusText := "";
      panelActive := false;
      groupInteractable := true;
      inputInteractable := true;
      confirmInteractable := true;
      cancelInteractable := true;
      increments := [];
    }

    /** The panel's controls all accept input, or all refuse it. */
    predicate Uniform()
      reads this
    {
      inputInteractable == groupInteractable && confirmInteractable == groupInteractable
      && cancelInteractable == groupInteractable
    }

    /** A product with a non-empty id is selected. */
    predicate HasProduct()
      reads this, product
    {
      product != null && !IsNullOrEmpty(product.product.productId)
    }

    method SetInteractable(interactable: bool)
      modifies this`groupInteractable, this`inputInteractable, this`confirmInteractable
      modifies this`cancelInteractable
      ensures Uniform() && groupInteractable == interactable
    {
      groupInteractable := interactable;
      inputInteractable := interactable;
      confirmInteractable := interactable;
      cancelInteractable := interactable;
    }

    /** ShowPanel: a null product changes nothing; otherwise the panel
        shows the product's name, stock and import price, empties the
        quantity and the status, and accepts input. */
    method ShowPanel(p: ProductData?, callbackSet: bool, n0: int -> string)
      modifies this`product, this`callbackSet, this`nameText, this`stockText, this`priceText
      modifies this`quantityText, this`statusText, this`panelActive
      modifies this`groupInteractable, this`inputInteractable, this`confirmInteractable
      modifies this`cancelInteractable
      ensures p == null ==>
                product == old(product) && this.callbackSet == old(this.callbackSet)
                && nameText == old(nameText) && stockText == old(stockText) && priceText == old(priceText)
                && quantityText == old(quantityText)
                && statusText == old(statusText) && panelActive == old(panelActive)
                && groupInteractable == old(groupInteractable) && inputInteractable == old(inputInteractable)
                && confirmInteractable == old(confirmInteractable)
                && cancelInteractable == old(cancelInteractable)
      ensures p != null ==>
                product == p && this.callbackSet == callbackSet
                && nameText == p.product.productName
                && stockText == CurrentStockPrefix + n0(p.product.stock)
                && priceText == ImportPricePrefix + n0(p.product.importPrice) + CurrencySuffix
                && quantityText == "" && statusText == "" && panelActive
                && Uniform() && groupInteractable
    {
      if p == null {
        return;
      }
      product := p;
      this.callbackSet := callbackSet;
      nameText := p.product.productName;
      stockText := CurrentStockPrefix + n0(p.product.stock);
      quantityText := "";
      priceText := ImportPricePrefix + n0(p.product.importPrice) + CurrencySuffix;
      statusText := "";
      panelActive := true;
      SetInteractable(true);
    }

    method HidePanel()
      modifies this`panelActive, this`statusText
      modifies this`groupInteractable, this`inputInteractable, this`confirmInteractable
      modifies this`cancelInteractable
      ensures !panelActive && statusText == "" && Uniform() && !groupInteractable
    {
      panelActive := false;
      statusText := "";
      SetInteractable(false);
    }

    /** The user types into the quantity field. */
    method TypeQuantity(value: string)
      modifies this`quantityText
      ensures quantityText == value
    {
      quantityText := value;
    }

    /** OnConfirmImportButtonClicked. `updateError` is None when
        UpdateAsync succeeds, else the message it throws. The checks run in
        order (a product with an id, a signed-in user, a positive quantity,
        a connection) and a failed one changes only the status line (not
        even that when offline). A successful update adds the quantity to
        the product's stock, both in Firestore and in the shared
        ProductData, runs the callback and hides the panel; the `finally`
        leaves the controls accepting input in every case that got as far
        as the update. */
    method OnConfirmImportButtonClicked(online: bool, updateError: Option<string>)
      returns (outcome: ImportOutcome)
      modifies this`statusText, this`panelActive, this`callbackRuns, this`increments
      modifies this`groupInteractable, this`inputInteractable, this`confirmInteractable
      modifies this`cancelInteractable
      modifies product
      ensures outcome == NoProduct <==> !old(HasProduct())
      ensures outcome == NotSignedIn <==> old(HasProduct()) && !signedIn
      ensures outcome == BadQuantity <==> old(HasProduct()) && signedIn && QuantityToAdd(quantityText).None?
      ensures outcome == Offline <==>
                old(HasProduct()) && signedIn && QuantityToAdd(quantityText).Some? && !online
      ensures outcome == NoProduct ==> statusText == NoProductMsg
      ensures outcome == NotSignedIn ==> statusText == SignInMsg
      ensures outcome == BadQuantity ==> statusText == BadQuantityMsg
      ensures outcome.NoProduct? || outcome.NotSignedIn? || outcome.BadQuantity? || outcome.Offline? ==>
                (outcome.Offline? ==> statusText == old(statusText))
                && panelActive == old(panelActive) && callbackRuns == old(callbackRuns)
                && increments == old(increments)
                && (product != null ==> product.product == old(product.product))
                && groupInteractable == old(groupInteractable) && inputInteractable == old(inputInteractable)
                && confirmInteractable == old(confirmInteractable)
                && cancelInteractable == old(cancelInteractable)
      ensures outcome.Imported? || outcome.UpdateFailed? ==>
                product != null && old(HasProduct()) && signedIn && online
                && QuantityToAdd(quantityText) == Some(outcome.quantity)
                && Uniform() && groupInteractable
      ensures outcome.Imported? ==>
                updateError.None?
                && increments == old(increments) + [(old(product.product.productId.value), outcome.quantity)]
                && product.product == old(product.product).(stock := old(product.product.stock) + outcome.quantity)
                && callbackRuns == old(callbackRuns) + (if callbackSet then 1 else 0)
                && !panelActive && statusText == ""
      ensures outcome.UpdateFailed? ==>
                Some(outcome.message) == updateError
                && statusText == UpdateErrorPrefix + outcome.message
                && increments == old(increments) && product.product == old(product.product)
                && callbackRuns == old(callbackRuns) && panelActive == old(panelActive)
    {
      if product == null || IsNullOrEmpty(product.product.productId) {
        statusText := NoProductMsg;
        return NoProduct;
      }
      if !signedIn {
        statusText := SignInMsg;
        return NotSignedIn;
      }
      var quantity := QuantityToAdd(quantityText);
      if quantity.None? {
        statusText := BadQuantityMsg;
        return BadQuantity;
      }
      if !online {
        return Offline;
      }
      var q := quantity.value;
      var id := product.product.productId.value;
      SetInteractable(false);
      if updateError.None? {
        increments := increments + [(id, q)];
        product.product := product.product.(stock := product.product.stock + q);
        if callbackSet {
          callbackRuns := callbackRuns + 1;
        }
        HidePanel();
        outcome := Imported(q);
      } else {
        statusText := UpdateErrorPrefix + updateError.value;
        outcome := UpdateFailed(q, updateError.value);
      }
      SetInteractable(true);
    }
  }
}
