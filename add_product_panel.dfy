// AddProductPanelManager: the panel that creates a product. It resets its
// inputs when shown, offers the known categories and manufacturers after a
// placeholder, checks the inputs in a fixed order and hands the new product
// to Firestore's AddAsync, whose outcome (the new document's id, or a
// failure) is a parameter. The callback InventoryManager passes is only
// counted.
module AddProductPanel {
  import opened Wrappers
  import opened DotNetText
  import opened Products

  const CategoryPlaceholder: string := "Chọn hoặc nhập danh mục"
  const ManufacturerPlaceholder: string := "Chọn hoặc nhập nhà sản xuất"

  /** The panel's text inputs. */
  datatype AddForm = AddForm(name: string, unit: string, price: string, importPrice: string,
                             barcode: string, imageUrl: string, initialStock: string)

  /** ShowPanel's reset: every input empty, the initial stock "0". */
  const BlankForm: AddForm := AddForm("", "", "", "", "", "", "0")

  /** A dropdown's options: the placeholder, then the supplied list, if
      any, in its order. */
  function DropdownOptions(placeholder: string, values: Option<seq<Option<string>>>): seq<Option<string>>
  {
    [Some(placeholder)] + (if values.None? then [] else values.value)
  }

  /** What a dropdown contributes: "" while the placeholder (index 0) is
      selected, else the selected label; None where reading past the
      options throws. */
  function Picked(value: int, options: seq<Option<string>>): (r: Option<Option<string>>)
    ensures value <= 0 ==> r == Some(Some(""))
    ensures 0 < value < |options| ==> r == Some(options[value])
    ensures r.None? <==> value > 0 && value >= |options|
  {
    if value <= 0 then Some(Some(""))
    else if value >= |options| then None
    else Some(options[value])
  }

  /** long.TryParse succeeding with a value of at least 0. */
  function NonNegativeLong(s: string): (r: Option<int>)
    ensures r.Some? <==> TryParseLong(s).Some? && TryParseLong(s).value >= 0
    ensures r.Some? ==> r.value == TryParseLong(s).value
  {
    match TryParseLong(s)
    case Some(n) => if n >= 0 then Some(n) else None
    case None => None
  }

  /** The first check that fails, in the handler's order. */
  datatype Rejection = NameOrUnitMissing | BadPrice | BadImportPrice | BadInitialStock

  datatype Checked = Rejected(reason: Rejection) | Accepted(product: Product)

  /** The product the inputs describe: trimmed strings, parsed numbers and
      the dropdowns' picks; it has no id yet. */
  function ProductOf(form: AddForm, price: int, importPrice: int, stock: int,
                     category: Option<string>, manufacturer: Option<string>): Product
  {
    Product(None, Some(Trim(form.name)), Some(Trim(form.unit)), price, importPrice,
            Some(Trim(form.barcode)), Some(Trim(form.imageUrl)), stock, category, manufacturer)
  }

  /** The checks of OnConfirmAddButtonClicked. */
  function Check(form: AddForm, category: Option<string>, manufacturer: Option<string>): Checked
  {
    if Trim(form.name) == "" || Trim(form.unit) == "" then Rejected(NameOrUnitMissing)
    else if NonNegativeLong(form.price).None? then Rejected(BadPrice)
    else if NonNegativeLong(form.importPrice).None? then Rejected(BadImportPrice)
    else if NonNegativeLong(form.initialStock).None? then Rejected(BadInitialStock)
    else Accepted(ProductOf(form, NonNegativeLong(form.price).value,
                            NonNegativeLong(form.importPrice).value,
                            NonNegativeLong(form.initialStock).value, category, manufacturer))
  }

  /** A product is built exactly when every check passes; then its names
      are the trimmed inputs and its numbers the parsed ones, all at least
      0. Otherwise the reason is the first check that fails. */
  lemma CheckSpec(form: AddForm, category: Option<string>, manufacturer: Option<string>)
    ensures var r := Check(form, category, manufacturer);
      (r.Accepted? <==>
         Trim(form.name) != "" && Trim(form.unit) != ""
         && NonNegativeLong(form.price).Some? && NonNegativeLong(form.importPrice).Some?
         && NonNegativeLong(form.initialStock).Some?)
      && (r.Accepted? ==>
            r.product.productId.None?
            && r.product.productName == Some(Trim(form.name)) && r.product.unit == Some(Trim(form.unit))
            && Some(r.product.price) == TryParseLong(form.price) && r.product.price >= 0
            && Some(r.product.importPrice) == TryParseLong(form.importPrice) && r.product.importPrice >= 0
            && Some(r.product.stock) == TryParseLong(form.initialStock) && r.product.stock >= 0
            && r.product.category == category && r.product.manufacturer == manufacturer)
      && (r == Rejected(NameOrUnitMissing) <==> Trim(form.name) == "" || Trim(form.unit) == "")
      && (r == Rejected(BadPrice) ==> Trim(form.name) != "" && Trim(form.unit) != "")
      && (r == Rejected(BadImportPrice) ==> NonNegativeLong(form.price).Some?)
      && (r == Rejected(BadInitialStock) ==>
            NonNegativeLong(form.price).Some? && NonNegativeLong(form.importPrice).Some?)
  {
  }

  /** The inputs that show a product (numbers written by long.ToString)
      are accepted and give that product back. */
  lemma FormRoundTrip(p: Product)
    requires p.productId.None?
    requires p.productName.Some? && p.productName.value != "" && Trim(p.productName.value) == p.productName.value
    requires p.unit.Some? && p.unit.value != "" && Trim(p.unit.value) == p.unit.value
    requires p.barcode.Some? && Trim(p.barcode.value) == p.barcode.value
    requires p.imageUrl.Some? && Trim(p.imageUrl.value) == p.imageUrl.value
    requires 0 <= p.price && InLongRange(p.price) && 0 <= p.importPrice && InLongRange(p.importPrice)
    requires 0 <= p.stock && InLongRange(p.stock)
    ensures Check(AddForm(p.productName.value, p.unit.value, LongToString(p.price), LongToString(p.importPrice),
                          p.barcode.value, p.imageUrl.value, LongToString(p.stock)),
                  p.category, p.manufacturer)
            == Accepted(p)
  {
    var form := AddForm(p.productName.value, p.unit.value, LongToString(p.price), LongToString(p.importPrice),
                        p.barcode.value, p.imageUrl.value, LongToString(p.stock));
    NonNegativeRoundTrip(p.price);
    NonNegativeRoundTrip(p.importPrice);
    NonNegativeRoundTrip(p.stock);
    assert ProductOf(form, p.price, p.importPrice, p.stock, p.category, p.manufacturer) == p;
  }

  lemma NonNegativeRoundTrip(n: int)
    requires 0 <= n && InLongRange(n)
    ensures NonNegativeLong(LongToString(n)) == Some(n)
  {
    ParseLongToString(n);
  }

  datatype AddOutcome =
    | NotSignedIn
    | OptionMissing
    | Invalid(reason: Rejection)
    | Offline
    | Added(product: Product)
    | AddFailed

  class AddProductPanelManager {
    var form: AddForm
    var categoryValue: int
    var categoryOptions: seq<Option<string>>
    var manufacturerValue: int
    var manufacturerOptions: seq<Option<string>>
    var panelActive: bool
    var confirmInteractable: bool
    var cancelInteractable: bool
    /** userProductsCollection is set (a user is signed in). */
    var signedIn: bool
    /** onProductAddedCallback is not null, and how often it ran. */
    var callbackSet: bool
    var callbackRuns: nat
    /** The products AddAsync stored, in order. */
    var added: seq<Product>

    constructor(signedIn: bool)
      ensures this.signedIn == signedIn && added == [] && callbackRuns == 0
      ensures confirmInteractable && cancelInteractable && !panelActive
    {
      form := BlankForm;
      categoryValue := 0;
      categoryOptions := [];
      manufacturerValue := 0;
      manufacturerOptions := [];
      panelActive := false;
      confirmInteractable := true;
      cancelInteractable := true;
      this.signedIn := signedIn;
      callbackSet := false;
      callbackRuns := 0;
      added := [];
    }

    /** ShowPanel: keeps the callback, resets the inputs, fills the
        dropdowns (clearing their options selects index 0) and shows the
        panel. The buttons are left as they are. */
    method ShowPanel(callbackSet: bool, categories: Option<seq<Option<string>>>,
                     manufacturers: Option<seq<Option<string>>>)
      modifies this`callbackSet, this`form, this`categoryValue, this`categoryOptions
      modifies this`manufacturerValue, this`manufacturerOptions, this`panelActive
      ensures this.callbackSet == callbackSet && form == BlankForm && panelActive
      ensures categoryOptions == DropdownOptions(CategoryPlaceholder, categories) && categoryValue == 0
      ensures manufacturerOptions == DropdownOptions(ManufacturerPlaceholder, manufacturers)
      ensures manufacturerValue == 0
    {
      this.callbackSet := callbackSet;
      form := BlankForm;
      categoryOptions, categoryValue := DropdownOptions(CategoryPlaceholder, categories), 0;
      manufacturerOptions, manufacturerValue := DropdownOptions(ManufacturerPlaceholder, manufacturers), 0;
      panelActive := true;
    }

    method HidePanel()
      modifies this`panelActive
      ensures !panelActive
    {
      panelActive := false;
    }

    /** The write and what follows it, once the buttons are disabled:
        `docId` is the new document's id, or None when AddAsync throws. On
        success the callback runs and the panel hides; either way the
        buttons are enabled again. */
    method Submit(product: Product, docId: Option<string>) returns (outcome: AddOutcome)
      modifies this`added, this`callbackRuns, this`panelActive
      modifies this`confirmInteractable, this`cancelInteractable
      ensures confirmInteractable && cancelInteractable
      ensures docId.Some? ==>
                outcome == Added(product.(productId := docId)) && added == old(added) + [product]
                && callbackRuns == old(callbackRuns) + (if callbackSet then 1 else 0) && !panelActive
      ensures docId.None? ==>
                outcome == AddFailed && added == old(added) && callbackRuns == old(callbackRuns)
                && panelActive == old(panelActive)
    {
      if docId.Some? {
        added := added + [product];
        if callbackSet {
          callbackRuns := callbackRuns + 1;
        }
        HidePanel();
        outcome := Added(product.(productId := docId));
      } else {
        outcome := AddFailed;
      }
      confirmInteractable, cancelInteractable := true, true;
    }

    /** OnConfirmAddButtonClicked as written: it disables both buttons
        before it checks the connection, and the offline return skips the
        `finally` that enables them, so offline the panel is left with
        both buttons disabled (and ShowPanel does not enable them). */
    method OnConfirmAddButtonClicked(online: bool, docId: Option<string>) returns (outcome: AddOutcome)
      modifies this`added, this`callbackRuns, this`panelActive
      modifies this`confirmInteractable, this`cancelInteractable
      ensures var category := old(Picked(categoryValue, categoryOptions));
        var manufacturer := old(Picked(manufacturerValue, manufacturerOptions));
        (outcome == NotSignedIn <==> !old(signedIn))
        && (outcome == OptionMissing <==> old(signedIn) && (category.None? || manufacturer.None?))
        && (old(signedIn) && category.Some? && manufacturer.Some? ==>
              match old(Check(form, category.value, manufacturer.value))
              case Rejected(reason) => outcome == Invalid(reason)
              case Accepted(p) =>
                if !online then outcome == Offline
                else if docId.Some? then outcome == Added(p.(productId := docId)) && added == old(added) + [p]
                else outcome == AddFailed)
      ensures outcome.NotSignedIn? || outcome.OptionMissing? || outcome.Invalid? ==>
                confirmInteractable == old(confirmInteractable) && cancelInteractable == old(cancelInteractable)
      ensures outcome.Offline? ==> !confirmInteractable && !cancelInteractable
      ensures outcome.Added? || outcome.AddFailed? ==> confirmInteractable && cancelInteractable
      ensures !outcome.Added? ==> added == old(added) && callbackRuns == old(callbackRuns)
    {
      if !signedIn {
        return NotSignedIn;
      }
      var category := Picked(categoryValue, categoryOptions);
      var manufacturer := Picked(manufacturerValue, manufacturerOptions);
      if category.None? || manufacturer.None? {
        return OptionMissing;
      }
      var checked := Check(form, category.value, manufacturer.value);
      if checked.Rejected? {
        return Invalid(checked.reason);
      }
      confirmInteractable, cancelInteractable := false, false;
      if !online {
        return Offline;
      }
      outcome := Submit(checked.product, docId);
    }

    /** The handler with the connection checked before the buttons are
        disabled, as ImportStockPanelManager does: whatever happens, both
        buttons end enabled if they were, and an offline click changes
        nothing. */
    method ConfirmAddCheckingOnlineFirst(online: bool, docId: Option<string>) returns (outcome: AddOutcome)
      modifies this`added, this`callbackRuns, this`panelActive
      modifies this`confirmInteractable, this`cancelInteractable
      ensures var category := old(Picked(categoryValue, categoryOptions));
        var manufacturer := old(Picked(manufacturerValue, manufacturerOptions));
        (outcome == NotSignedIn <==> !old(signedIn))
        && (outcome == OptionMissing <==> old(signedIn) && (category.None? || manufacturer.None?))
        && (old(signedIn) && category.Some? && manufacturer.Some? ==>
              match old(Check(form, category.value, manufacturer.value))
              case Rejected(reason) => outcome == Invalid(reason)
              case Accepted(p) =>
                if !online then outcome == Offline
                else if docId.Some? then outcome == Added(p.(productId := docId)) && added == old(added) + [p]
                else outcome == AddFailed)
      ensures old(confirmInteractable) && old(cancelInteractable) ==> confirmInteractable && cancelInteractable
      ensures outcome.Offline? ==>
                confirmInteractable == old(confirmInteractable) && cancelInteractable == old(cancelInteractable)
                && panelActive == old(panelActive)
      ensures !outcome.Added? ==> added == old(added) && callbackRuns == old(callbackRuns)
    {
      if !signedIn {
        return NotSignedIn;
      }
      var category := Picked(categoryValue, categoryOptions);
      var manufacturer := Picked(manufacturerValue, manufacturerOptions);
      if category.None? || manufacturer.None? {
        return OptionMissing;
      }
      var checked := Check(form, category.value, manufacturer.value);
      if checked.Rejected? {
        return Invalid(checked.reason);
      }
      if !online {
        return Offline;
      }
      confirmInteractable, cancelInteractable := false, false;
      outcome := Submit(checked.product, docId);
    }
  }
}
