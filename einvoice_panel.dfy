// EInvoicePanelController: the electronic-invoice settings of the shop. The
// panel shows the provider, the form and the type as dropdowns over fixed
// option lists and the account and serial as text fields. Saving copies
// what the panel shows into the edited shop (texts trimmed) before it checks
// that the provider is FPT or left unchosen and that a form and a type are
// chosen, then merges the whole shop into its Firestore document. Whether
// SetAsync succeeds is a parameter, the written documents are kept as a log
// and the save callback as the list of shops passed to it.
module EInvoicePanel {
  import opened Wrappers
  import opened DotNetText
  import opened ShopRecords
  import opened Dropdown

  const ProviderPlaceholder: string := "Chọn Nhà cung cấp..."
  const FormPlaceholder: string := "Chọn Form..."
  const TypePlaceholder: string := "Chọn Type..."
  const Fpt: string := "FPT"

  const ProviderOptions: seq<string> := [ProviderPlaceholder, Fpt, "Viettel", "VNPT", "Khác"]
  const FormOptions: seq<string> := [FormPlaceholder, "1", "2", "5"]
  const TypeOptions: seq<string> := [TypePlaceholder, "01/MTT", "02/MTT", "05/MTT", "08/MTT"]

  datatype Rejection = UnsupportedProvider | FormOrTypeMissing

  /** The checks of a save, in order, on the texts of the chosen options. */
  function Check(provider: string, form: string, invoiceType: string): Option<Rejection>
  {
    if provider != Fpt && provider != ProviderPlaceholder then Some(UnsupportedProvider)
    else if form == FormPlaceholder || invoiceType == TypePlaceholder then Some(FormOrTypeMissing)
    else None
  }

  /** In terms of the dropdown positions: a save passes exactly when the
      provider is the placeholder or FPT and a real form and type are
      chosen; a wrong provider is reported first. */
  lemma CheckSpec(provider: nat, form: nat, invoiceType: nat)
    requires provider < |ProviderOptions| && form < |FormOptions| && invoiceType < |TypeOptions|
    ensures var r := Check(ProviderOptions[provider], FormOptions[form], TypeOptions[invoiceType]);
      (r.None? <==> provider <= 1 && form >= 1 && invoiceType >= 1)
      && (r == Some(UnsupportedProvider) <==> provider >= 2)
  {
  }

  /** The edited shop after a save has read the panel: only the six
      e-invoice fields change. */
  function Edited(d: ShopData, provider: nat, user: string, pass: string, serial: string, form: nat,
                  invoiceType: nat): ShopData
    requires provider < |ProviderOptions| && form < |FormOptions| && invoiceType < |TypeOptions|
  {
    d.(eInvoiceProvider := Some(ProviderOptions[provider]), eInvoiceUser := Some(Trim(user)),
       eInvoicePass := Some(Trim(pass)), invoiceSerial := Some(Trim(serial)),
       invoiceForm := Some(FormOptions[form]), invoiceType := Some(TypeOptions[invoiceType]))
  }

  /** Saving a shop exactly as the panel displays it changes nothing, when
      its e-invoice texts are set, trimmed and among the options. */
  lemma DisplayedShopSavesUnchanged(d: ShopData)
    requires d.eInvoiceProvider.Some? && d.eInvoiceProvider.value in ProviderOptions
    requires d.invoiceForm.Some? && d.invoiceForm.value in FormOptions
    requires d.invoiceType.Some? && d.invoiceType.value in TypeOptions
    requires d.eInvoiceUser.Some? && Trim(d.eInvoiceUser.value) == d.eInvoiceUser.value
    requires d.eInvoicePass.Some? && Trim(d.eInvoicePass.value) == d.eInvoicePass.value
    requires d.invoiceSerial.Some? && Trim(d.invoiceSerial.value) == d.invoiceSerial.value
    ensures Edited(d, DisplayIndex(ProviderOptions, d.eInvoiceProvider), OrEmpty(d.eInvoiceUser),
                   OrEmpty(d.eInvoicePass), OrEmpty(d.invoiceSerial), DisplayIndex(FormOptions, d.invoiceForm),
                   DisplayIndex(TypeOptions, d.invoiceType)) == d
  {
  }

  /** A stored text outside the options shows the placeholder, which a
      save then refuses for the form and the type. */
  lemma UnknownFormShowsPlaceholder(d: ShopData)
    requires d.invoiceForm.None? || d.invoiceForm.value !in FormOptions
    ensures DisplayIndex(FormOptions, d.invoiceForm) == 0
    ensures forall p: nat, t: nat :: p < |ProviderOptions| && t < |TypeOptions| ==>
      Check(ProviderOptions[p], FormOptions[DisplayIndex(FormOptions, d.invoiceForm)], TypeOptions[t])
        .Some?
  {
  }

  datatype SaveOutcome = NoSession | Rejected(reason: Rejection) | Saved | SaveFailed

  class EInvoicePanelController {
    /** The dropdowns' values and the input fields' texts. */
    var providerIndex: nat
    var formIndex: nat
    var typeIndex: nat
    var userText: string
    var passText: string
    var serialText: string
    /** _originalShopData and _currentEditableData. */
    var original: ShopData
    var editable: ShopData
    var isInEditMode: bool
    var editVisible: bool
    var saveVisible: bool
    var cancelVisible: bool
    var inputsInteractable: bool
    var saveInteractable: bool
    var cancelInteractable: bool
    /** _currentUser and _shopDocRef are set. */
    var signedIn: bool
    /** The shops handed to the save callback, in order. */
    var callbacks: seq<ShopData>
    /** The documents merged into the shop document. */
    var writes: seq<ShopData>

    /** Awake: the option lists are filled and the first of each chosen. */
    constructor(signedIn: bool)
      ensures Valid() && this.signedIn == signedIn && callbacks == [] && writes == []
      ensures providerIndex == 0 && formIndex == 0 && typeIndex == 0
    {
      providerIndex, formIndex, typeIndex := 0, 0, 0;
      userText, passText, serialText := "", "", "";
      original := EmptyShop;
      editable := EmptyShop;
      isInEditMode := false;
      editVisible, saveVisible, cancelVisible := true, false, false;
      inputsInteractable, saveInteractable, cancelInteractable := true, true, true;
      this.signedIn := signedIn;
      callbacks := [];
      writes := [];
    }

    /** Each dropdown's value is one of its options. */
    predicate Valid()
      reads this
    {
      providerIndex < |ProviderOptions| && formIndex < |FormOptions| && typeIndex < |TypeOptions|
    }

    /** The panel shows `d`. */
    predicate Shows(d: ShopData)
      reads this
    {
      providerIndex == DisplayIndex(ProviderOptions, d.eInvoiceProvider)
      && formIndex == DisplayIndex(FormOptions, d.invoiceForm)
      && typeIndex == DisplayIndex(TypeOptions, d.invoiceType)
      && userText == OrEmpty(d.eInvoiceUser) && passText == OrEmpty(d.eInvoicePass)
      && serialText == OrEmpty(d.invoiceSerial)
    }

    /** The checks of a save on the options the panel shows. */
    function PanelCheck(): Option<Rejection>
      requires Valid()
      reads this
    {
      Check(ProviderOptions[providerIndex], FormOptions[formIndex], TypeOptions[typeIndex])
    }

    /** `d` with the panel's values read into it. */
    function ReadInto(d: ShopData): ShopData
      requires Valid()
      reads this
    {
      Edited(d, providerIndex, userText, passText, serialText, formIndex, typeIndex)
    }

    method DisplayData(d: ShopData)
      modifies this`providerIndex, this`formIndex, this`typeIndex
      modifies this`userText, this`passText, this`serialText
      ensures Valid() && Shows(d)
    {
      providerIndex := DisplayIndex(ProviderOptions, d.eInvoiceProvider);
      userText := OrEmpty(d.eInvoiceUser);
      passText := OrEmpty(d.eInvoicePass);
      serialText := OrEmpty(d.invoiceSerial);
      formIndex := DisplayIndex(FormOptions, d.invoiceForm);
      typeIndex := DisplayIndex(TypeOptions, d.invoiceType);
    }

    method SetEditMode(editMode: bool)
      modifies this`isInEditMode, this`editVisible, this`saveVisible, this`cancelVisible
      modifies this`inputsInteractable
      ensures isInEditMode == editMode && editVisible == !editMode
      ensures saveVisible == editMode && cancelVisible == editMode && inputsInteractable == editMode
    {
      isInEditMode := editMode;
      editVisible := !editMode;
      saveVisible := editMode;
      cancelVisible := editMode;
      inputsInteractable := editMode;
    }

    /** SetupPanel: keeps the shop, edits a copy of it and shows it. */
    method SetupPanel(data: ShopData, editMode: bool)
      modifies this`original, this`editable
      modifies this`providerIndex, this`formIndex, this`typeIndex
      modifies this`userText, this`passText, this`serialText
      modifies this`isInEditMode, this`editVisible, this`saveVisible, this`cancelVisible
      modifies this`inputsInteractable
      ensures Valid() && original == data && editable == data && Shows(data)
      ensures isInEditMode == editMode && inputsInteractable == editMode && editVisible == !editMode
    {
      original := data;
      editable := data;
      DisplayData(original);
      SetEditMode(editMode);
    }

    /** The user picks options; ignored while the inputs refuse input. */
    method ChooseOptions(provider: nat, form: nat, invoiceType: nat)
      requires provider < |ProviderOptions| && form < |FormOptions| && invoiceType < |TypeOptions|
      requires Valid()
      modifies this`providerIndex, this`formIndex, this`typeIndex
      ensures Valid()
      ensures inputsInteractable ==>
                providerIndex == provider && formIndex == form && typeIndex == invoiceType
      ensures !inputsInteractable ==>
                providerIndex == old(providerIndex) && formIndex == old(formIndex) && typeIndex == old(typeIndex)
    {
      if inputsInteractable {
        providerIndex, formIndex, typeIndex := provider, form, invoiceType;
      }
    }

    /** The user types the account and the serial; ignored likewise. */
    method TypeTexts(user: string, pass: string, serial: string)
      modifies this`userText, this`passText, this`serialText
      ensures inputsInteractable ==> userText == user && passText == pass && serialText == serial
      ensures !inputsInteractable ==>
                userText == old(userText) && passText == old(passText) && serialText == old(serialText)
    {
      if inputsInteractable {
        userText, passText, serialText := user, pass, serial;
      }
    }

    method OnEditButtonClicked()
      modifies this`isInEditMode, this`editVisible, this`saveVisible, this`cancelVisible
      modifies this`inputsInteractable
      ensures isInEditMode && !editVisible && saveVisible && cancelVisible && inputsInteractable
    {
      SetEditMode(true);
    }

    /** OnSaveButtonClicked. With a session, the edited shop takes the
        panel's values even when the checks then refuse them. A passing
        save locks the panel while it merges the shop into Firestore; on
        success the edited shop becomes the original and goes to the
        callback with the panel left locked in edit mode, on failure the
        controls accept input again. */
    method OnSaveButtonClicked(setOk: bool) returns (outcome: SaveOutcome)
      requires Valid()
      modifies this`editable, this`original, this`callbacks, this`writes
      modifies this`inputsInteractable, this`saveInteractable, this`cancelInteractable
      ensures outcome == NoSession <==> !signedIn
      ensures outcome == NoSession ==> editable == old(editable)
      ensures signedIn ==> editable == old(ReadInto(editable))
      ensures outcome.Rejected? <==> signedIn && old(PanelCheck()).Some?
      ensures outcome.Rejected? ==> Some(outcome.reason) == old(PanelCheck())
      ensures outcome == Saved <==> signedIn && !outcome.Rejected? && setOk
      ensures outcome == Saved ==>
                writes == old(writes) + [editable] && original == editable
                && callbacks == old(callbacks) + [editable]
                && !inputsInteractable && !saveInteractable && !cancelInteractable
      ensures !outcome.Saved? ==>
                original == old(original) && callbacks == old(callbacks) && writes == old(writes)
      ensures outcome.NoSession? || outcome.Rejected? ==>
                inputsInteractable == old(inputsInteractable) && saveInteractable == old(saveInteractable)
                && cancelInteractable == old(cancelInteractable)
      ensures outcome == SaveFailed ==> inputsInteractable && saveInteractable && cancelInteractable
    {
      if !signedIn {
        return NoSession;
      }
      var rejection := PanelCheck();
      editable := ReadInto(editable);
      if rejection.Some? {
        return Rejected(rejection.value);
      }
      inputsInteractable, saveInteractable, cancelInteractable := false, false, false;
      if setOk {
        writes := writes + [editable];
        original := editable;
        callbacks := callbacks + [editable];
        outcome := Saved;
      } else {
        inputsInteractable, saveInteractable, cancelInteractable := true, true, true;
        outcome := SaveFailed;
      }
    }

    /** OnCancelEditButtonClicked: shows the original again, leaves edit
        mode and hands the original to the callback. The edited shop keeps
        what the last refused save read; the next save reads the panel
        again. */
    method OnCancelEditButtonClicked()
      modifies this`providerIndex, this`formIndex, this`typeIndex
      modifies this`userText, this`passText, this`serialText
      modifies this`isInEditMode, this`editVisible, this`saveVisible, this`cancelVisible
      modifies this`inputsInteractable, this`callbacks
      ensures Valid() && Shows(original) && !isInEditMode && editVisible && !inputsInteractable
      ensures callbacks == old(callbacks) + [original]
    {
      DisplayData(original);
      SetEditMode(false);
      callbacks := callbacks + [original];
    }
  }
}
