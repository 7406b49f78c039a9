// ShopInfoPanelController: the shop's name, phone number, tax id and
// industry. Saving copies the panel into the edited shop (texts trimmed)
// before it checks that every field is filled, then merges the whole shop
// into its Firestore document and leaves edit mode. Whether SetAsync
// succeeds is a parameter, the written documents are kept as a log and the
// save callback as the list of shops passed to it.
module ShopInfoPanel {
  import opened Wrappers
  import opened DotNetText
  import opened ShopRecords
  import opened Dropdown

  const IndustryPlaceholder: string := "Chọn Ngành hàng..."
  const IndustryOptions: seq<string> := [IndustryPlaceholder, "Y tế", "Thời trang", "Tạp hóa", "Điện tử", "Khác"]

  /** The check of a save on what it read: no empty text, an industry
      chosen. */
  predicate Complete(d: ShopData)
  {
    !IsNullOrEmpty(d.shopName) && !IsNullOrEmpty(d.phoneNumber) && !IsNullOrEmpty(d.taxId)
    && d.industry != Some(IndustryPlaceholder)
  }

  /** The edited shop after a save has read the panel: only the four
      shop-information fields change. */
  function Edited(d: ShopData, name: string, phone: string, taxId: string, industry: nat): ShopData
    requires industry < |IndustryOptions|
  {
    d.(shopName := Some(Trim(name)), phoneNumber := Some(Trim(phone)), taxId := Some(Trim(taxId)),
       industry := Some(IndustryOptions[industry]))
  }

  /** A save passes exactly when each text has a character that is not
      white space and a real industry is chosen. */
  lemma CompleteSpec(d: ShopData, name: string, phone: string, taxId: string, industry: nat)
    requires industry < |IndustryOptions|
    ensures Complete(Edited(d, name, phone, taxId, industry)) <==>
              (exists i :: 0 <= i < |name| && !IsWhiteSpace(name[i]))
              && (exists i :: 0 <= i < |phone| && !IsWhiteSpace(phone[i]))
              && (exists i :: 0 <= i < |taxId| && !IsWhiteSpace(taxId[i]))
              && industry != 0
  {
  }

  /** Saving a complete shop exactly as the panel displays it changes
      nothing, when its texts are trimmed and its industry is an option. */
  lemma DisplayedShopSavesUnchanged(d: ShopData)
    requires Complete(d) && d.industry.Some? && d.industry.value in IndustryOptions
    requires Trim(OrEmpty(d.shopName)) == OrEmpty(d.shopName)
    requires Trim(OrEmpty(d.phoneNumber)) == OrEmpty(d.phoneNumber)
    requires Trim(OrEmpty(d.taxId)) == OrEmpty(d.taxId)
    ensures Edited(d, OrEmpty(d.shopName), OrEmpty(d.phoneNumber), OrEmpty(d.taxId),
                   DisplayIndex(IndustryOptions, d.industry)) == d
  {
  }

  datatype SaveOutcome = NoSession | Incomplete | Saved | SaveFailed

  class ShopInfoPanelController {
    /** The input fields' texts and the industry dropdown's value. */
    var nameText: string
    var phoneText: string
    var taxIdText: string
    var industryIndex: nat
    /** _originalShopData and _currentEditableData. */
    var original: ShopData
    var editable: ShopData
    var isInEditMode: bool
    var editVisible: bool
    var saveVisible: bool
    var cancelVisible: bool
    var inputsInteractable: bool
    var saveInteractable: bool
    var cancelInteractable: bool
    /** _currentUser and _shopDocRef are set. */
    var signedIn: bool
    /** The shops handed to the save callback, in order. */
    var callbacks: seq<ShopData>
    /** The documents merged into the shop document. */
    var writes: seq<ShopData>

    /** Awake: the industry options are filled and the first chosen. */
    constructor(signedIn: bool)
      ensures Valid() && this.signedIn == signedIn && callbacks == [] && writes == [] && industryIndex == 0
      ensures saveInteractable && cancelInteractable
    {
      nameText, phoneText, taxIdText := "", "", "";
      industryIndex := 0;
      original := EmptyShop;
      editable := EmptyShop;
      isInEditMode := false;
      editVisible, saveVisible, cancelVisible := true, false, false;
      inputsInteractable, saveInteractable, cancelInteractable := true, true, true;
      this.signedIn := signedIn;
      callbacks := [];
      writes := [];
    }

    /** The dropdown's value is one of its options. */
    predicate Valid()
      reads this
    {
      industryIndex < |IndustryOptions|
    }

    /** The panel shows `d`. */
    predicate Shows(d: ShopData)
      reads this
    {
      nameText == OrEmpty(d.shopName) && phoneText == OrEmpty(d.phoneNumber)
      && taxIdText == OrEmpty(d.taxId) && industryIndex == DisplayIndex(IndustryOptions, d.industry)
    }

    /** `d` with the panel's values read into it. */
    function ReadInto(d: ShopData): ShopData
      requires Valid()
      reads this
    {
      Edited(d, nameText, phoneText, taxIdText, industryIndex)
    }

    method DisplayData(d: ShopData)
      modifies this`nameText, this`phoneText, this`taxIdText, this`industryIndex
      ensures Valid() && Shows(d)
    {
      nameText := OrEmpty(d.shopName);
      phoneText := OrEmpty(d.phoneNumber);
      taxIdText := OrEmpty(d.taxId);
      industryIndex := DisplayIndex(IndustryOptions, d.industry);
    }

    method SetEditMode(editMode: bool)
      modifies this`isInEditMode, this`editVisible, this`saveVisible, this`cancelVisible
      modifies this`inputsInteractable
      ensures isInEditMode == editMode && editVisible == !editMode
      ensures saveVisible == editMode && cancelVisible == editMode && inputsInteractable == editMode
    {
      isInEditMode := editMode;
      editVisible := !editMode;
      saveVisible := editMode;
      cancelVisible := editMode;
      inputsInteractable := editMode;
    }

    /** SetupPanel: keeps the shop, edits a copy of it and shows it. */
    method SetupPanel(data: ShopData, editMode: bool)
      modifies this`original, this`editable
      modifies this`nameText, this`phoneText, this`taxIdText, this`industryIndex
      modifies this`isInEditMode, this`editVisible, this`saveVisible, this`cancelVisible
      modifies this`inputsInteractable
      ensures Valid() && original == data && editable == data && Shows(data)
      ensures isInEditMode == editMode && inputsInteractable == editMode && editVisible == !editMode
    {
      original := data;
      editable := data;
      DisplayData(original);
      SetEditMode(editMode);
    }

    /** The user fills the panel; ignored while the inputs refuse input. */
    method Fill(name: string, phone: string, taxId: string, industry: nat)
      requires industry < |IndustryOptions| && Valid()
      modifies this`nameText, this`phoneText, this`taxIdText, this`industryIndex
      ensures Valid()
      ensures inputsInteractable ==>
                nameText == name && phoneText == phone && taxIdText == taxId && industryIndex == industry
      ensures !inputsInteractable ==>
                nameText == old(nameText) && phoneText == old(phoneText) && taxIdText == old(taxIdText)
                && industryIndex == old(industryIndex)
    {
      if inputsInteractable {
        nameText, phoneText, taxIdText, industryIndex := name, phone, taxId, industry;
      }
    }

    /** OnEditButtonClicked: enters edit mode; it does not touch whether
        the save and cancel buttons accept clicks. */
    method OnEditButtonClicked()
      modifies this`isInEditMode, this`editVisible, this`saveVisible, this`cancelVisible
      modifies this`inputsInteractable
      ensures isInEditMode && !editVisible && saveVisible && cancelVisible && inputsInteractable
    {
      SetEditMode(true);
    }

    /** OnSaveButtonClicked as written. With a session, the edited shop
        takes the panel's values even when the check then refuses them. A
        complete shop is merged into Firestore with the controls locked; on
        success the panel leaves edit mode and the edited shop becomes the
        original and goes to the callback, but the save and cancel buttons
        stay disabled; on failure the controls accept input again. */
    method OnSaveButtonClicked(setOk: bool) returns (outcome: SaveOutcome)
      requires Valid()
      modifies this`editable, this`original, this`callbacks, this`writes
      modifies this`isInEditMode, this`editVisible, this`saveVisible, this`cancelVisible
      modifies this`inputsInteractable, this`saveInteractable, this`cancelInteractable
      ensures outcome == NoSession <==> !signedIn
      ensures outcome == NoSession ==> editable == old(editable)
      ensures signedIn ==> editable == old(ReadInto(editable))
      ensures outcome == Incomplete <==> signedIn && !Complete(editable)
      ensures outcome == Saved <==> signedIn && Complete(editable) && setOk
      ensures outcome == Saved ==>
                writes == old(writes) + [editable] && original == editable
                && callbacks == old(callbacks) + [editable]
                && !isInEditMode && editVisible && !saveVisible && !cancelVisible
                && !inputsInteractable && !saveInteractable && !cancelInteractable
      ensures !outcome.Saved? ==>
                original == old(original) && callbacks == old(callbacks) && writes == old(writes)
                && isInEditMode == old(isInEditMode) && editVisible == old(editVisible)
                && saveVisible == old(saveVisible) && cancelVisible == old(cancelVisible)
      ensures outcome == NoSession || outcome == Incomplete ==>
                inputsInteractable == old(inputsInteractable) && saveInteractable == old(saveInteractable)
                && cancelInteractable == old(cancelInteractable)
      ensures outcome == SaveFailed ==> inputsInteractable && saveInteractable && cancelInteractable
    {
      if !signedIn {
        return NoSession;
      }
      editable := ReadInto(editable);
      if !Complete(editable) {
        return Incomplete;
      }
      outcome := Store(setOk);
    }

    /** The save of a complete shop: the inputs and buttons are disabled,
        and the write either succeeds, leaving edit mode and handing the
        shop to the callback, or fails and re-enables them. */
    method Store(setOk: bool) returns (outcome: SaveOutcome)
      modifies this`original, this`callbacks, this`writes
      modifies this`isInEditMode, this`editVisible, this`saveVisible, this`cancelVisible
      modifies this`inputsInteractable, this`saveInteractable, this`cancelInteractable
      ensures outcome == (if setOk then Saved else SaveFailed)
      ensures setOk ==>
                writes == old(writes) + [editable] && original == editable
                && callbacks == old(callbacks) + [editable]
                && !isInEditMode && editVisible && !saveVisible && !cancelVisible
                && !inputsInteractable && !saveInteractable && !cancelInteractable
      ensures !setOk ==>
                original == old(original) && callbacks == old(callbacks) && writes == old(writes)
                && isInEditMode == old(isInEditMode) && editVisible == old(editVisible)
                && saveVisible == old(saveVisible) && cancelVisible == old(cancelVisible)
                && inputsInteractable && saveInteractable && cancelInteractable
    {
      inputsInteractable, saveInteractable, cancelInteractable := false, false, false;
      if setOk {
        writes := writes + [editable];
        SetEditMode(false);
        original := editable;
        callbacks := callbacks + [editable];
        outcome := Saved;
      } else {
        inputsInteractable, saveInteractable, cancelInteractable := true, true, true;
        outcome := SaveFailed;
      }
    }

    /** A successful save followed by Edit shows the save and cancel
        buttons in edit mode, but neither accepts a click. */
    method SaveThenEdit(setOk: bool) returns (outcome: SaveOutcome)
      requires Valid() && signedIn && setOk && Complete(ReadInto(editable))
      modifies this`editable, this`original, this`callbacks, this`writes
      modifies this`isInEditMode, this`editVisible, this`saveVisible, this`cancelVisible
      modifies this`inputsInteractable, this`saveInteractable, this`cancelInteractable
      ensures outcome == Saved && isInEditMode && inputsInteractable
      ensures saveVisible && !saveInteractable && cancelVisible && !cancelInteractable
    {
      outcome := OnSaveButtonClicked(setOk);
      OnEditButtonClicked();
    }

    /** The save as evidently intended: a successful save also gives the
        save and cancel buttons back, so that a later edit can be saved or
        cancelled. */
    method OnSaveButtonClickedReenabling(setOk: bool) returns (outcome: SaveOutcome)
      requires Valid()
      modifies this`editable, this`original, this`callbacks, this`writes
      modifies this`isInEditMode, this`editVisible, this`saveVisible, this`cancelVisible
      modifies this`inputsInteractable, this`saveInteractable, this`cancelInteractable
      ensures outcome == NoSession <==> !signedIn
      ensures outcome == NoSession ==> editable == old(editable)
      ensures signedIn ==> editable == old(ReadInto(editable))
      ensures outcome == Incomplete <==> signedIn && !Complete(editable)
      ensures outcome == Saved <==> signedIn && Complete(editable) && setOk
      ensures outcome == Saved ==>
                writes == old(writes) + [editable] && original == editable
                && callbacks == old(callbacks) + [editable]
                && !isInEditMode && editVisible && !saveVisible && !cancelVisible
                && !inputsInteractable && saveInteractable && cancelInteractable
      ensures !outcome.Saved? ==>
                original == old(original) && callbacks == old(callbacks) && writes == old(writes)
                && isInEditMode == old(isInEditMode) && editVisible == old(editVisible)
                && saveVisible == old(saveVisible) && cancelVisible == old(cancelVisible)
      ensures outcome == NoSession || outcome == Incomplete ==>
                inputsInteractable == old(inputsInteractable) && saveInteractable == old(saveInteractable)
                && cancelInteractable == old(cancelInteractable)
      ensures outcome == SaveFailed ==> inputsInteractable && saveInteractable && cancelInteractable
    {
      outcome := OnSaveButtonClicked(setOk);
      if outcome == Saved {
        saveInteractable, cancelInteractable := true, true;
      }
    }

    /** With the corrected save, Edit after a successful save leaves the
        save and cancel buttons usable. */
    method CorrectedSaveThenEdit(setOk: bool) returns (outcome: SaveOutcome)
      requires Valid() && signedIn && setOk && Complete(ReadInto(editable))
      modifies this`editable, this`original, this`callbacks, this`writes
      modifies this`isInEditMode, this`editVisible, this`saveVisible, this`cancelVisible
      modifies this`inputsInteractable, this`saveInteractable, this`cancelInteractable
      ensures outcome == Saved && isInEditMode && inputsInteractable
      ensures saveVisible && saveInteractable && cancelVisible && cancelInteractable
    {
      outcome := OnSaveButtonClickedReenabling(setOk);
      OnEditButtonClicked();
    }

    /** OnCancelEditButtonClicked: shows the original again, leaves edit
        mode and hands the original to the callback. */
    method OnCancelEditButtonClicked()
      modifies this`nameText, this`phoneText, this`taxIdText, this`industryIndex
      modifies this`isInEditMode, this`editVisible, this`saveVisible, this`cancelVisible
      modifies this`inputsInteractable, this`callbacks
      ensures Valid() && Shows(original) && !isInEditMode && editVisible && !inputsInteractable
      ensures callbacks == old(callbacks) + [original]
    {
      DisplayData(original);
      SetEditMode(false);
      callbacks := callbacks + [original];
    }
  }
}
