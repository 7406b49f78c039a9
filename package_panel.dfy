// PackagePanelController: the package choice (Basic, Advanced, Pro) shown
// as three toggles. Setting a toggle's isOn to a new value runs its
// onValueChanged listener once the panel has registered them (Unity's
// Toggle.isOn setter notifies only on a change), and the listener turns
// the other toggles off or refuses to leave none on; the model runs that
// cascade as mutually recursive methods. Saving writes only packageType;
// whether UpdateAsync succeeds is a parameter and the save callback is kept
// as the list of shops passed to it.
module PackagePanel {
  import opened Wrappers
  import opened ShopRecords

  datatype Package = Basic | Advanced | Pro

  function Name(p: Package): string
  {
    match p
    case Basic => "Basic"
    case Advanced => "Advanced"
    case Pro => "Pro"
  }

  const LabelPrefix: string := "Gói đang chọn: "

  function Label(p: Package): string
  {
    LabelPrefix + Name(p)
  }

  /** The isOn flags of the basic, advanced and pro toggles. */
  datatype Toggles = Toggles(basic: bool, advanced: bool, pro: bool)

  const AllOff: Toggles := Toggles(false, false, false)

  function Get(t: Toggles, p: Package): bool
  {
    match p
    case Basic => t.basic
    case Advanced => t.advanced
    case Pro => t.pro
  }

  function Set(t: Toggles, p: Package, v: bool): (r: Toggles)
    ensures Get(r, p) == v
    ensures forall q :: q != p ==> Get(r, q) == Get(t, q)
  {
    match p
    case Basic => t.(basic := v)
    case Advanced => t.(advanced := v)
    case Pro => t.(pro := v)
  }

  /** Only the toggle of `p` is on. */
  function Only(p: Package): Toggles
  {
    Set(AllOff, p, true)
  }

  /** Every toggle but `p`'s is off. */
  predicate OthersOff(t: Toggles, p: Package)
  {
    Set(t, p, false) == AllOff
  }

  /** The package selected when exactly one toggle is on. */
  function Selected(t: Toggles): (r: Option<Package>)
    ensures r.Some? <==> (t == Only(Basic) || t == Only(Advanced) || t == Only(Pro))
    ensures r.Some? ==> t == Only(r.value)
  {
    if t == Only(Basic) then Some(Basic)
    else if t == Only(Advanced) then Some(Advanced)
    else if t == Only(Pro) then Some(Pro)
    else None
  }

  /** The package whose name equals a stored packageType. */
  function Matching(packageType: Option<string>): (r: Option<Package>)
    ensures r.Some? <==> packageType == Some("Basic") || packageType == Some("Advanced") || packageType == Some("Pro")
    ensures r.Some? ==> packageType == Some(Name(r.value))
  {
    if packageType == Some("Basic") then Some(Basic)
    else if packageType == Some("Advanced") then Some(Advanced)
    else if packageType == Some("Pro") then Some(Pro)
    else None
  }

  datatype SaveOutcome = NoSession | Saved | SaveFailed

  class PackagePanelController {
    var toggles: Toggles
    /** The toggle listeners are registered (after the first SetupPanel). */
    var listenersInitialized: bool
    var confirmText: string
    /** _originalShopData and _currentEditableData. */
    var original: ShopData
    var editable: ShopData
    var isInEditMode: bool
    var editVisible: bool
    var saveVisible: bool
    var cancelVisible: bool
    var togglesInteractable: bool
    var saveInteractable: bool
    var cancelInteractable: bool
    /** _currentUser and _shopDocRef are set. */
    var signedIn: bool
    /** The shops handed to the save callback, in order. */
    var callbacks: seq<ShopData>
    /** The packageType values written to the shop document. */
    var packageWrites: seq<Option<string>>

    /** A fresh panel: the toggles as the prefab left them. */
    constructor(toggles: Toggles, signedIn: bool)
      ensures this.toggles == toggles && this.signedIn == signedIn && !listenersInitialized
      ensures callbacks == [] && packageWrites == []
      ensures Valid()
    {
      this.toggles := toggles;
      listenersInitialized := false;
      confirmText := "";
      original := EmptyShop;
      editable := EmptyShop;
      isInEditMode := false;
      editVisible := true;
      saveVisible := false;
      cancelVisible := false;
      togglesInteractable := false;
      saveInteractable := true;
      cancelInteractable := true;
      this.signedIn := signedIn;
      callbacks := [];
      packageWrites := [];
    }

    /** Once the listeners run, exactly one package is selected. */
    predicate OneSelected()
      reads this
    {
      listenersInitialized ==> Selected(toggles).Some?
    }

    /** ... and the edited shop carries the selected package. */
    predicate Valid()
      reads this
    {
      OneSelected()
      && (listenersInitialized ==> editable.packageType == Some(Name(Selected(toggles).value)))
    }

    /** Termination measures of the listener cascade. */
    function SetMeasure(p: Package, v: bool): nat
      reads this
    {
      if Get(toggles, p) == v then 0 else if v then 1 else if OthersOff(toggles, p) then 2 else 0
    }

    function ListenerMeasure(p: Package): nat
      reads this
    {
      if Get(toggles, p) then 1 else if toggles == AllOff then 2 else 0
    }

    /** `toggle.isOn = v`: no effect when the value is unchanged; else the
        flag changes and, once registered, the listener runs. With the
        listeners, turning a toggle on leaves it alone on, and turning off
        the only one that is on turns it straight back on. */
    method SetIsOn(p: Package, v: bool)
      modifies this`toggles, this`confirmText, this`editable
      decreases SetMeasure(p, v), 1
      ensures old(Get(toggles, p)) == v ==>
                toggles == old(toggles) && confirmText == old(confirmText) && editable == old(editable)
      ensures old(Get(toggles, p)) != v && !listenersInitialized ==>
                toggles == Set(old(toggles), p, v) && confirmText == old(confirmText) && editable == old(editable)
      ensures old(Get(toggles, p)) != v && listenersInitialized && (v || OthersOff(old(toggles), p)) ==>
                toggles == Only(p) && confirmText == Label(p)
                && editable == old(editable).(packageType := Some(Name(p)))
      ensures old(Get(toggles, p)) != v && listenersInitialized && !v && !OthersOff(old(toggles), p) ==>
                toggles == Set(old(toggles), p, false) && confirmText == old(confirmText) && editable == old(editable)
    {
      if Get(toggles, p) == v {
        return;
      }
      toggles := Set(toggles, p, v);
      if listenersInitialized {
        OnPackageToggleChanged(p);
      }
    }

    /** OnPackageToggleChanged, with the toggle's new value already set. */
    method OnPackageToggleChanged(p: Package)
      requires listenersInitialized
      modifies this`toggles, this`confirmText, this`editable
      decreases ListenerMeasure(p), 0
      ensures old(Get(toggles, p)) || old(toggles) == AllOff ==>
                toggles == Only(p) && confirmText == Label(p)
                && editable == old(editable).(packageType := Some(Name(p)))
      ensures !old(Get(toggles, p)) && old(toggles) != AllOff ==>
                toggles == old(toggles) && confirmText == old(confirmText) && editable == old(editable)
    {
      if Get(toggles, p) {
        if p != Basic {
          SetIsOn(Basic, false);
        }
        if p != Advanced {
          SetIsOn(Advanced, false);
        }
        if p != Pro {
          SetIsOn(Pro, false);
        }
        confirmText := Label(p);
        editable := editable.(packageType := Some(Name(p)));
      } else if toggles == AllOff {
        SetIsOn(p, true);
        confirmText := Label(p);
      }
    }

    /** DisplayData: each toggle is set to whether the package type names
        it; if that leaves none on, Basic is turned on and becomes the
        editable package. Before the listeners exist this selects exactly
        the stored package (Basic when it names none). Once they run, a
        toggle that is the only one on cannot be turned off, so a stored
        package naming none keeps the current selection and Basic is not
        forced. */
    method DisplayData(data: ShopData)
      requires OneSelected()
      modifies this`toggles, this`confirmText, this`editable
      ensures OneSelected() && Selected(toggles).Some? && confirmText == Label(Selected(toggles).value)
      ensures !listenersInitialized ==>
                match Matching(data.packageType)
                case Some(p) => toggles == Only(p) && editable == old(editable)
                case None => toggles == Only(Basic) && editable == old(editable).(packageType := Some("Basic"))
      ensures listenersInitialized ==>
                var s := Selected(old(toggles)).value;
                match Matching(data.packageType)
                case Some(p) =>
                  toggles == Only(p)
                  && editable == if p == s then old(editable) else old(editable).(packageType := Some(Name(p)))
                case None => toggles == old(toggles) && editable == old(editable).(packageType := Some(Name(s)))
    {
      SetIsOn(Basic, data.packageType == Some("Basic"));
      SetIsOn(Advanced, data.packageType == Some("Advanced"));
      SetIsOn(Pro, data.packageType == Some("Pro"));
      if toggles == AllOff {
        SetIsOn(Basic, true);
        confirmText := Label(Basic);
        editable := editable.(packageType := Some("Basic"));
      } else if toggles.basic {
        confirmText := Label(Basic);
      } else if toggles.advanced {
        confirmText := Label(Advanced);
      } else if toggles.pro {
        confirmText := Label(Pro);
      }
    }

    method SetEditMode(editMode: bool)
      modifies this`isInEditMode, this`editVisible, this`saveVisible, this`cancelVisible
      modifies this`togglesInteractable
      ensures isInEditMode == editMode && editVisible == !editMode
      ensures saveVisible == editMode && cancelVisible == editMode && togglesInteractable == editMode
    {
      isInEditMode := editMode;
      editVisible := !editMode;
      saveVisible := editMode;
      cancelVisible := editMode;
      togglesInteractable := editMode;
    }

    /** SetupPanel: keeps the shop, edits a copy of it, shows it and
        registers the listeners. */
    method SetupPanel(data: ShopData, editMode: bool)
      requires Valid()
      modifies this`original, this`editable, this`toggles, this`confirmText, this`listenersInitialized
      modifies this`isInEditMode, this`editVisible, this`saveVisible, this`cancelVisible
      modifies this`togglesInteractable
      ensures Valid() && listenersInitialized && original == data
      ensures isInEditMode == editMode && togglesInteractable == editMode && editVisible == !editMode
      ensures Matching(data.packageType).Some? ==>
                toggles == Only(Matching(data.packageType).value) && editable == data
      ensures Matching(data.packageType).None? && !old(listenersInitialized) ==>
                toggles == Only(Basic) && editable == data.(packageType := Some("Basic"))
      ensures Matching(data.packageType).None? && old(listenersInitialized) ==>
                toggles == old(toggles) && editable == data.(packageType := Some(Name(Selected(toggles).value)))
    {
      original := data;
      editable := data;
      DisplayData(original);
      SetEditMode(editMode);
      listenersInitialized := true;
    }

    /** A click on a toggle flips it when the toggles accept input. */
    method ClickToggle(p: Package)
      requires Valid() && listenersInitialized
      modifies this`toggles, this`confirmText, this`editable
      ensures Valid()
      ensures togglesInteractable ==>
                toggles == (if old(Get(toggles, p)) then old(toggles) else Only(p))
                && confirmText == Label(p) && editable == old(editable).(packageType := Some(Name(p)))
      ensures !togglesInteractable ==>
                toggles == old(toggles) && confirmText == old(confirmText) && editable == old(editable)
    {
      if togglesInteractable {
        SetIsOn(p, !Get(toggles, p));
      }
    }

    method OnEditButtonClicked()
      modifies this`isInEditMode, this`editVisible, this`saveVisible, this`cancelVisible
      modifies this`togglesInteractable
      ensures isInEditMode && !editVisible && saveVisible && cancelVisible && togglesInteractable
    {
      SetEditMode(true);
    }

    /** OnSaveButtonClicked: only packageType is written. On success the
        edited shop becomes the original and goes to the callback, and the
        panel stays locked; on failure the controls accept input again. */
    method OnSaveButtonClicked(updateOk: bool) returns (outcome: SaveOutcome)
      modifies this`original, this`callbacks, this`packageWrites
      modifies this`togglesInteractable, this`saveInteractable, this`cancelInteractable
      ensures outcome == NoSession <==> !signedIn
      ensures outcome == NoSession ==>
                original == old(original) && callbacks == old(callbacks) && packageWrites == old(packageWrites)
                && togglesInteractable == old(togglesInteractable) && saveInteractable == old(saveInteractable)
                && cancelInteractable == old(cancelInteractable)
      ensures outcome == Saved <==> signedIn && updateOk
      ensures outcome == Saved ==>
                packageWrites == old(packageWrites) + [editable.packageType]
                && original == editable && callbacks == old(callbacks) + [editable]
                && !togglesInteractable && !saveInteractable && !cancelInteractable
      ensures outcome == SaveFailed ==>
                original == old(original) && callbacks == old(callbacks) && packageWrites == old(packageWrites)
                && togglesInteractable && saveInteractable && cancelInteractable
    {
      if !signedIn {
        return NoSession;
      }
      togglesInteractable, saveInteractable, cancelInteractable := false, false, false;
      if updateOk {
        packageWrites := packageWrites + [editable.packageType];
        original := editable;
        callbacks := callbacks + [editable];
        outcome := Saved;
      } else {
        togglesInteractable, saveInteractable, cancelInteractable := true, true, true;
        outcome := SaveFailed;
      }
    }

    /** OnCancelEditButtonClicked: shows the original again, leaves edit
        mode and hands the original to the callback. A stored package that
        names one of the three is selected again and becomes the editable
        package. */
    method OnCancelEditButtonClicked()
      requires Valid() && listenersInitialized
      modifies this`toggles, this`confirmText, this`editable, this`callbacks
      modifies this`isInEditMode, this`editVisible, this`saveVisible, this`cancelVisible
      modifies this`togglesInteractable
      ensures Valid() && !isInEditMode && editVisible && !saveVisible && !cancelVisible && !togglesInteractable
      ensures callbacks == old(callbacks) + [original]
      ensures Matching(original.packageType).Some? ==>
                toggles == Only(Matching(original.packageType).value)
                && editable.packageType == original.packageType
      ensures Matching(original.packageType).None? ==> toggles == old(toggles)
    {
      DisplayData(original);
      SetEditMode(false);
      callbacks := callbacks + [original];
    }
  }
}
