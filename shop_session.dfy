// ShopSessionData: the process-wide cache of the signed-in user's shop
// settings, mirrored into Unity's PlayerPrefs so that the next start-up can
// skip the Firestore round trip. PlayerPrefs is a persistent string-to-
// string store, modelled as a map field of the session.
module ShopSession {
  import opened Wrappers
  import opened ShopRecords
  import PackageConfig
  import DotNetText

  /** The PlayerPrefs keys the application uses, and any other key. */
  datatype PrefKey =
    | CachedUserId | ShopName | PhoneNumber | TaxId | Industry
    | EInvoiceProvider | EInvoiceUser | EInvoicePass | InvoiceSerial | InvoiceForm | InvoiceType
    | FptAccessToken | FptTokenExpiryTime | PackageType | LicenseEndDate
    | EnterShopSettingEditMode
    | OtherKey(name: string)

  /** The key's name in the store. */
  function KeyName(k: PrefKey): string
  {
    match k
    case CachedUserId => "CachedUserId"
    case ShopName => "ShopName"
    case PhoneNumber => "PhoneNumber"
    case TaxId => "TaxId"
    case Industry => "Industry"
    case EInvoiceProvider => "EInvoiceProvider"
    case EInvoiceUser => "EInvoiceUser"
    case EInvoicePass => "EInvoicePass"
    case InvoiceSerial => "InvoiceSerial"
    case InvoiceForm => "InvoiceForm"
    case InvoiceType => "InvoiceType"
    case FptAccessToken => "FptAccessToken"
    case FptTokenExpiryTime => "FptTokenExpiryTime"
    case PackageType => "PackageType"
    case LicenseEndDate => "LicenseEndDate"
    case EnterShopSettingEditMode => "EnterShopSettingEditMode"
    case OtherKey(n) => n
  }

  /** PlayerPrefs keeps strings and ints apart. */
  datatype PrefValue = PrefString(s: string) | PrefInt(i: int)

  type Prefs = map<PrefKey, PrefValue>

  /** Every key the session writes. */
  const SessionKeys: set<PrefKey> := {
    CachedUserId, ShopName, PhoneNumber, TaxId, Industry, EInvoiceProvider, EInvoiceUser,
    EInvoicePass, InvoiceSerial, InvoiceForm, InvoiceType, FptAccessToken, FptTokenExpiryTime,
    PackageType, LicenseEndDate }

  /** A ShopData whose numbers fit their C# types. */
  predicate ValidShop(d: ShopData)
  {
    DotNetText.InLongRange(d.fptTokenExpiryTime) && ValidTimestamp(d.licenseEndDate)
  }

  /** PlayerPrefs.GetString(key, default): the default when the key is
      missing or holds an int. */
  function GetString(prefs: Prefs, key: PrefKey, default: string): (v: string)
    ensures key in prefs && prefs[key].PrefString? ==> v == prefs[key].s
    ensures key !in prefs ==> v == default
  {
    if key in prefs && prefs[key].PrefString? then prefs[key].s else default
  }

  /** The store after SaveShopDataToPlayerPrefs(userId, d); a null string
      is stored as the empty string. */
  function Saved(prefs: Prefs, userId: Option<string>, d: ShopData): Prefs
  {
    var p := prefs[CachedUserId := PrefString(DotNetText.OrEmpty(userId))]
      [ShopName := PrefString(DotNetText.OrEmpty(d.shopName))]
      [PhoneNumber := PrefString(DotNetText.OrEmpty(d.phoneNumber))]
      [TaxId := PrefString(DotNetText.OrEmpty(d.taxId))]
      [Industry := PrefString(DotNetText.OrEmpty(d.industry))]
      [EInvoiceProvider := PrefString(DotNetText.OrEmpty(d.eInvoiceProvider))]
      [EInvoiceUser := PrefString(DotNetText.OrEmpty(d.eInvoiceUser))]
      [EInvoicePass := PrefString(DotNetText.OrEmpty(d.eInvoicePass))]
      [InvoiceSerial := PrefString(DotNetText.OrEmpty(d.invoiceSerial))]
      [InvoiceForm := PrefString(DotNetText.OrEmpty(d.invoiceForm))]
      [InvoiceType := PrefString(DotNetText.OrEmpty(d.invoiceType))]
      [FptAccessToken := PrefString(DotNetText.OrEmpty(d.fptAccessToken))]
      [FptTokenExpiryTime := PrefString(DotNetText.LongToString(d.fptTokenExpiryTime))]
      [PackageType := PrefString(DotNetText.OrEmpty(d.packageType))];
    p[LicenseEndDate := PrefString(DotNetText.LongToString(UnixSeconds(d.licenseEndDate)))]
  }

  /** How LoadFromPlayerPrefs treats the stored license end date. */
  datatype LicenseRead =
    | LicenseOk(t: Timestamp)     // a positive second count in range
    | LicenseInvalid              // unparsable or not positive: MinValue, load fails
    | LicenseOutOfRange           // FromUnixTimeSeconds throws

  function ReadLicense(prefs: Prefs): (r: LicenseRead)
    ensures r.LicenseOk? ==> ValidTimestamp(r.t) && r.t.seconds > 0 && r.t.nanos == 0
  {
    match DotNetText.TryParseLong(GetString(prefs, LicenseEndDate, "0"))
    case None => LicenseInvalid
    case Some(v) =>
      if v <= 0 then LicenseInvalid
      else if v > MaxSeconds then LicenseOutOfRange
      else LicenseOk(FromUnixSeconds(v))
  }

  /** The ShopData that LoadFromPlayerPrefs builds from the store. */
  function LoadedShop(prefs: Prefs): (d: ShopData)
  {
    ShopData(
      Some(GetString(prefs, ShopName, "")),
      Some(GetString(prefs, PhoneNumber, "")),
      Some(GetString(prefs, TaxId, "")),
      Some(GetString(prefs, Industry, "")),
      Some(GetString(prefs, EInvoiceProvider, "")),
      Some(GetString(prefs, EInvoiceUser, "")),
      Some(GetString(prefs, EInvoicePass, "")),
      Some(GetString(prefs, InvoiceSerial, "")),
      Some(GetString(prefs, InvoiceForm, "")),
      Some(GetString(prefs, InvoiceType, "")),
      Some(GetString(prefs, FptAccessToken, "")),
      DotNetText.ParseLongOrZero(GetString(prefs, FptTokenExpiryTime, "0")),
      match ReadLicense(prefs)
        case LicenseOk(t) => t
        case LicenseInvalid => MinTimestamp
        case LicenseOutOfRange => Epoch,
      Some(GetString(prefs, PackageType, "")))
  }

  /** What LoadFromPlayerPrefs returns once the user key is present: true,
      false, or the exception FromUnixTimeSeconds throws. */
  function LoadResult(prefs: Prefs): Result<bool>
  {
    match ReadLicense(prefs)
    case LicenseOk(_) => Ok(true)
    case LicenseInvalid => Ok(false)
    case LicenseOutOfRange => Err("ArgumentOutOfRangeException")
  }

  /** A string property as it comes back from the store. */
  function Reloaded(s: Option<string>): Option<string>
  {
    Some(DotNetText.OrEmpty(s))
  }

  class Session {
    var cachedUserId: Option<string>
    var cachedShop: Option<ShopData>
    var packageConfig: Option<PackageConfig.Config>
    var globalConfig: Option<GlobalAppConfig>
    var prefs: Prefs

    /** Process start: the static properties are null and the store holds
        whatever an earlier run left in it. */
    constructor(stored: Prefs)
      ensures cachedUserId == None && cachedShop == None
      ensures packageConfig == None && globalConfig == None
      ensures prefs == stored
    {
      cachedUserId := None;
      cachedShop := None;
      packageConfig := None;
      globalConfig := None;
      prefs := stored;
    }

    /** InitializePackageConfig: only the first non-null assignment sticks. */
    method InitializePackageConfig(config: Option<PackageConfig.Config>)
      modifies this
      ensures packageConfig == if old(packageConfig).None? then config else old(packageConfig)
      ensures cachedUserId == old(cachedUserId) && cachedShop == old(cachedShop)
      ensures globalConfig == old(globalConfig) && prefs == old(prefs)
    {
      if packageConfig.None? {
        packageConfig := config;
      }
    }

    method SetGlobalAppConfig(config: Option<GlobalAppConfig>)
      modifies this
      ensures globalConfig == config
      ensures cachedUserId == old(cachedUserId) && cachedShop == old(cachedShop)
      ensures packageConfig == old(packageConfig) && prefs == old(prefs)
    {
      globalConfig := config;
    }

    /** SaveShopDataToPlayerPrefs. */
    method SaveShopDataToPlayerPrefs(userId: Option<string>, d: ShopData)
      modifies this
      ensures prefs == Saved(old(prefs), userId, d)
      ensures cachedUserId == old(cachedUserId) && cachedShop == old(cachedShop)
      ensures packageConfig == old(packageConfig) && globalConfig == old(globalConfig)
    {
      prefs := prefs[CachedUserId := PrefString(DotNetText.OrEmpty(userId))];
      prefs := prefs[ShopName := PrefString(DotNetText.OrEmpty(d.shopName))];
      prefs := prefs[PhoneNumber := PrefString(DotNetText.OrEmpty(d.phoneNumber))];
      prefs := prefs[TaxId := PrefString(DotNetText.OrEmpty(d.taxId))];
      prefs := prefs[Industry := PrefString(DotNetText.OrEmpty(d.industry))];
      prefs := prefs[EInvoiceProvider := PrefString(DotNetText.OrEmpty(d.eInvoiceProvider))];
      prefs := prefs[EInvoiceUser := PrefString(DotNetText.OrEmpty(d.eInvoiceUser))];
      prefs := prefs[EInvoicePass := PrefString(DotNetText.OrEmpty(d.eInvoicePass))];
      prefs := prefs[InvoiceSerial := PrefString(DotNetText.OrEmpty(d.invoiceSerial))];
      prefs := prefs[InvoiceForm := PrefString(DotNetText.OrEmpty(d.invoiceForm))];
      prefs := prefs[InvoiceType := PrefString(DotNetText.OrEmpty(d.invoiceType))];
      prefs := prefs[FptAccessToken := PrefString(DotNetText.OrEmpty(d.fptAccessToken))];
      prefs := prefs[FptTokenExpiryTime := PrefString(DotNetText.LongToString(d.fptTokenExpiryTime))];
      prefs := prefs[PackageType := PrefString(DotNetText.OrEmpty(d.packageType))];
      prefs := prefs[LicenseEndDate := PrefString(DotNetText.LongToString(UnixSeconds(d.licenseEndDate)))];
    }

    /** SetCachedShopSettings: caches the user and the shop and writes them
        through to the store. */
    method SetCachedShopSettings(userId: Option<string>, d: ShopData)
      modifies this
      ensures cachedUserId == userId && cachedShop == Some(d)
      ensures prefs == Saved(old(prefs), userId, d)
      ensures packageConfig == old(packageConfig) && globalConfig == old(globalConfig)
    {
      cachedUserId := userId;
      cachedShop := Some(d);
      SaveShopDataToPlayerPrefs(userId, d);
    }

    /** LoadFromPlayerPrefs. Without a user key nothing changes and the
        result is false; otherwise the user id and a freshly built ShopData
        are cached before the license date is judged, so a failed load
        still leaves them in place. */
    method LoadFromPlayerPrefs() returns (r: Result<bool>)
      modifies this
      ensures CachedUserId !in old(prefs) ==>
        r == Ok(false) && cachedUserId == old(cachedUserId) && cachedShop == old(cachedShop)
      ensures CachedUserId in old(prefs) ==>
        r == LoadResult(old(prefs)) && cachedUserId == Some(GetString(old(prefs), CachedUserId, ""))
        && cachedShop == Some(LoadedShop(old(prefs)))
      ensures prefs == old(prefs) && packageConfig == old(packageConfig) && globalConfig == old(globalConfig)
    {
      if CachedUserId !in prefs {
        return Ok(false);
      }
      cachedUserId := Some(GetString(prefs, CachedUserId, ""));
      var d := EmptyShop;
      d := d.(shopName := Some(GetString(prefs, ShopName, "")));
      d := d.(phoneNumber := Some(GetString(prefs, PhoneNumber, "")));
      d := d.(taxId := Some(GetString(prefs, TaxId, "")));
      d := d.(industry := Some(GetString(prefs, Industry, "")));
      d := d.(eInvoiceProvider := Some(GetString(prefs, EInvoiceProvider, "")));
      d := d.(eInvoiceUser := Some(GetString(prefs, EInvoiceUser, "")));
      d := d.(eInvoicePass := Some(GetString(prefs, EInvoicePass, "")));
      d := d.(invoiceSerial := Some(GetString(prefs, InvoiceSerial, "")));
      d := d.(invoiceForm := Some(GetString(prefs, InvoiceForm, "")));
      d := d.(invoiceType := Some(GetString(prefs, InvoiceType, "")));
      d := d.(fptAccessToken := Some(GetString(prefs, FptAccessToken, "")));
      var expiry := DotNetText.TryParseLong(GetString(prefs, FptTokenExpiryTime, "0"));
      if expiry.Some? {
        d := d.(fptTokenExpiryTime := expiry.value);
      } else {
        d := d.(fptTokenExpiryTime := 0);
      }
      d := d.(packageType := Some(GetString(prefs, PackageType, "")));
      cachedShop := Some(d);
      var license := DotNetText.TryParseLong(GetString(prefs, LicenseEndDate, "0"));
      if license.Some? {
        var v := license.value;
        if v > 0 {
          if v > MaxSeconds {
            return Err("ArgumentOutOfRangeException");
          }
          cachedShop := Some(d.(licenseEndDate := FromUnixSeconds(v)));
        } else {
          cachedShop := Some(d.(licenseEndDate := MinTimestamp));
          return Ok(false);
        }
      } else {
        cachedShop := Some(d.(licenseEndDate := MinTimestamp));
        return Ok(false);
      }
      return Ok(true);
    }

    /** ClearAllData: the caches become null and every key the session
        writes is deleted; other keys stay. */
    method ClearAllData()
      modifies this
      ensures cachedUserId == None && cachedShop == None && globalConfig == None
      ensures prefs == old(prefs) - SessionKeys
      ensures packageConfig == old(packageConfig)
    {
      cachedUserId := None;
      cachedShop := None;
      globalConfig := None;
      prefs := prefs - SessionKeys;
    }
  }

  // ---------------------------------------------------------------------
  // Properties of the store

  /** Saving writes the user key, so a later load goes past its first test;
      keys the session does not own are left alone. */
  lemma SavedKeys(prefs: Prefs, userId: Option<string>, d: ShopData)
    ensures CachedUserId in Saved(prefs, userId, d)
    ensures Saved(prefs, userId, d)[CachedUserId] == PrefString(DotNetText.OrEmpty(userId))
    ensures forall k :: k !in SessionKeys ==>
      (k in Saved(prefs, userId, d) <==> k in prefs) &&
      (k in prefs ==> Saved(prefs, userId, d)[k] == prefs[k])
    ensures LicenseEndDate in Saved(prefs, userId, d)
  {
  }

  /** Each string property of a loaded shop is the store's string under
      its key, or "" when the key is missing. */
  lemma LoadedShopReads(p: Prefs)
    ensures LoadedShop(p).shopName == Some(GetString(p, ShopName, ""))
    ensures LoadedShop(p).phoneNumber == Some(GetString(p, PhoneNumber, ""))
    ensures LoadedShop(p).taxId == Some(GetString(p, TaxId, ""))
    ensures LoadedShop(p).industry == Some(GetString(p, Industry, ""))
    ensures LoadedShop(p).eInvoiceProvider == Some(GetString(p, EInvoiceProvider, ""))
    ensures LoadedShop(p).eInvoiceUser == Some(GetString(p, EInvoiceUser, ""))
    ensures LoadedShop(p).eInvoicePass == Some(GetString(p, EInvoicePass, ""))
    ensures LoadedShop(p).invoiceSerial == Some(GetString(p, InvoiceSerial, ""))
    ensures LoadedShop(p).invoiceForm == Some(GetString(p, InvoiceForm, ""))
    ensures LoadedShop(p).invoiceType == Some(GetString(p, InvoiceType, ""))
    ensures LoadedShop(p).fptAccessToken == Some(GetString(p, FptAccessToken, ""))
    ensures LoadedShop(p).packageType == Some(GetString(p, PackageType, ""))
  {
  }

  /** Saving stores the shop's name and phone number under their keys. */
  lemma SavedShopContact(prefs: Prefs, userId: Option<string>, d: ShopData)
    ensures GetString(Saved(prefs, userId, d), ShopName, "") == DotNetText.OrEmpty(d.shopName)
    ensures GetString(Saved(prefs, userId, d), PhoneNumber, "") == DotNetText.OrEmpty(d.phoneNumber)
  {
  }

  /** Saving stores the tax id, industry and e-invoice provider and user
      under their keys. */
  lemma SavedShopStrings(prefs: Prefs, userId: Option<string>, d: ShopData)
    ensures GetString(Saved(prefs, userId, d), TaxId, "") == DotNetText.OrEmpty(d.taxId)
    ensures GetString(Saved(prefs, userId, d), Industry, "") == DotNetText.OrEmpty(d.industry)
    ensures GetString(Saved(prefs, userId, d), EInvoiceProvider, "") == DotNetText.OrEmpty(d.eInvoiceProvider)
    ensures GetString(Saved(prefs, userId, d), EInvoiceUser, "") == DotNetText.OrEmpty(d.eInvoiceUser)
  {
  }

  /** Saving stores each e-invoice string property under its own key. */
  lemma SavedInvoiceStrings(prefs: Prefs, userId: Option<string>, d: ShopData)
    ensures GetString(Saved(prefs, userId, d), EInvoicePass, "") == DotNetText.OrEmpty(d.eInvoicePass)
    ensures GetString(Saved(prefs, userId, d), InvoiceSerial, "") == DotNetText.OrEmpty(d.invoiceSerial)
    ensures GetString(Saved(prefs, userId, d), InvoiceForm, "") == DotNetText.OrEmpty(d.invoiceForm)
    ensures GetString(Saved(prefs, userId, d), InvoiceType, "") == DotNetText.OrEmpty(d.invoiceType)
    ensures GetString(Saved(prefs, userId, d), FptAccessToken, "") == DotNetText.OrEmpty(d.fptAccessToken)
    ensures GetString(Saved(prefs, userId, d), PackageType, "") == DotNetText.OrEmpty(d.packageType)
  {
  }

  /** The string properties come back as they were saved, a null one as
      the empty string. */
  lemma SaveLoadStrings(prefs: Prefs, userId: Option<string>, d: ShopData)
    ensures var s := LoadedShop(Saved(prefs, userId, d));
      s.shopName == Reloaded(d.shopName) && s.phoneNumber == Reloaded(d.phoneNumber)
      && s.taxId == Reloaded(d.taxId) && s.industry == Reloaded(d.industry)
      && s.eInvoiceProvider == Reloaded(d.eInvoiceProvider) && s.eInvoiceUser == Reloaded(d.eInvoiceUser)
      && s.eInvoicePass == Reloaded(d.eInvoicePass) && s.invoiceSerial == Reloaded(d.invoiceSerial)
      && s.invoiceForm == Reloaded(d.invoiceForm) && s.invoiceType == Reloaded(d.invoiceType)
      && s.fptAccessToken == Reloaded(d.fptAccessToken) && s.packageType == Reloaded(d.packageType)
  {
    LoadedShopReads(Saved(prefs, userId, d));
    SavedShopContact(prefs, userId, d);
    SavedShopStrings(prefs, userId, d);
    SavedInvoiceStrings(prefs, userId, d);
  }

  /** The token expiry time comes back exactly. */
  lemma SaveLoadExpiry(prefs: Prefs, userId: Option<string>, d: ShopData)
    requires DotNetText.InLongRange(d.fptTokenExpiryTime)
    ensures LoadedShop(Saved(prefs, userId, d)).fptTokenExpiryTime == d.fptTokenExpiryTime
  {
    var p := Saved(prefs, userId, d);
    assert GetString(p, FptTokenExpiryTime, "0") == DotNetText.LongToString(d.fptTokenExpiryTime);
    DotNetText.ParseLongToString(d.fptTokenExpiryTime);
  }

  /** A license end date after 1970 comes back truncated to the second and
      the load succeeds; one at or before the epoch makes the load fail with
      DateTime.MinValue in its place. */
  lemma SaveLoadLicense(prefs: Prefs, userId: Option<string>, d: ShopData)
    requires ValidShop(d)
    ensures var s := LoadedShop(Saved(prefs, userId, d));
      var r := LoadResult(Saved(prefs, userId, d));
      if d.licenseEndDate.seconds > 0 then
        s.licenseEndDate == Timestamp(d.licenseEndDate.seconds, 0) && r == Ok(true)
      else
        s.licenseEndDate == MinTimestamp && r == Ok(false)
  {
    var p := Saved(prefs, userId, d);
    var n := UnixSeconds(d.licenseEndDate);
    assert GetString(p, LicenseEndDate, "0") == DotNetText.LongToString(n);
    assert DotNetText.InLongRange(n);
    DotNetText.ParseLongToString(n);
  }

  /** After SetCachedShopSettings(u, d), with non-null strings and a license
      date after 1970, a load succeeds and restores u and d, the license
      date to the second. */
  lemma SaveLoadRoundTrip(prefs: Prefs, u: string, d: ShopData)
    requires ValidShop(d)
    requires d.shopName.Some? && d.phoneNumber.Some? && d.taxId.Some? && d.industry.Some?
    requires d.eInvoiceProvider.Some? && d.eInvoiceUser.Some? && d.eInvoicePass.Some?
    requires d.invoiceSerial.Some? && d.invoiceForm.Some? && d.invoiceType.Some?
    requires d.fptAccessToken.Some? && d.packageType.Some?
    requires d.licenseEndDate.seconds > 0
    ensures var p := Saved(prefs, Some(u), d);
      CachedUserId in p && GetString(p, CachedUserId, "") == u && LoadResult(p) == Ok(true)
      && LoadedShop(p) == d.(licenseEndDate := Timestamp(d.licenseEndDate.seconds, 0))
  {
    SavedKeys(prefs, Some(u), d);
    SaveLoadStrings(prefs, Some(u), d);
    SaveLoadExpiry(prefs, Some(u), d);
    SaveLoadLicense(prefs, Some(u), d);
  }

  /** Keys missing from the store load as empty strings and a zero expiry
      time; the license date then reads as invalid. */
  lemma LoadFromEmptyStore()
    ensures LoadedShop(map[]) ==
      ShopData(Some(""), Some(""), Some(""), Some(""), Some(""), Some(""), Some(""), Some(""),
               Some(""), Some(""), Some(""), 0, MinTimestamp, Some(""))
    ensures LoadResult(map[]) == Ok(false)
  {
    DotNetText.ParseLongToString(0);
    assert DotNetText.LongToString(0) == "0";
  }
}
